/**
 * A generated class (src/CGClass.ts and its bundled copy in src/index.ts) and
 * the root-level CGClass.ts variant, which has no decorators and uses the
 * root-level class declaration.
 */
module Classes {
  import opened Strings
  import opened Buffer
  import opened CGHelper
  import opened Access
  import opened Properties
  import opened Methods

  /** `access` is a field of the source class that no part of the output uses. */
  datatype Class = Class(comment: string, access: CGAccess, name: string, inheritClassName: string,
                         isExport: bool, isExportAsDefault: bool, decorators: seq<string>,
                         interfaces: seq<string>, properties: seq<Property>, methods: seq<Method>)

  /** One decorator line per decorator, in the order they were added. */
  function DecoratorLines(ds: seq<string>, tab: int): seq<string> {
    seq(|ds|, i requires 0 <= i < |ds| => GetClassDecorator(ds[i], tab))
  }

  /** The "Properties" region: written only when there is a property. */
  function PropertiesRegion(ps: seq<Property>, tab: int): seq<string> {
    if ps == [] then [] else [RegionStartLine("Properties", tab)] + PropertyBlocks(ps, tab) + [RegionEndLine(tab)]
  }

  /** The blank line between the two regions: written only when there are both. */
  function RegionGap(ps: seq<Property>, ms: seq<Method>): seq<string> {
    if ps != [] && ms != [] then [""] else []
  }

  /** The "Methods" region: written only when there is a method. */
  function MethodsRegion(ms: seq<Method>, tab: int): seq<string> {
    if ms == [] then [] else [RegionStartLine("Methods", tab)] + MethodBlocks(ms, tab) + [RegionEndLine(tab)]
  }

  /** The lines inside a class's braces, at the level of its members. */
  function ClassBodyLines(ps: seq<Property>, ms: seq<Method>, tab: int): seq<string> {
    PropertiesRegion(ps, tab) + RegionGap(ps, ms) + MethodsRegion(ms, tab)
  }

  function ClassDeclaration(c: Class, tab: int): string {
    GetClassDeclaration(tab, c.name, c.inheritClassName, c.interfaces, c.isExport, c.isExportAsDefault)
  }

  /**
   * The lines `WriteTo` appends: the comment line when there is one, the
   * decorators, the declaration opening the block, the member regions one
   * level deeper, and the line closing the block.
   */
  function ClassLines(c: Class, tab: int): seq<string> {
    CommentLines(c.comment, tab) + DecoratorLines(c.decorators, tab) + [ClassDeclaration(c, tab) + " {"]
    + ClassBodyLines(c.properties, c.methods, tab + 1) + [BlockCloseLine(tab)]
  }

  function LegacyDeclaration(c: Class, tab: int): string {
    LegacyClassDeclaration(tab, c.name, c.inheritClassName, c.interfaces, c.isExport, c.isExportAsDefault)
  }

  /** The root-level variant: no decorator lines, and the root-level declaration. */
  function LegacyClassLines(c: Class, tab: int): seq<string> {
    CommentLines(c.comment, tab) + [LegacyDeclaration(c, tab) + " {"]
    + ClassBodyLines(c.properties, c.methods, tab + 1) + [BlockCloseLine(tab)]
  }

  // ---------------------------------------------------------------------------
  // The shape of a class

  lemma DecoratorLinesHead(ds: seq<string>, tab: int)
    ensures forall line :: line in DecoratorLines(ds, tab) ==> HeadLine(line, tab)
  {
    forall line | line in DecoratorLines(ds, tab)
      ensures HeadLine(line, tab)
    {
      var i :| 0 <= i < |ds| && DecoratorLines(ds, tab)[i] == line;
      assert line[|Indent(tab)|] == (Indent(tab) + "@")[|Indent(tab)|];
    }
  }

  lemma PropertiesRegionIndented(ps: seq<Property>, tab: int)
    requires tab >= 0
    ensures forall line :: line in PropertiesRegion(ps, tab) ==> StartsWith(line, Indent(tab))
  {
    if ps != [] {
      PropertyBlocksIndented(ps, tab);
      var r := PropertiesRegion(ps, tab);
      assert r == [RegionStartLine("Properties", tab)] + PropertyBlocks(ps, tab) + [RegionEndLine(tab)];
      forall line | line in r
        ensures StartsWith(line, Indent(tab))
      {
        if line !in PropertyBlocks(ps, tab) {
          assert line == RegionStartLine("Properties", tab) || line == RegionEndLine(tab);
        }
      }
    }
  }

  lemma MethodsRegionIndented(ms: seq<Method>, tab: int)
    requires tab >= 0
    ensures forall line :: line in MethodsRegion(ms, tab) ==> line == "" || StartsWith(line, Indent(tab))
  {
    if ms != [] {
      MethodBlocksIndented(ms, tab);
      var r := MethodsRegion(ms, tab);
      assert r == [RegionStartLine("Methods", tab)] + MethodBlocks(ms, tab) + [RegionEndLine(tab)];
      forall line | line in r
        ensures line == "" || StartsWith(line, Indent(tab))
      {
        if line !in MethodBlocks(ms, tab) {
          assert line == RegionStartLine("Methods", tab) || line == RegionEndLine(tab);
        }
      }
    }
  }

  /** Every line inside the braces is empty or indented to the members' level. */
  lemma ClassBodyIndented(ps: seq<Property>, ms: seq<Method>, tab: int)
    requires tab >= 0
    ensures forall line :: line in ClassBodyLines(ps, ms, tab) ==> line == "" || StartsWith(line, Indent(tab))
  {
    PropertiesRegionIndented(ps, tab);
    MethodsRegionIndented(ms, tab);
    var a, b, c := PropertiesRegion(ps, tab), RegionGap(ps, ms), MethodsRegion(ms, tab);
    assert forall line :: line in a + b + c ==> line in a || line in b || line in c;
  }

  /**
   * A class's output: the comment and the decorators, then the declaration
   * opening the block, the member regions, and the block closed once, on the
   * last line.
   */
  lemma ClassLinesShape(c: Class, tab: int)
    requires tab >= 0
    ensures var lines := ClassLines(c, tab);
      var h := |CommentLines(c.comment, tab)| + |c.decorators|;
      var body := ClassBodyLines(c.properties, c.methods, tab + 1);
      && |lines| == h + |body| + 2
      && lines[h] == ClassDeclaration(c, tab) + " {"
      && lines[h + 1..|lines| - 1] == body
      && lines[|lines| - 1] == BlockCloseLine(tab)
      && multiset(lines)[BlockCloseLine(tab)] == 1
  {
    var cl := CommentLines(c.comment, tab);
    var dl := DecoratorLines(c.decorators, tab);
    var body := ClassBodyLines(c.properties, c.methods, tab + 1);
    CommentLinesHead(c.comment, tab);
    DecoratorLinesHead(c.decorators, tab);
    HeadsJoined(cl, dl, tab);
    ClassBodyIndented(c.properties, c.methods, tab + 1);
    BlockShape(cl + dl, ClassDeclaration(c, tab), body, tab);
  }

  lemma HeadsJoined(a: seq<string>, b: seq<string>, tab: int)
    requires forall line :: line in a ==> HeadLine(line, tab)
    requires forall line :: line in b ==> HeadLine(line, tab)
    ensures forall line :: line in a + b ==> HeadLine(line, tab)
  {
  }

  /** The decorators follow the comment, one line each, in the order they were added. */
  lemma ClassDecoratorsInOrder(c: Class, tab: int)
    ensures var lines := ClassLines(c, tab);
      var h := |CommentLines(c.comment, tab)|;
      && |lines| > h + |c.decorators|
      && forall i :: 0 <= i < |c.decorators| ==> lines[h + i] == GetClassDecorator(c.decorators[i], tab)
  {
    DecoratorsAt(CommentLines(c.comment, tab), c.decorators, ClassDeclaration(c, tab) + " {",
                 ClassBodyLines(c.properties, c.methods, tab + 1), BlockCloseLine(tab), tab);
  }

  lemma DecoratorsAt(cl: seq<string>, ds: seq<string>, o: string, body: seq<string>, close: string, tab: int)
    ensures var lines := cl + DecoratorLines(ds, tab) + [o] + body + [close];
      && |lines| > |cl| + |ds|
      && forall i :: 0 <= i < |ds| ==> lines[|cl| + i] == GetClassDecorator(ds[i], tab)
  {
    var dl := DecoratorLines(ds, tab);
    var lines := cl + dl + [o] + body + [close];
    forall i | 0 <= i < |ds|
      ensures lines[|cl| + i] == GetClassDecorator(ds[i], tab)
    {
      calc {
        lines[|cl| + i];
        (cl + dl + [o] + body)[|cl| + i];
        (cl + dl + [o])[|cl| + i];
        (cl + dl)[|cl| + i];
        dl[i];
      }
    }
  }

  /** The root-level variant has the same block structure, with no decorator lines. */
  lemma LegacyClassLinesShape(c: Class, tab: int)
    requires tab >= 0
    ensures var lines := LegacyClassLines(c, tab);
      var h := |CommentLines(c.comment, tab)|;
      var body := ClassBodyLines(c.properties, c.methods, tab + 1);
      && |lines| == h + |body| + 2
      && lines[h] == LegacyDeclaration(c, tab) + " {"
      && lines[h + 1..|lines| - 1] == body
      && lines[|lines| - 1] == BlockCloseLine(tab)
      && multiset(lines)[BlockCloseLine(tab)] == 1
  {
    CommentLinesHead(c.comment, tab);
    ClassBodyIndented(c.properties, c.methods, tab + 1);
    BlockShape(CommentLines(c.comment, tab), LegacyDeclaration(c, tab),
               ClassBodyLines(c.properties, c.methods, tab + 1), tab);
  }

  /** The `Access` field never reaches the output. */
  lemma AccessIgnored(c: Class, tab: int, a: CGAccess)
    ensures ClassLines(c.(access := a), tab) == ClassLines(c, tab)
    ensures LegacyClassLines(c.(access := a), tab) == LegacyClassLines(c, tab)
  {
  }

  /** A class without members is its comment, its decorators, the declaration with " {" and the closing line. */
  lemma EmptyClass(c: Class, tab: int)
    requires c.properties == [] && c.methods == []
    ensures ClassLines(c, tab)
            == CommentLines(c.comment, tab) + DecoratorLines(c.decorators, tab) + [ClassDeclaration(c, tab) + " {"]
               + [BlockCloseLine(tab)]
  {
    assert ClassBodyLines([], [], tab + 1) == [];
  }

  /**
   * Without decorators and implemented interfaces the root-level variant
   * writes exactly what the src/ class writes.
   */
  lemma LegacyAgreesWithoutInterfaces(c: Class, tab: int)
    requires c.decorators == [] && c.interfaces == []
    ensures LegacyClassLines(c, tab) == ClassLines(c, tab)
  {
    LegacyDeclarationWithoutInterfaces(tab, c.name, c.inheritClassName, c.isExport, c.isExportAsDefault);
    assert DecoratorLines([], tab) == [];
    SameBlock(CommentLines(c.comment, tab), DecoratorLines(c.decorators, tab), ClassDeclaration(c, tab),
              LegacyDeclaration(c, tab), ClassBodyLines(c.properties, c.methods, tab + 1), BlockCloseLine(tab));
  }

  /** Without decorator lines and with the same declaration, both block layouts are the same lines. */
  lemma SameBlock(cl: seq<string>, dl: seq<string>, decl: string, legacy: string, body: seq<string>, close: string)
    requires dl == [] && legacy == decl
    ensures cl + [legacy + " {"] + body + [close] == cl + dl + [decl + " {"] + body + [close]
  {
    assert cl + dl == cl;
  }

  // ---------------------------------------------------------------------------
  // The member regions

  /**
   * A line a property or a method writes at the members' level: it ends in
   * "/", ";", "{" or "}", or it is indented deeper (a body line).
   */
  predicate MemberLine(line: string, tab: int) {
    |line| > 0
    && (line[|line| - 1] in {'/', ';', '{', '}'} || (|line| > |Indent(tab)| && line[|Indent(tab)|] == ' '))
  }

  lemma PropertyLinesMember(p: Property, tab: int)
    ensures forall line :: line in PropertyLines(p, tab) ==> MemberLine(line, tab)
  {
    var decl := PropertyDeclaration(p, tab);
    assert decl[|decl| - 1] == ';';
    if HasContent(p.comment) {
      var line := GetComment(p.comment, tab);
      assert CommentLines(p.comment, tab) == [line];
      assert line[|line| - 1] == (" */")[2];
    }
  }

  lemma MethodLinesMember(m: Method, tab: int)
    requires tab >= 0
    ensures forall line :: line in MethodLines(m, tab) ==> MemberLine(line, tab)
  {
    var decl := MethodDeclaration(m, tab);
    var open := decl + " {";
    assert open[|open| - 1] == '{';
    var close := BlockCloseLine(tab);
    assert close[|close| - 1] == '}';
    if HasContent(m.comment) {
      var line := GetComment(m.comment, tab);
      assert CommentLines(m.comment, tab) == [line];
      assert line[|line| - 1] == (" */")[2];
    }
    var k := |Indent(tab)|;
    forall line | line in BodyLines(m.bodyCodes, tab + 1)
      ensures MemberLine(line, tab)
    {
      var i :| 0 <= i < |m.bodyCodes| && BodyLines(m.bodyCodes, tab + 1)[i] == line;
      assert line == Indent(tab + 1) + m.bodyCodes[i];
      assert line[k] == Indent(tab + 1)[k];
    }
  }

  lemma PropertyBlocksMember(ps: seq<Property>, tab: int)
    ensures forall line :: line in PropertyBlocks(ps, tab) ==> MemberLine(line, tab)
  {
    var xss := PropertyLineSeqs(ps, tab);
    forall line | line in Flatten(xss)
      ensures MemberLine(line, tab)
    {
      FlattenMember(xss, line);
      var i :| 0 <= i < |xss| && line in xss[i];
      PropertyLinesMember(ps[i], tab);
    }
  }

  lemma MethodBlocksMember(ms: seq<Method>, tab: int)
    requires tab >= 0
    ensures forall line :: line in MethodBlocks(ms, tab) ==> MemberLine(line, tab)
  {
    var xss := MethodLineSeqs(ms, tab);
    forall line | line in Flatten(xss)
      ensures MemberLine(line, tab)
    {
      FlattenMember(xss, line);
      var i :| 0 <= i < |xss| && line in xss[i];
      MethodLinesMember(ms[i], tab);
    }
  }

  /** The region marker lines are not member lines and are told apart from each other. */
  lemma MarkerLines(tab: int)
    ensures !MemberLine(RegionStartLine("Properties", tab), tab)
    ensures !MemberLine(RegionStartLine("Methods", tab), tab)
    ensures !MemberLine(RegionEndLine(tab), tab)
    ensures RegionStartLine("Properties", tab) != RegionStartLine("Methods", tab)
    ensures RegionStartLine("Properties", tab) != RegionEndLine(tab)
    ensures RegionStartLine("Methods", tab) != RegionEndLine(tab)
  {
    var k := |Indent(tab)|;
    var p := RegionStartLine("Properties", tab);
    var m := RegionStartLine("Methods", tab);
    var e := RegionEndLine(tab);
    assert p[k] == '/' && p[|p| - 1] == 's';
    assert m[k] == '/' && m[|m| - 1] == 's';
    assert e[k] == '/' && e[|e| - 1] == 'n';
    assert |p| == k + 21 && |m| == k + 18 && |e| == k + 13;
  }

  /** The "Properties" region is present exactly when the class has a property. */
  lemma PropertiesRegionPresent(ps: seq<Property>, ms: seq<Method>, tab: int)
    requires tab >= 0
    ensures RegionStartLine("Properties", tab) in ClassBodyLines(ps, ms, tab) <==> ps != []
  {
    var x := RegionStartLine("Properties", tab);
    MarkerLines(tab);
    MethodBlocksMember(ms, tab);
    assert x !in RegionGap(ps, ms);
    assert x !in MethodsRegion(ms, tab);
    if ps != [] {
      assert PropertiesRegion(ps, tab)[0] == x;
    }
  }

  /** The "Methods" region is present exactly when the class has a method. */
  lemma MethodsRegionPresent(ps: seq<Property>, ms: seq<Method>, tab: int)
    requires tab >= 0
    ensures RegionStartLine("Methods", tab) in ClassBodyLines(ps, ms, tab) <==> ms != []
  {
    var x := RegionStartLine("Methods", tab);
    MarkerLines(tab);
    PropertyBlocksMember(ps, tab);
    assert x !in RegionGap(ps, ms);
    assert x !in PropertiesRegion(ps, tab);
    if ms != [] {
      assert MethodsRegion(ms, tab)[0] == x;
    }
  }

  /** A blank line appears inside the braces exactly when the class has both properties and methods. */
  lemma BlankLinePresent(ps: seq<Property>, ms: seq<Method>, tab: int)
    requires tab >= 0
    ensures "" in ClassBodyLines(ps, ms, tab) <==> ps != [] && ms != []
  {
    MarkerLines(tab);
    PropertyBlocksMember(ps, tab);
    MethodBlocksMember(ms, tab);
    assert "" !in PropertiesRegion(ps, tab);
    assert "" !in MethodsRegion(ms, tab);
    InThree("", PropertiesRegion(ps, tab), RegionGap(ps, ms), MethodsRegion(ms, tab));
  }

  lemma InThree(x: string, a: seq<string>, g: seq<string>, b: seq<string>)
    ensures x in a + g + b <==> x in a || x in g || x in b
  {
  }

  /**
   * The properties region wraps every property's lines in the order they were
   * added and comes first; the methods region wraps the methods and comes last.
   */
  lemma RegionsInOrder(ps: seq<Property>, ms: seq<Method>, tab: int)
    ensures var body := ClassBodyLines(ps, ms, tab);
      var pb := PropertyBlocks(ps, tab);
      var mb := MethodBlocks(ms, tab);
      && (ps != [] ==> body[..|pb| + 2] == [RegionStartLine("Properties", tab)] + pb + [RegionEndLine(tab)])
      && (ms != [] ==> body[|body| - |mb| - 2..] == [RegionStartLine("Methods", tab)] + mb + [RegionEndLine(tab)])
  {
    var pr := PropertiesRegion(ps, tab);
    var mr := MethodsRegion(ms, tab);
    EndsKept(ClassBodyLines(ps, ms, tab), pr, RegionGap(ps, ms), mr);
  }

  /** The first and the last operand of a concatenation are its prefix and its suffix. */
  lemma EndsKept(body: seq<string>, a: seq<string>, g: seq<string>, b: seq<string>)
    requires body == a + g + b
    ensures |a| + |b| <= |body| && body[..|a|] == a && body[|body| - |b|..] == b
  {
    assert body == a + (g + b);
    assert body == (a + g) + b;
  }

  // ---------------------------------------------------------------------------
  // Writing a class

  /** The `mClassDecorators.forEach` loop. */
  method WriteDecorators(writer: StringBuilder, ds: seq<string>, tab: int)
    modifies writer
    ensures writer.ToString() == old(writer.ToString()) + Unlines(DecoratorLines(ds, tab))
  {
    var start := writer.ToString();
    for i := 0 to |ds|
      invariant writer.ToString() == start + Unlines(DecoratorLines(ds[..i], tab))
    {
      var line := GetClassDecorator(ds[i], tab);
      var _ := writer.AppendLine(line);
      LineAppended(start, DecoratorLines(ds[..i], tab), line);
      assert DecoratorLines(ds[..i + 1], tab) == DecoratorLines(ds[..i], tab) + [line];
    }
    assert ds[..|ds|] == ds;
  }

  /** `if (properties.length > 0) { ... }`: the properties region and, when methods follow, the blank line. */
  method WritePropertiesRegion(writer: StringBuilder, ps: seq<CGProperty>, hasMethods: bool, tab: int)
    modifies writer
    ensures writer.ToString()
            == old(writer.ToString()) + Unlines(PropertiesRegion(old(PropertyModels(ps)), tab)
                                                + (if |ps| > 0 && hasMethods then [""] else []))
  {
    ghost var pm := PropertyModels(ps);
    ghost var t0 := writer.ToString();
    if |ps| > 0 {
      BeginRegion(writer, "Properties", tab);
      ghost var t1 := writer.ToString();
      assert PropertyModels(ps) == pm;
      WriteProperties(writer, ps, tab);
      ghost var t2 := writer.ToString();
      EndRegion(writer, tab);
      BlockClosed(t0, [RegionStartLine("Properties", tab)], PropertyBlocks(pm, tab), RegionEndLine(tab),
                  t1, t2, writer.ToString());
      ghost var region := [RegionStartLine("Properties", tab)] + PropertyBlocks(pm, tab) + [RegionEndLine(tab)];
      if hasMethods {
        var _ := writer.AppendLine();
        LineAppended(t0, region, "");
      } else {
        assert region + [] == region;
      }
    } else {
      assert t0 + Unlines([]) == t0;
    }
  }

  /** `if (methods.length > 0) { ... }`: the methods region. */
  method WriteMethodsRegion(writer: StringBuilder, ms: seq<CGMethod>, tab: int)
    modifies writer
    ensures writer.ToString() == old(writer.ToString()) + Unlines(MethodsRegion(old(MethodModels(ms)), tab))
  {
    ghost var mm := MethodModels(ms);
    ghost var t0 := writer.ToString();
    if |ms| > 0 {
      BeginRegion(writer, "Methods", tab);
      ghost var t1 := writer.ToString();
      assert MethodModels(ms) == mm;
      WriteMethods(writer, ms, tab);
      ghost var t2 := writer.ToString();
      EndRegion(writer, tab);
      BlockClosed(t0, [RegionStartLine("Methods", tab)], MethodBlocks(mm, tab), RegionEndLine(tab),
                  t1, t2, writer.ToString());
    } else {
      assert t0 + Unlines([]) == t0;
    }
  }

  /** Everything between a class's braces. */
  method WriteClassBody(writer: StringBuilder, ps: seq<CGProperty>, ms: seq<CGMethod>, tab: int)
    modifies writer
    ensures writer.ToString()
            == old(writer.ToString()) + Unlines(ClassBodyLines(old(PropertyModels(ps)), old(MethodModels(ms)), tab))
  {
    ghost var pm := PropertyModels(ps);
    ghost var mm := MethodModels(ms);
    ghost var t0 := writer.ToString();
    WritePropertiesRegion(writer, ps, |ms| > 0, tab);
    ghost var t1 := writer.ToString();
    assert MethodModels(ms) == mm;
    WriteMethodsRegion(writer, ms, tab);
    assert RegionGap(pm, mm) == if |ps| > 0 && |ms| > 0 then [""] else [];
    LinesAppended(t0, PropertiesRegion(pm, tab) + RegionGap(pm, mm), MethodsRegion(mm, tab));
  }

  class CGClass {
    var comment: string
    var access: CGAccess
    var name: string
    var inheritClassName: string
    var isExport: bool
    var isExportAsDefault: bool
    var decorators: seq<string>
    var interfaces: seq<string>
    /** The member objects, shared with the caller as in the source. */
    var properties: seq<CGProperty>
    var methods: seq<CGMethod>

    /** The field initialisers: public, unnamed, no base class, not exported, no members. */
    constructor ()
      ensures Model() == Class("", Public, "", "", false, false, [], [], [], [])
      ensures properties == [] && methods == []
    {
      comment := "";
      access := Public;
      name := "";
      inheritClassName := "";
      isExport := false;
      isExportAsDefault := false;
      decorators := [];
      interfaces := [];
      properties := [];
      methods := [];
    }

    function Model(): Class
      reads this, properties, methods, ParameterFootprint(methods)
    {
      Class(comment, access, name, inheritClassName, isExport, isExportAsDefault, decorators, interfaces,
            PropertyModels(properties), MethodModels(methods))
    }

    /** `AddDecorator`: the decorator goes to the end of the list. */
    method AddDecorator(decorator: string)
      modifies this
      ensures properties == old(properties) && methods == old(methods)
      ensures Model() == old(Model()).(decorators := old(decorators) + [decorator])
    {
      decorators := decorators + [decorator];
    }

    /** `AddImplementInterface`: the interface name goes to the end of the list. */
    method AddImplementInterface(implInterface: string)
      modifies this
      ensures properties == old(properties) && methods == old(methods)
      ensures Model() == old(Model()).(interfaces := old(interfaces) + [implInterface])
    {
      interfaces := interfaces + [implInterface];
    }

    /** `AddProperty`: the property goes to the end of the list. */
    method AddProperty(property: CGProperty)
      modifies this
      ensures properties == old(properties) + [property] && methods == old(methods)
      ensures Model() == old(Model()).(properties := old(Model()).properties + [property.Model()])
    {
      properties := properties + [property];
    }

    /** `AddMethod`: the method goes to the end of the list. */
    method AddMethod(method_: CGMethod)
      modifies this
      ensures methods == old(methods) + [method_] && properties == old(properties)
      ensures Model() == old(Model()).(methods := old(Model()).methods + [method_.Model()])
    {
      methods := methods + [method_];
    }

    /** `WriteTo`: appends the class's lines, each with a newline. */
    method WriteTo(writer: StringBuilder, tab: int)
      modifies writer
      ensures writer.ToString() == old(writer.ToString()) + Unlines(ClassLines(old(Model()), tab))
    {
      var decl := GetClassDeclaration(tab, name, inheritClassName, interfaces, isExport, isExportAsDefault);
      WriteClassBlock(writer, comment, decorators, decl, properties, methods, tab);
    }
  }

  /** The root-level CGClass.ts: no decorators, the root-level declaration and a `Properties` getter. */
  class LegacyCGClass {
    var comment: string
    var access: CGAccess
    var name: string
    var inheritClassName: string
    var isExport: bool
    var isExportAsDefault: bool
    var interfaces: seq<string>
    var properties: seq<CGProperty>
    var methods: seq<CGMethod>

    constructor ()
      ensures Model() == Class("", Public, "", "", false, false, [], [], [], [])
      ensures properties == [] && methods == []
    {
      comment := "";
      access := Public;
      name := "";
      inheritClassName := "";
      isExport := false;
      isExportAsDefault := false;
      interfaces := [];
      properties := [];
      methods := [];
    }

    function Model(): Class
      reads this, properties, methods, ParameterFootprint(methods)
    {
      Class(comment, access, name, inheritClassName, isExport, isExportAsDefault, [], interfaces,
            PropertyModels(properties), MethodModels(methods))
    }

    /** The `Properties` getter: the property objects in the order they were added. */
    function Properties(): (r: seq<CGProperty>)
      reads this, properties, methods, ParameterFootprint(methods)
      ensures PropertyModels(r) == Model().properties
    {
      properties
    }

    method AddImplementInterface(implInterface: string)
      modifies this
      ensures properties == old(properties) && methods == old(methods)
      ensures Model() == old(Model()).(interfaces := old(interfaces) + [implInterface])
    {
      interfaces := interfaces + [implInterface];
    }

    method AddProperty(property: CGProperty)
      modifies this
      ensures properties == old(properties) + [property] && methods == old(methods)
      ensures Model() == old(Model()).(properties := old(Model()).properties + [property.Model()])
    {
      properties := properties + [property];
    }

    method AddMethod(method_: CGMethod)
      modifies this
      ensures methods == old(methods) + [method_] && properties == old(properties)
      ensures Model() == old(Model()).(methods := old(Model()).methods + [method_.Model()])
    {
      methods := methods + [method_];
    }

    /** `WriteTo`: appends the class's lines, each with a newline. */
    method WriteTo(writer: StringBuilder, tab: int)
      modifies writer
      ensures writer.ToString() == old(writer.ToString()) + Unlines(LegacyClassLines(old(Model()), tab))
    {
      var decl := LegacyClassDeclaration(tab, name, inheritClassName, interfaces, isExport, isExportAsDefault);
      WriteLegacyClassBlock(writer, comment, decl, properties, methods, tab);
    }
  }

  /**
   * The steps of `CGClass.WriteTo`: the comment, the decorators, the
   * declaration, " {", the member regions and the closing line.
   */
  method WriteClassBlock(writer: StringBuilder, comment: string, decorators: seq<string>, decl: string,
                         ps: seq<CGProperty>, ms: seq<CGMethod>, tab: int)
    modifies writer
    ensures writer.ToString()
            == old(writer.ToString())
               + Unlines(CommentLines(comment, tab) + DecoratorLines(decorators, tab) + [decl + " {"]
                         + ClassBodyLines(old(PropertyModels(ps)), old(MethodModels(ms)), tab + 1) + [BlockCloseLine(tab)])
  {
    ghost var t0 := writer.ToString();
    label head:
    WriteClassHead(writer, comment, decorators, decl, tab);
    PropertyModelsUnchanged@head(ps);
    MethodModelsUnchanged@head(ms);
    ghost var t1 := writer.ToString();
    WriteClassTail(writer, ps, ms, tab);
    BlockJoined(t0, CommentLines(comment, tab) + DecoratorLines(decorators, tab) + [decl + " {"],
                ClassBodyLines(old(PropertyModels(ps)), old(MethodModels(ms)), tab + 1), BlockCloseLine(tab),
                t1, writer.ToString());
  }

  /** The class body one level deeper, and the line closing the block. */
  method WriteClassTail(writer: StringBuilder, ps: seq<CGProperty>, ms: seq<CGMethod>, tab: int)
    modifies writer
    ensures writer.ToString()
            == old(writer.ToString())
               + Unlines(ClassBodyLines(old(PropertyModels(ps)), old(MethodModels(ms)), tab + 1) + [BlockCloseLine(tab)])
  {
    ghost var t0 := writer.ToString();
    WriteClassBody(writer, ps, ms, tab + 1);
    ghost var body := ClassBodyLines(old(PropertyModels(ps)), old(MethodModels(ms)), tab + 1);
    EndCodeBlock(writer, tab);
    LinesAppended(t0, body, [BlockCloseLine(tab)]);
  }

  /** The comment, the decorators and the declaration opening the block. */
  method WriteClassHead(writer: StringBuilder, comment: string, decorators: seq<string>, decl: string, tab: int)
    modifies writer
    ensures writer.ToString()
            == old(writer.ToString()) + Unlines(CommentLines(comment, tab) + DecoratorLines(decorators, tab) + [decl + " {"])
  {
    ghost var t0 := writer.ToString();
    WriteComment(writer, comment, tab);
    WriteDecorators(writer, decorators, tab);
    ghost var t1 := writer.ToString();
    LinesAppended(t0, CommentLines(comment, tab), DecoratorLines(decorators, tab));
    var _ := writer.Append(decl);
    BeginCodeBlock(writer);
    OpenLine(t0, CommentLines(comment, tab) + DecoratorLines(decorators, tab), decl, t1, writer.ToString());
  }

  /** The steps of `LegacyCGClass.WriteTo`: as above, without decorators. */
  method WriteLegacyClassBlock(writer: StringBuilder, comment: string, decl: string,
                               ps: seq<CGProperty>, ms: seq<CGMethod>, tab: int)
    modifies writer
    ensures writer.ToString()
            == old(writer.ToString())
               + Unlines(CommentLines(comment, tab) + [decl + " {"]
                         + ClassBodyLines(old(PropertyModels(ps)), old(MethodModels(ms)), tab + 1) + [BlockCloseLine(tab)])
  {
    ghost var t0 := writer.ToString();
    label head:
    OpenBlock(writer, comment, decl, tab);
    PropertyModelsUnchanged@head(ps);
    MethodModelsUnchanged@head(ms);
    ghost var t1 := writer.ToString();
    WriteClassTail(writer, ps, ms, tab);
    BlockJoined(t0, CommentLines(comment, tab) + [decl + " {"],
                ClassBodyLines(old(PropertyModels(ps)), old(MethodModels(ms)), tab + 1), BlockCloseLine(tab),
                t1, writer.ToString());
  }
}
