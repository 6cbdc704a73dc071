/** A property of a generated class or interface (src/CGProperty.ts). */
module Properties {
  import opened Strings
  import opened Buffer
  import opened CGHelper
  import opened Access

  datatype Property = Property(comment: string, access: CGAccess, isStatic: bool, typeName: string,
                               name: string, defaultValue: string)

  /** The type a property is declared with: an empty type string falls back to "any". */
  function EffectiveType(typeName: string): (t: string)
    ensures t != ""
    ensures typeName != "" ==> t == typeName
  {
    if typeName != "" then typeName else "any"
  }

  function PropertyDeclaration(p: Property, tab: int): string {
    GetPropertyDeclaration(tab, p.access.Text(), EffectiveType(p.typeName), p.name, p.defaultValue, p.isStatic)
  }

  /** The lines `writeTo` appends: the comment line when there is one, then the declaration. */
  function PropertyLines(p: Property, tab: int): seq<string> {
    CommentLines(p.comment, tab) + [PropertyDeclaration(p, tab)]
  }

  /** What a property's output looks like, line by line. */
  lemma PropertyLinesShape(p: Property, tab: int)
    ensures var lines := PropertyLines(p, tab);
      && |lines| == (if HasContent(p.comment) then 2 else 1)
      && (HasContent(p.comment) ==> lines[0] == GetComment(p.comment, tab))
      && lines[|lines| - 1] == PropertyDeclaration(p, tab)
      && (forall line :: line in lines ==> StartsWith(line, Indent(tab)))
  {
    var lines := PropertyLines(p, tab);
    var decl := PropertyDeclaration(p, tab);
    assert StartsWith(decl, Indent(tab) + PropertyAccess(p.access.Text()) + (if p.isStatic then " static " else "")
                            + p.name + ": " + EffectiveType(p.typeName));
    forall line | line in lines
      ensures StartsWith(line, Indent(tab))
    {
      if line == decl {
      } else {
        assert line in CommentLines(p.comment, tab);
        assert StartsWith(line, Indent(tab) + "/** ");
      }
    }
  }

  /** Only a non-public modifier is written, glued to what follows. */
  lemma AccessWritten(a: CGAccess)
    ensures PropertyAccess(a.Text()) == "" <==> a == Public
    ensures a != Public ==> PropertyAccess(a.Text()) == a.Text()
  {
  }

  /** An untyped property is declared exactly as one of type "any". */
  lemma UntypedIsAny(p: Property, tab: int)
    requires p.typeName == ""
    ensures PropertyLines(p, tab) == PropertyLines(p.(typeName := "any"), tab)
  {
  }

  /** A private property: the access text runs into the name. */
  lemma PrivateDeclaration()
    ensures PropertyDeclaration(Property("", Private, false, "string", "testProp", ""), 0) == "privatetestProp: string;"
  {
    assert Indent(0) == "";
    assert PropertyAccess(Private.Text()) == "private";
    assert EffectiveType("string") == "string";
    assert "" + "private" + "" + "testProp" + ": " + "string" + "" + ";" == "privatetestProp: string;";
  }

  class CGProperty {
    var comment: string
    var access: CGAccess
    var isStatic: bool
    var typeName: string
    var name: string
    var defaultValue: string

    /** The field initialisers. */
    constructor ()
      ensures Model() == Property("", Public, false, "any", "", "")
    {
      comment := "";
      access := Public;
      isStatic := false;
      typeName := "any";
      name := "";
      defaultValue := "";
    }

    function Model(): Property
      reads this
    {
      Property(comment, access, isStatic, typeName, name, defaultValue)
    }

    /** `writeTo`: appends the property's lines, each with a newline. */
    method WriteTo(writer: StringBuilder, tab: int)
      modifies writer
      ensures writer.ToString() == old(writer.ToString()) + Unlines(PropertyLines(Model(), tab))
    {
      var start := writer.ToString();
      WriteComment(writer, comment, tab);
      var t := if typeName != "" then typeName else "any";
      var decl := GetPropertyDeclaration(tab, access.Text(), t, name, defaultValue, isStatic);
      var _ := writer.AppendLine(decl);
      ghost var lines := CommentLines(comment, tab);
      LineAppended(start, lines, decl);
      assert PropertyLines(Model(), tab) == lines + [decl];
    }
  }

  /** `PropertyLines` at a fixed indentation, as a function value. */
  function PropertyLinesOf(tab: int): Property -> seq<string> {
    p => PropertyLines(p, tab)
  }

  function PropertyLineSeqs(ps: seq<Property>, tab: int): (r: seq<seq<string>>)
    ensures |r| == |ps|
    ensures forall i :: 0 <= i < |ps| ==> r[i] == PropertyLines(ps[i], tab)
  {
    MapSeq(PropertyLinesOf(tab), ps)
  }

  /** The properties' lines one after another, in list order. */
  function PropertyBlocks(ps: seq<Property>, tab: int): seq<string> {
    Flatten(PropertyLineSeqs(ps, tab))
  }

  lemma PropertyBlocksSnoc(ps: seq<Property>, i: nat, tab: int)
    requires i < |ps|
    ensures PropertyBlocks(ps[..i + 1], tab) == PropertyBlocks(ps[..i], tab) + PropertyLines(ps[i], tab)
  {
    MapSlices(PropertyLinesOf(tab), ps, i);
    FlattenSnoc(PropertyLineSeqs(ps[..i], tab), PropertyLines(ps[i], tab));
  }

  /** The i-th property's lines sit after those of the propertys before it and ahead of the rest. */
  lemma PropertyBlocksAt(ps: seq<Property>, i: nat, tab: int)
    requires i < |ps|
    ensures PropertyBlocks(ps, tab)
            == PropertyBlocks(ps[..i], tab) + PropertyLines(ps[i], tab) + PropertyBlocks(ps[i + 1..], tab)
  {
    FlattenAt(PropertyLineSeqs(ps, tab), i);
    MapSlices(PropertyLinesOf(tab), ps, i);
  }

  /** Every line of a run of propertys is indented at least to the given level. */
  lemma PropertyBlocksIndented(ps: seq<Property>, tab: int)
    ensures forall line :: line in PropertyBlocks(ps, tab) ==> StartsWith(line, Indent(tab))
  {
    var xss := PropertyLineSeqs(ps, tab);
    forall line | line in Flatten(xss)
      ensures StartsWith(line, Indent(tab))
    {
      FlattenMember(xss, line);
      var i :| 0 <= i < |xss| && line in xss[i];
      PropertyLinesShape(ps[i], tab);
    }
  }

  /** The CGProperty objects' current values. */
  function PropertyModels(ps: seq<CGProperty>): (r: seq<Property>)
    reads ps
    ensures |r| == |ps|
    ensures forall i :: 0 <= i < |ps| ==> r[i] == ps[i].Model()
  {
    seq(|ps|, i reads ps requires 0 <= i < |ps| => ps[i].Model())
  }

  /** The values of property objects whose fields were left alone are as they were. */
  twostate lemma PropertyModelsUnchanged(ps: seq<CGProperty>)
    requires unchanged(ps)
    ensures PropertyModels(ps) == old(PropertyModels(ps))
  {
    forall i | 0 <= i < |ps|
      ensures PropertyModels(ps)[i] == old(PropertyModels(ps))[i]
    {
      assert old(PropertyModels(ps))[i] == old(ps[i].Model());
    }
  }

  /** Writes the property at index `i`, which leaves every property's value as it was. */
  method WritePropertyAt(writer: StringBuilder, ps: seq<CGProperty>, i: nat, ghost models: seq<Property>, tab: int)
    requires i < |ps| && PropertyModels(ps) == models
    modifies writer
    ensures PropertyModels(ps) == models
    ensures writer.ToString() == old(writer.ToString()) + Unlines(PropertyLines(models[i], tab))
  {
    ps[i].WriteTo(writer, tab);
    PropertyModelsUnchanged(ps);
  }

  /** The `for (const p of properties) p.WriteTo(writer, tab)` loop shared by interfaces and classes. */
  method WriteProperties(writer: StringBuilder, ps: seq<CGProperty>, tab: int)
    modifies writer
    ensures PropertyModels(ps) == old(PropertyModels(ps))
    ensures writer.ToString() == old(writer.ToString()) + Unlines(PropertyBlocks(old(PropertyModels(ps)), tab))
  {
    ghost var models := PropertyModels(ps);
    var start := writer.ToString();
    for i := 0 to |ps|
      invariant PropertyModels(ps) == models
      invariant writer.ToString() == start + Unlines(PropertyBlocks(models[..i], tab))
    {
      WritePropertyAt(writer, ps, i, models, tab);
      LinesAppended(start, PropertyBlocks(models[..i], tab), PropertyLines(models[i], tab));
      PropertyBlocksSnoc(models, i, tab);
    }
    assert models[..|ps|] == models;
  }
}
