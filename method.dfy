/** A method of a generated class (src/CGMethod.ts). */
module Methods {
  import opened Strings
  import opened Buffer
  import opened CGHelper
  import opened Access
  import opened Parameters

  datatype Method = Method(comment: string, access: CGAccess, isStatic: bool, isReadonly: bool,
                           returnType: string, name: string, parameters: seq<Parameter>,
                           bodyCodes: seq<string>)

  /** `parameters.map(p => p.toString())`. */
  function ParameterTexts(ps: seq<Parameter>): (r: seq<string>)
    ensures |r| == |ps|
    ensures forall i :: 0 <= i < |ps| ==> r[i] == ParameterText(ps[i])
  {
    seq(|ps|, i requires 0 <= i < |ps| => ParameterText(ps[i]))
  }

  /** The declared return type: an empty one falls back to "void". */
  function ReturnType(returnType: string): (t: string)
    ensures t != ""
    ensures returnType != "" ==> t == returnType
  {
    if returnType != "" then returnType else "void"
  }

  function MethodDeclaration(m: Method, tab: int): string {
    GetMethodDeclaration(tab, m.access.Text(), ReturnType(m.returnType), m.name, m.isStatic,
                         ParameterTexts(m.parameters), m.isReadonly)
  }

  /** The body: every code line verbatim, in order, after the given indentation. */
  function BodyLines(codes: seq<string>, tab: int): (r: seq<string>)
    ensures |r| == |codes|
    ensures forall i :: 0 <= i < |codes| ==> r[i] == Indent(tab) + codes[i]
  {
    seq(|codes|, i requires 0 <= i < |codes| => Indent(tab) + codes[i])
  }

  /**
   * The lines `writeTo` appends: the comment line when there is one, the
   * declaration opening the block, the body one level deeper, and the line
   * closing the block.
   */
  function MethodLines(m: Method, tab: int): seq<string> {
    CommentLines(m.comment, tab) + [MethodDeclaration(m, tab) + " {"] + BodyLines(m.bodyCodes, tab + 1)
    + [BlockCloseLine(tab)]
  }

  /**
   * Below level 0 the single close is lost: at level -1 the body is written at
   * level 0, which has no indentation either, so a body code "}" gives a line
   * equal to the closing line, and the closing line occurs twice.
   */
  lemma NegativeLevelClosesTwice(m: Method)
    requires m.bodyCodes == ["}"]
    ensures MethodLines(m, -1)[|MethodLines(m, -1)| - 2] == BlockCloseLine(-1)
    ensures multiset(MethodLines(m, -1))[BlockCloseLine(-1)] == 2
  {
    var c := CommentLines(m.comment, -1);
    var open := MethodDeclaration(m, -1) + " {";
    var close := BlockCloseLine(-1);
    assert close == "}";
    assert BodyLines(m.bodyCodes, 0) == [close];
    CommentLinesHead(m.comment, -1);
    assert close !in c;
    assert open != close by {
      assert |open| >= 2;
    }
    assert MethodLines(m, -1) == c + [open] + [close] + [close];
    assert multiset(c)[close] == 0;
  }

  /**
   * A method's output: the declaration with its parameter list opens the block,
   * each code line follows in order one level deeper, and the block is closed
   * once, on the last line, at the method's own indentation.
   */
  lemma MethodLinesShape(m: Method, tab: int)
    requires tab >= 0
    ensures var lines := MethodLines(m, tab);
      var h := if HasContent(m.comment) then 1 else 0;
      && |lines| == h + |m.bodyCodes| + 2
      && StartsWith(lines[h], Indent(tab) + m.access.Text() + (if m.isStatic then " static" else "")
                              + (if m.isReadonly then " get" else "") + " " + m.name + "("
                              + Join(ParameterTexts(m.parameters), ", ") + "):")
      && EndsWith(lines[h], "): " + ReturnType(m.returnType) + " {")
      && (forall i :: 0 <= i < |m.bodyCodes| ==> lines[h + 1 + i] == Indent(tab + 1) + m.bodyCodes[i])
      && lines[|lines| - 1] == BlockCloseLine(tab)
      && multiset(lines)[BlockCloseLine(tab)] == 1
  {
    var c := CommentLines(m.comment, tab);
    var decl := MethodDeclaration(m, tab);
    var body := BodyLines(m.bodyCodes, tab + 1);
    var close := BlockCloseLine(tab);
    BlockLayout(c, decl + " {", body, close);
    MethodOpenLine(m, tab);
    BodyLinesIndented(m.bodyCodes, tab + 1);
    CommentLinesHead(m.comment, tab);
    ClosesOnce(c, decl, body, tab);
    OccursOnceAtEnd(c + [decl + " {"] + body, close);
  }

  /** The line that opens a method's block starts with the declaration head and ends with the return type and " {". */
  lemma MethodOpenLine(m: Method, tab: int)
    ensures var open := MethodDeclaration(m, tab) + " {";
      && StartsWith(open, Indent(tab) + m.access.Text() + (if m.isStatic then " static" else "")
                          + (if m.isReadonly then " get" else "") + " " + m.name + "("
                          + Join(ParameterTexts(m.parameters), ", ") + "):")
      && EndsWith(open, "): " + ReturnType(m.returnType) + " {")
  {
    var decl := MethodDeclaration(m, tab);
    var pre := Indent(tab) + m.access.Text() + (if m.isStatic then " static" else "")
               + (if m.isReadonly then " get" else "") + " " + m.name + "("
               + Join(ParameterTexts(m.parameters), ", ") + "):";
    var suf := "): " + ReturnType(m.returnType);
    assert StartsWith(decl, pre) && EndsWith(decl, suf) by {
      MethodDeclarationShape(tab, m.access.Text(), ReturnType(m.returnType), m.name, m.isStatic,
                             ParameterTexts(m.parameters), m.isReadonly);
      assert ReturnType(m.returnType) != "";
    }
    StartsWithExtended(decl, pre, " {");
    EndsWithExtended(decl, suf, " {");
  }

  /** The CGParameter objects' current values. */
  function ParameterModels(ps: seq<CGParameter>): (r: seq<Parameter>)
    reads ps
    ensures |r| == |ps|
    ensures forall i :: 0 <= i < |ps| ==> r[i] == ps[i].Model()
  {
    seq(|ps|, i reads ps requires 0 <= i < |ps| => ps[i].Model())
  }

  /** The values of parameter objects whose fields were left alone are as they were. */
  twostate lemma ParameterModelsUnchanged(ps: seq<CGParameter>)
    requires unchanged(ps)
    ensures ParameterModels(ps) == old(ParameterModels(ps))
  {
    forall i | 0 <= i < |ps|
      ensures ParameterModels(ps)[i] == old(ParameterModels(ps))[i]
    {
      assert old(ParameterModels(ps))[i] == old(ps[i].Model());
    }
  }

  class CGMethod {
    var comment: string
    var access: CGAccess
    var isStatic: bool
    var isReadonly: bool
    var returnType: string
    var name: string
    /** The parameter objects, shared with the caller as in the source. */
    var parameters: seq<CGParameter>
    var bodyCodes: seq<string>

    /** The field initialisers: a public, non-static "void" method with no parameters and no body. */
    constructor ()
      ensures Model() == Method("", Public, false, false, "void", "", [], [])
      ensures parameters == []
    {
      comment := "";
      access := Public;
      isStatic := false;
      isReadonly := false;
      returnType := "void";
      name := "";
      parameters := [];
      bodyCodes := [];
    }

    function Model(): Method
      reads this, parameters
    {
      Method(comment, access, isStatic, isReadonly, returnType, name, ParameterModels(parameters), bodyCodes)
    }

    /** `appendCodes`: the code lines go to the end of the body, in order. */
    method AppendCodes(codes: seq<string>)
      modifies this
      ensures parameters == old(parameters)
      ensures Model() == old(Model()).(bodyCodes := old(bodyCodes) + codes)
    {
      bodyCodes := bodyCodes + codes;
    }

    /** `addParameters`: the parameters go to the end of the list, in order. */
    method AddParameters(ps: seq<CGParameter>)
      modifies this
      ensures parameters == old(parameters) + ps
      ensures Model() == old(Model()).(parameters := old(Model()).parameters + ParameterModels(ps))
    {
      parameters := parameters + ps;
    }

    /** `writeTo`: appends the method's lines, each with a newline. */
    method WriteTo(writer: StringBuilder, tab: int)
      modifies writer
      ensures writer.ToString() == old(writer.ToString()) + Unlines(MethodLines(old(Model()), tab))
    {
      ghost var m := Model();
      ghost var t0 := writer.ToString();
      var texts := ParameterStrings(parameters);
      var t := if returnType != "" then returnType else "void";
      var decl := GetMethodDeclaration(tab, access.Text(), t, name, isStatic, texts, isReadonly);
      assert decl == MethodDeclaration(m, tab);
      OpenBlock(writer, comment, decl, tab);
      ghost var open := CommentLines(comment, tab) + [decl + " {"];
      ghost var t2 := writer.ToString();
      WriteBody(writer, bodyCodes, tab + 1);
      ghost var t3 := writer.ToString();
      EndCodeBlock(writer, tab);
      BlockClosed(t0, open, BodyLines(bodyCodes, tab + 1), BlockCloseLine(tab), t2, t3, writer.ToString());
    }
  }

  /** `parameters.map(p => p.toString())`, one `ToString` call per parameter, in order. */
  method ParameterStrings(ps: seq<CGParameter>) returns (texts: seq<string>)
    ensures texts == ParameterTexts(ParameterModels(ps))
  {
    texts := [];
    for i := 0 to |ps|
      invariant |texts| == i
      invariant forall k :: 0 <= k < i ==> texts[k] == ParameterText(ps[k].Model())
    {
      var s := ps[i].ToString();
      texts := texts + [s];
    }
  }

  /** The `bodyCodes.forEach` loop: one indented line per code line. */
  method WriteBody(writer: StringBuilder, codes: seq<string>, tab: int)
    modifies writer
    ensures writer.ToString() == old(writer.ToString()) + Unlines(BodyLines(codes, tab))
  {
    var start := writer.ToString();
    for i := 0 to |codes|
      invariant writer.ToString() == start + Unlines(BodyLines(codes[..i], tab))
    {
      var indent := Tab(tab);
      var line := indent + codes[i];
      var _ := writer.AppendLine(line);
      LineAppended(start, BodyLines(codes[..i], tab), line);
      BodyLinesSnoc(codes, i, tab);
    }
    assert codes[..|codes|] == codes;
  }

  lemma BodyLinesIndented(codes: seq<string>, tab: int)
    ensures forall line :: line in BodyLines(codes, tab) ==> line == "" || StartsWith(line, Indent(tab))
  {
    var r := BodyLines(codes, tab);
    forall line | line in r
      ensures StartsWith(line, Indent(tab))
    {
      var i :| 0 <= i < |r| && r[i] == line;
      assert line == Indent(tab) + codes[i];
    }
  }

  lemma BodyLinesSnoc(codes: seq<string>, i: nat, tab: int)
    requires i < |codes|
    ensures BodyLines(codes[..i + 1], tab) == BodyLines(codes[..i], tab) + [Indent(tab) + codes[i]]
  {
  }

  /** `MethodLines` at a fixed indentation, as a function value. */
  function MethodLinesOf(tab: int): Method -> seq<string> {
    m => MethodLines(m, tab)
  }

  function MethodLineSeqs(ms: seq<Method>, tab: int): (r: seq<seq<string>>)
    ensures |r| == |ms|
    ensures forall i :: 0 <= i < |ms| ==> r[i] == MethodLines(ms[i], tab)
  {
    MapSeq(MethodLinesOf(tab), ms)
  }

  /** The methods' lines one after another, in list order. */
  function MethodBlocks(ms: seq<Method>, tab: int): seq<string> {
    Flatten(MethodLineSeqs(ms, tab))
  }

  lemma MethodBlocksSnoc(ms: seq<Method>, i: nat, tab: int)
    requires i < |ms|
    ensures MethodBlocks(ms[..i + 1], tab) == MethodBlocks(ms[..i], tab) + MethodLines(ms[i], tab)
  {
    MapSlices(MethodLinesOf(tab), ms, i);
    FlattenSnoc(MethodLineSeqs(ms[..i], tab), MethodLines(ms[i], tab));
  }

  /** The i-th method's lines sit after those of the methods before it and ahead of the rest. */
  lemma MethodBlocksAt(ms: seq<Method>, i: nat, tab: int)
    requires i < |ms|
    ensures MethodBlocks(ms, tab)
            == MethodBlocks(ms[..i], tab) + MethodLines(ms[i], tab) + MethodBlocks(ms[i + 1..], tab)
  {
    FlattenAt(MethodLineSeqs(ms, tab), i);
    MapSlices(MethodLinesOf(tab), ms, i);
  }

  /** Every line of a run of methods is indented at least to the given level. */
  lemma MethodBlocksIndented(ms: seq<Method>, tab: int)
    requires tab >= 0
    ensures forall line :: line in MethodBlocks(ms, tab) ==> StartsWith(line, Indent(tab))
  {
    var xss := MethodLineSeqs(ms, tab);
    forall line | line in Flatten(xss)
      ensures StartsWith(line, Indent(tab))
    {
      FlattenMember(xss, line);
      var i :| 0 <= i < |xss| && line in xss[i];
      MethodLinesIndented(ms[i], tab);
    }
  }

  /** Every line of one method is indented to its level or is an empty body line. */
  lemma MethodLinesIndented(m: Method, tab: int)
    requires tab >= 0
    ensures forall line :: line in MethodLines(m, tab) ==> StartsWith(line, Indent(tab))
  {
    var c := CommentLines(m.comment, tab);
    var decl := MethodDeclaration(m, tab);
    var body := BodyLines(m.bodyCodes, tab + 1);
    IndentPrefix(tab, tab + 1);
    BodyLinesIndented(m.bodyCodes, tab + 1);
    assert StartsWith(decl + " {", Indent(tab)) by {
      StartsWithExtended(decl, Indent(tab), " {");
    }
    forall line | line in MethodLines(m, tab)
      ensures StartsWith(line, Indent(tab))
    {
      if line in c {
        assert StartsWith(line, Indent(tab) + "/** ");
      } else if line in body {
        assert StartsWith(line, Indent(tab + 1));
      }
    }
  }

  /** The parameter objects the given methods hold. */
  ghost function ParameterFootprint(ms: seq<CGMethod>): set<CGParameter>
    reads ms
  {
    set m, p | m in ms && p in m.parameters :: p
  }

  /** The CGMethod objects' current values. */
  function MethodModels(ms: seq<CGMethod>): (r: seq<Method>)
    reads ms, ParameterFootprint(ms)
    ensures |r| == |ms|
    ensures forall i :: 0 <= i < |ms| ==> r[i] == ms[i].Model()
  {
    seq(|ms|, i reads ms, ParameterFootprint(ms) requires 0 <= i < |ms| =>
          assert forall p :: p in ms[i].parameters ==> p in ParameterFootprint(ms);
          ms[i].Model())
  }

  /** The values of method objects whose fields, and whose parameters' fields, were left alone are as they were. */
  twostate lemma MethodModelsUnchanged(ms: seq<CGMethod>)
    requires unchanged(ms) && unchanged(old(ParameterFootprint(ms)))
    ensures MethodModels(ms) == old(MethodModels(ms))
  {
    forall i | 0 <= i < |ms|
      ensures MethodModels(ms)[i] == old(MethodModels(ms))[i]
    {
      var m := ms[i];
      assert old(MethodModels(ms))[i] == old(m.Model());
      assert m.parameters == old(m.parameters);
      assert forall p :: p in m.parameters ==> p in old(ParameterFootprint(ms));
      ParameterModelsUnchanged(m.parameters);
    }
  }

  /** Writes the method at index `i`, which leaves every method's value as it was. */
  method WriteMethodAt(writer: StringBuilder, ms: seq<CGMethod>, i: nat, ghost models: seq<Method>, tab: int)
    requires i < |ms| && MethodModels(ms) == models
    modifies writer
    ensures MethodModels(ms) == models
    ensures writer.ToString() == old(writer.ToString()) + Unlines(MethodLines(models[i], tab))
  {
    ms[i].WriteTo(writer, tab);
    MethodModelsUnchanged(ms);
  }

  /** The `for (const m of methods) m.WriteTo(writer, tab)` loop of a class. */
  method WriteMethods(writer: StringBuilder, ms: seq<CGMethod>, tab: int)
    modifies writer
    ensures MethodModels(ms) == old(MethodModels(ms))
    ensures writer.ToString() == old(writer.ToString()) + Unlines(MethodBlocks(old(MethodModels(ms)), tab))
  {
    ghost var models := MethodModels(ms);
    var start := writer.ToString();
    for i := 0 to |ms|
      invariant MethodModels(ms) == models
      invariant writer.ToString() == start + Unlines(MethodBlocks(models[..i], tab))
    {
      WriteMethodAt(writer, ms, i, models, tab);
      LinesAppended(start, MethodBlocks(models[..i], tab), MethodLines(models[i], tab));
      MethodBlocksSnoc(models, i, tab);
    }
    assert models[..|ms|] == models;
  }
}
