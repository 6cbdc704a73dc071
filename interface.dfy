/**
 * A generated interface (src/CGInterface.ts, the bundled copy in src/index.ts
 * and the root-level CGInterface.ts).
 */
module Interfaces {
  import opened Strings
  import opened Buffer
  import opened CGHelper
  import opened Properties

  /**
   * `isExportAsDefault` is the src/CGInterface.ts field; the declaration helper
   * takes no such argument, so it never reaches the output.
   */
  datatype Interface = Interface(comment: string, name: string, isExport: bool, isExportAsDefault: bool,
                                 properties: seq<Property>)

  function InterfaceDeclaration(i: Interface, tab: int): string {
    GetInterfaceDeclaration(tab, i.name, i.isExport)
  }

  /**
   * The lines `WriteTo` appends: the comment line when there is one, the
   * declaration opening the block, every property one level deeper, and the
   * line closing the block. There are no region markers.
   */
  function InterfaceLines(i: Interface, tab: int): seq<string> {
    CommentLines(i.comment, tab) + [InterfaceDeclaration(i, tab) + " {"] + PropertyBlocks(i.properties, tab + 1)
    + [BlockCloseLine(tab)]
  }

  /**
   * An interface's output: the declaration opens the block, the property lines
   * fill it, and the block is closed once, on the last line.
   */
  lemma InterfaceLinesShape(i: Interface, tab: int)
    requires tab >= 0
    ensures var lines := InterfaceLines(i, tab);
      var h := if HasContent(i.comment) then 1 else 0;
      var body := PropertyBlocks(i.properties, tab + 1);
      && |lines| == h + |body| + 2
      && (h == 1 ==> lines[0] == GetComment(i.comment, tab))
      && lines[h] == InterfaceDeclaration(i, tab) + " {"
      && lines[h + 1..|lines| - 1] == body
      && lines[|lines| - 1] == BlockCloseLine(tab)
      && multiset(lines)[BlockCloseLine(tab)] == 1
  {
    var c := CommentLines(i.comment, tab);
    var decl := InterfaceDeclaration(i, tab);
    var body := PropertyBlocks(i.properties, tab + 1);
    var close := BlockCloseLine(tab);
    BlockLayout(c, decl + " {", body, close);
    var lines := c + [decl + " {"] + body + [close];
    assert lines[|c| + 1..|lines| - 1] == body;
    PropertyBlocksIndented(i.properties, tab + 1);
    CommentLinesHead(i.comment, tab);
    ClosesOnce(c, decl, body, tab);
    OccursOnceAtEnd(c + [decl + " {"] + body, close);
  }

  /** "export " starts the declaration exactly when the interface is exported, and "export default " never does. */
  lemma InterfaceExport(i: Interface, tab: int)
    ensures var decl := InterfaceDeclaration(i, tab);
      && (i.isExport <==> StartsWith(decl, Indent(tab) + "export "))
      && !StartsWith(decl, Indent(tab) + "export default ")
  {
    InterfaceDeclarationExport(tab, i.name, i.isExport);
  }

  /** The default-export flag has no effect on the output. */
  lemma ExportAsDefaultIgnored(i: Interface, tab: int, b: bool)
    ensures InterfaceLines(i.(isExportAsDefault := b), tab) == InterfaceLines(i, tab)
  {
  }

  /** An interface without properties is its comment, the declaration with " {" and the closing line. */
  lemma EmptyInterface(i: Interface, tab: int)
    requires i.properties == []
    ensures InterfaceLines(i, tab)
            == CommentLines(i.comment, tab) + [InterfaceDeclaration(i, tab) + " {"] + [BlockCloseLine(tab)]
  {
    var c := CommentLines(i.comment, tab);
    var o := InterfaceDeclaration(i, tab) + " {";
    var body := PropertyBlocks(i.properties, tab + 1);
    assert body == [] by {
      assert PropertyLineSeqs(i.properties, tab + 1) == [];
    }
  }

  class CGInterface {
    var comment: string
    var name: string
    var isExport: bool
    var isExportAsDefault: bool
    /** The property objects, shared with the caller as in the source. */
    var properties: seq<CGProperty>

    /** The field initialisers: no comment, no name, not exported, no properties. */
    constructor ()
      ensures Model() == Interface("", "", false, false, [])
      ensures properties == []
    {
      comment := "";
      name := "";
      isExport := false;
      isExportAsDefault := false;
      properties := [];
    }

    function Model(): Interface
      reads this, properties
    {
      Interface(comment, name, isExport, isExportAsDefault, PropertyModels(properties))
    }

    /** `AddProperty`: the property goes to the end of the list. */
    method AddProperty(property: CGProperty)
      modifies this
      ensures properties == old(properties) + [property]
      ensures Model() == old(Model()).(properties := old(Model()).properties + [property.Model()])
    {
      properties := properties + [property];
    }

    /** `WriteTo`: appends the interface's lines, each with a newline. */
    method WriteTo(writer: StringBuilder, tab: int)
      modifies writer
      ensures writer.ToString() == old(writer.ToString()) + Unlines(InterfaceLines(old(Model()), tab))
    {
      ghost var m := Model();
      ghost var t0 := writer.ToString();
      var decl := GetInterfaceDeclaration(tab, name, isExport);
      OpenBlock(writer, comment, decl, tab);
      ghost var open := CommentLines(comment, tab) + [decl + " {"];
      ghost var t2 := writer.ToString();
      assert PropertyModels(properties) == m.properties;
      WriteMembers(writer, properties, tab + 1);
      ghost var t3 := writer.ToString();
      EndCodeBlock(writer, tab);
      BlockClosed(t0, open, PropertyBlocks(m.properties, tab + 1), BlockCloseLine(tab), t2, t3, writer.ToString());
      assert InterfaceLines(m, tab) == open + PropertyBlocks(m.properties, tab + 1) + [BlockCloseLine(tab)];
    }
  }

  /** The `if (properties.length > 0)` guard around the property loop, which writes nothing for an empty list. */
  method WriteMembers(writer: StringBuilder, ps: seq<CGProperty>, tab: int)
    modifies writer
    ensures writer.ToString() == old(writer.ToString()) + Unlines(PropertyBlocks(old(PropertyModels(ps)), tab))
  {
    if |ps| > 0 {
      WriteProperties(writer, ps, tab);
    } else {
      assert PropertyLineSeqs([], tab) == [];
      assert old(writer.ToString()) + Unlines([]) == old(writer.ToString());
    }
  }
}
