/**
 * A generated source file (src/CGFile.ts, its bundled copy in src/index.ts,
 * and the root-level CGFile.ts, which has no supplements and holds root-level
 * classes).
 */
module Files {
  import opened Options
  import opened Strings
  import opened Buffer
  import opened CGHelper
  import opened Parameters
  import opened Properties
  import opened Methods
  import opened Interfaces
  import opened Classes

  /**
   * `directoryPath`, `name` and `fileExtension` only make up the file's name
   * and path; the other fields and the four lists make up its text.
   */
  datatype File = File(directoryPath: string, name: string, fileExtension: string,
                       author: string, date: Option<Date>, version: string, comment: string,
                       imports: seq<string>, supplements: seq<string>,
                       interfaces: seq<Interface>, classes: seq<Class>)

  // ---------------------------------------------------------------------------
  // Name and path

  /** The `FileName` getter: the name, a dot and the extension. */
  function FileName(name: string, ext: string): string {
    name + "." + ext
  }

  /** The `FilePath` getter: the directory, a slash and the file name. */
  function FilePath(dir: string, name: string, ext: string): string {
    dir + "/" + FileName(name, ext)
  }

  /** Knowing the length of the name, the file name reads back as the name and the extension. */
  lemma FileNameParts(name: string, ext: string)
    ensures var r := FileName(name, ext);
      && |r| == |name| + 1 + |ext|
      && r[..|name|] == name
      && r[|name|] == '.'
      && r[|name| + 1..] == ext
  {
    var r := FileName(name, ext);
    assert r[..|name|] == name;
    assert r[|name| + 1..] == ext;
  }

  /** The path is the directory and the file name, split at the slash after the directory. */
  lemma FilePathParts(dir: string, name: string, ext: string)
    ensures var r := FilePath(dir, name, ext);
      && |r| == |dir| + 1 + |FileName(name, ext)|
      && r[..|dir|] == dir
      && r[|dir|] == '/'
      && r[|dir| + 1..] == FileName(name, ext)
  {
    var r := FilePath(dir, name, ext);
    assert r[..|dir|] == dir;
    assert r[|dir| + 1..] == FileName(name, ext);
  }

  // ---------------------------------------------------------------------------
  // The lines of a file

  function HeaderLines(f: File): seq<string> {
    FileHeaderLines(f.author, f.date, f.version, f.comment)
  }

  /** One `import ...;` line per import, in the order they were added. */
  function ImportLines(imports: seq<string>): seq<string> {
    seq(|imports|, k requires 0 <= k < |imports| => "import " + imports[k] + ";")
  }

  /** One line per supplement, indented to the file's level, in the order they were added. */
  function SupplementLines(supplements: seq<string>, tab: int): seq<string> {
    seq(|supplements|, k requires 0 <= k < |supplements| => Indent(tab) + supplements[k])
  }

  /**
   * The lines ahead of the interfaces: the header followed by the blank line
   * the header's own final newline makes, the imports, a blank line, the
   * supplements and a blank line.
   */
  function FileIntro(f: File, tab: int): seq<string> {
    HeaderLines(f) + [""] + ImportLines(f.imports) + [""] + SupplementLines(f.supplements, tab) + [""]
  }

  /** An interface wrapped in an "Interface <name>" region and followed by a blank line. */
  function InterfaceSection(i: Interface, tab: int): seq<string> {
    [RegionStartLine("Interface " + i.name, tab)] + InterfaceLines(i, tab) + [RegionEndLine(tab)] + [""]
  }

  /** A class wrapped in a "Class <name>" region and followed by a blank line. */
  function ClassSection(c: Class, tab: int): seq<string> {
    [RegionStartLine("Class " + c.name, tab)] + ClassLines(c, tab) + [RegionEndLine(tab)] + [""]
  }

  /** `InterfaceSection` at a fixed indentation, as a function value. */
  function InterfaceSectionOf(tab: int): Interface -> seq<string> {
    i => InterfaceSection(i, tab)
  }

  function InterfaceSectionSeqs(ifs: seq<Interface>, tab: int): seq<seq<string>> {
    MapSeq(InterfaceSectionOf(tab), ifs)
  }

  /** `ClassSection` at a fixed indentation, as a function value. */
  function ClassSectionOf(tab: int): Class -> seq<string> {
    c => ClassSection(c, tab)
  }

  function ClassSectionSeqs(cs: seq<Class>, tab: int): seq<seq<string>> {
    MapSeq(ClassSectionOf(tab), cs)
  }

  /** The interface sections one after another, in the order the interfaces were added. */
  function InterfaceSections(ifs: seq<Interface>, tab: int): seq<string> {
    Flatten(InterfaceSectionSeqs(ifs, tab))
  }

  /** The class sections one after another, in the order the classes were added. */
  function ClassSections(cs: seq<Class>, tab: int): seq<string> {
    Flatten(ClassSectionSeqs(cs, tab))
  }

  /** The lines `WriteTo` appends: the intro, then every interface, then every class. */
  function FileLines(f: File, tab: int): seq<string> {
    FileIntro(f, tab) + InterfaceSections(f.interfaces, tab) + ClassSections(f.classes, tab)
  }

  /** The root-level variant's intro: no supplement lines and no blank line for them. */
  function LegacyFileIntro(f: File): seq<string> {
    HeaderLines(f) + [""] + ImportLines(f.imports) + [""]
  }

  function LegacyClassSection(c: Class, tab: int): seq<string> {
    [RegionStartLine("Class " + c.name, tab)] + LegacyClassLines(c, tab) + [RegionEndLine(tab)] + [""]
  }

  /** `LegacyClassSection` at a fixed indentation, as a function value. */
  function LegacyClassSectionOf(tab: int): Class -> seq<string> {
    c => LegacyClassSection(c, tab)
  }

  function LegacyClassSectionSeqs(cs: seq<Class>, tab: int): seq<seq<string>> {
    MapSeq(LegacyClassSectionOf(tab), cs)
  }

  function LegacyClassSections(cs: seq<Class>, tab: int): seq<string> {
    Flatten(LegacyClassSectionSeqs(cs, tab))
  }

  /** The root-level variant: its intro, every interface, then every root-level class. */
  function LegacyFileLines(f: File, tab: int): seq<string> {
    LegacyFileIntro(f) + InterfaceSections(f.interfaces, tab) + LegacyClassSections(f.classes, tab)
  }

  // ---------------------------------------------------------------------------
  // Properties of the file's lines

  /** The layout of an intro followed by any lines, for any header lines. */
  lemma IntroLayout(h: seq<string>, imports: seq<string>, supplements: seq<string>, tab: int,
                    a: seq<string>, b: seq<string>)
    ensures var lines := h + [""] + ImportLines(imports) + [""] + SupplementLines(supplements, tab) + [""] + a + b;
      && |lines| == |h| + |imports| + |supplements| + 3 + |a| + |b|
      && lines[..|h|] == h
      && lines[|h|] == ""
      && (forall k :: 0 <= k < |imports| ==> lines[|h| + 1 + k] == "import " + imports[k] + ";")
      && lines[|h| + 1 + |imports|] == ""
      && (forall k :: 0 <= k < |supplements| ==> lines[|h| + 2 + |imports| + k] == Indent(tab) + supplements[k])
      && lines[|h| + 2 + |imports| + |supplements|] == ""
  {
    var il, sl := ImportLines(imports), SupplementLines(supplements, tab);
    var intro := h + [""] + il + [""] + sl + [""];
    var lines := intro + a + b;
    assert lines[..|h|] == h;
    forall k | 0 <= k < |imports|
      ensures lines[|h| + 1 + k] == "import " + imports[k] + ";"
    {
      assert lines[|h| + 1 + k] == intro[|h| + 1 + k] == (h + [""] + il)[|h| + 1 + k] == il[k];
    }
    forall k | 0 <= k < |supplements|
      ensures lines[|h| + 2 + |imports| + k] == Indent(tab) + supplements[k]
    {
      assert lines[|h| + 2 + |imports| + k] == intro[|h| + 2 + |imports| + k]
             == (h + [""] + il + [""] + sl)[|h| + 2 + |imports| + k] == sl[k];
    }
  }

  /**
   * A file begins with its header and a blank line, then one line per import
   * in order, a blank line, one line per supplement in order and a blank line.
   */
  lemma FileBegins(f: File, tab: int)
    ensures var lines := FileLines(f, tab);
      var h := |HeaderLines(f)|;
      && |lines| >= h + |f.imports| + |f.supplements| + 3
      && lines[..h] == HeaderLines(f)
      && lines[h] == ""
      && (forall k :: 0 <= k < |f.imports| ==> lines[h + 1 + k] == "import " + f.imports[k] + ";")
      && lines[h + 1 + |f.imports|] == ""
      && (forall k :: 0 <= k < |f.supplements| ==> lines[h + 2 + |f.imports| + k] == Indent(tab) + f.supplements[k])
      && lines[h + 2 + |f.imports| + |f.supplements|] == ""
  {
    IntroLayout(HeaderLines(f), f.imports, f.supplements, tab,
                InterfaceSections(f.interfaces, tab), ClassSections(f.classes, tab));
  }

  /** The layout of a root-level intro followed by any lines. */
  lemma LegacyIntroLayout(h: seq<string>, imports: seq<string>, a: seq<string>, b: seq<string>)
    ensures var lines := h + [""] + ImportLines(imports) + [""] + a + b;
      && |lines| == |h| + |imports| + 2 + |a| + |b|
      && lines[..|h|] == h
      && lines[|h|] == ""
      && (forall k :: 0 <= k < |imports| ==> lines[|h| + 1 + k] == "import " + imports[k] + ";")
      && lines[|h| + 1 + |imports|] == ""
  {
    var il := ImportLines(imports);
    var lines := h + [""] + il + [""] + a + b;
    assert lines[..|h|] == h;
    forall k | 0 <= k < |imports|
      ensures lines[|h| + 1 + k] == "import " + imports[k] + ";"
    {
      assert lines[|h| + 1 + k] == (h + [""] + il)[|h| + 1 + k] == il[k];
    }
  }

  /** The root-level file begins with its header and a blank line, then the imports and a blank line. */
  lemma LegacyFileBegins(f: File, tab: int)
    ensures var lines := LegacyFileLines(f, tab);
      var h := |HeaderLines(f)|;
      && |lines| >= h + |f.imports| + 2
      && lines[..h] == HeaderLines(f)
      && lines[h] == ""
      && (forall k :: 0 <= k < |f.imports| ==> lines[h + 1 + k] == "import " + f.imports[k] + ";")
      && lines[h + 1 + |f.imports|] == ""
  {
    LegacyIntroLayout(HeaderLines(f), f.imports, InterfaceSections(f.interfaces, tab), LegacyClassSections(f.classes, tab));
  }

  /** Lines that start with some lines keep starting with them when more are added. */
  lemma LinesExtended(a: seq<string>, b: seq<string>)
    ensures StartsWith(Unlines(a + b), Unlines(a))
  {
    UnlinesAppend(a, b);
  }

  /** The text of a file starts with the header text and the blank line after it. */
  lemma FileTextStartsWithHeader(f: File, tab: int)
    ensures StartsWith(Unlines(FileLines(f, tab)), GetFileHeader(f.author, f.date, f.version, f.comment) + "\n")
    ensures StartsWith(Unlines(LegacyFileLines(f, tab)), GetFileHeader(f.author, f.date, f.version, f.comment) + "\n")
  {
    var h := HeaderLines(f);
    HeaderTextFirst(h, ImportLines(f.imports), SupplementLines(f.supplements, tab),
                    InterfaceSections(f.interfaces, tab), ClassSections(f.classes, tab));
    LegacyHeaderTextFirst(h, ImportLines(f.imports), InterfaceSections(f.interfaces, tab),
                          LegacyClassSections(f.classes, tab));
  }

  lemma HeaderTextFirst(h: seq<string>, il: seq<string>, sl: seq<string>, a: seq<string>, b: seq<string>)
    ensures StartsWith(Unlines(h + [""] + il + [""] + sl + [""] + a + b), Unlines(h) + "\n")
  {
    var x := h + [""];
    LinesExtended(x, il);
    LinesExtended(x + il, [""]);
    LinesExtended(x + il + [""], sl);
    LinesExtended(x + il + [""] + sl, [""]);
    LinesExtended(x + il + [""] + sl + [""], a);
    LinesExtended(x + il + [""] + sl + [""] + a, b);
    UnlinesSnoc(h, "");
  }

  lemma LegacyHeaderTextFirst(h: seq<string>, il: seq<string>, a: seq<string>, b: seq<string>)
    ensures StartsWith(Unlines(h + [""] + il + [""] + a + b), Unlines(h) + "\n")
  {
    var x := h + [""];
    LinesExtended(x, il);
    LinesExtended(x + il, [""]);
    LinesExtended(x + il + [""], a);
    LinesExtended(x + il + [""] + a, b);
    UnlinesSnoc(h, "");
  }

  /** The k-th interface's section follows those of the interfaces before it. */
  lemma InterfaceSectionsAt(ifs: seq<Interface>, k: nat, tab: int)
    requires k < |ifs|
    ensures InterfaceSections(ifs, tab)
            == InterfaceSections(ifs[..k], tab) + InterfaceSection(ifs[k], tab) + InterfaceSections(ifs[k + 1..], tab)
  {
    FlattenAt(InterfaceSectionSeqs(ifs, tab), k);
    MapSlices(InterfaceSectionOf(tab), ifs, k);
  }

  /** The k-th class's section follows those of the classes before it. */
  lemma ClassSectionsAt(cs: seq<Class>, k: nat, tab: int)
    requires k < |cs|
    ensures ClassSections(cs, tab)
            == ClassSections(cs[..k], tab) + ClassSection(cs[k], tab) + ClassSections(cs[k + 1..], tab)
  {
    FlattenAt(ClassSectionSeqs(cs, tab), k);
    MapSlices(ClassSectionOf(tab), cs, k);
  }

  /** Splitting the middle operand of a concatenation regroups the whole. */
  lemma SplitMiddle(lines: seq<string>, intro: seq<string>, s: seq<string>, c: seq<string>,
                    p: seq<string>, x: seq<string>, q: seq<string>)
    requires lines == intro + s + c && s == p + x + q
    ensures lines == intro + p + x + q + c
  {
  }

  /** Splitting the last operand of a concatenation regroups the whole. */
  lemma SplitLast(lines: seq<string>, intro: seq<string>, a: seq<string>, s: seq<string>,
                  p: seq<string>, x: seq<string>, q: seq<string>)
    requires lines == intro + a + s && s == p + x + q
    ensures lines == intro + a + p + x + q
  {
  }

  /**
   * The interfaces come in the order they were added, right after the intro:
   * the k-th interface's section follows the sections of those before it and
   * precedes those after it and every class section.
   */
  lemma InterfacesInOrder(f: File, tab: int, k: nat)
    requires k < |f.interfaces|
    ensures FileLines(f, tab)
            == FileIntro(f, tab) + InterfaceSections(f.interfaces[..k], tab) + InterfaceSection(f.interfaces[k], tab)
               + InterfaceSections(f.interfaces[k + 1..], tab) + ClassSections(f.classes, tab)
  {
    InterfaceSectionsAt(f.interfaces, k, tab);
    SplitMiddle(FileLines(f, tab), FileIntro(f, tab), InterfaceSections(f.interfaces, tab), ClassSections(f.classes, tab),
                InterfaceSections(f.interfaces[..k], tab), InterfaceSection(f.interfaces[k], tab),
                InterfaceSections(f.interfaces[k + 1..], tab));
  }

  /**
   * The classes come in the order they were added, after every interface:
   * the k-th class's section follows the intro, all interface sections and
   * the sections of the classes before it, and precedes those after it.
   */
  lemma ClassesInOrder(f: File, tab: int, k: nat)
    requires k < |f.classes|
    ensures FileLines(f, tab)
            == FileIntro(f, tab) + InterfaceSections(f.interfaces, tab) + ClassSections(f.classes[..k], tab)
               + ClassSection(f.classes[k], tab) + ClassSections(f.classes[k + 1..], tab)
  {
    ClassSectionsAt(f.classes, k, tab);
    SplitLast(FileLines(f, tab), FileIntro(f, tab), InterfaceSections(f.interfaces, tab), ClassSections(f.classes, tab),
              ClassSections(f.classes[..k], tab), ClassSection(f.classes[k], tab), ClassSections(f.classes[k + 1..], tab));
  }

  /**
   * A section opens the region named after the entity, holds the entity's
   * lines, closes the region and ends with a blank line.
   */
  lemma SectionLayout(start: string, body: seq<string>, end: string)
    ensures var s := [start] + body + [end] + [""];
      && |s| == |body| + 3
      && s[0] == start
      && s[1..|s| - 2] == body
      && s[|s| - 2] == end
      && s[|s| - 1] == ""
  {
    var s := [start] + body + [end] + [""];
    assert s[1..|s| - 2] == body;
  }

  lemma InterfaceSectionShape(i: Interface, tab: int)
    ensures var s := InterfaceSection(i, tab);
      && |s| == |InterfaceLines(i, tab)| + 3
      && s[0] == RegionStartLine("Interface " + i.name, tab)
      && s[1..|s| - 2] == InterfaceLines(i, tab)
      && s[|s| - 2] == RegionEndLine(tab)
      && s[|s| - 1] == ""
  {
    SectionLayout(RegionStartLine("Interface " + i.name, tab), InterfaceLines(i, tab), RegionEndLine(tab));
  }

  lemma ClassSectionShape(c: Class, tab: int)
    ensures var s := ClassSection(c, tab);
      && |s| == |ClassLines(c, tab)| + 3
      && s[0] == RegionStartLine("Class " + c.name, tab)
      && s[1..|s| - 2] == ClassLines(c, tab)
      && s[|s| - 2] == RegionEndLine(tab)
      && s[|s| - 1] == ""
  {
    SectionLayout(RegionStartLine("Class " + c.name, tab), ClassLines(c, tab), RegionEndLine(tab));
  }

  /** A file with nothing added is its header followed by three blank lines. */
  lemma EmptyFile(f: File, tab: int)
    requires f.imports == [] && f.supplements == [] && f.interfaces == [] && f.classes == []
    ensures FileLines(f, tab) == HeaderLines(f) + ["", "", ""]
    ensures LegacyFileLines(f, tab) == HeaderLines(f) + ["", ""]
  {
    assert ImportLines([]) == [] && SupplementLines([], tab) == [];
    assert InterfaceSections([], tab) == [] by {
      assert InterfaceSectionSeqs([], tab) == [];
    }
    assert ClassSections([], tab) == [] by {
      assert ClassSectionSeqs([], tab) == [];
    }
    assert LegacyClassSections([], tab) == [] by {
      assert LegacyClassSectionSeqs([], tab) == [];
    }
    EmptyIntro(HeaderLines(f));
  }

  lemma EmptyIntro(h: seq<string>)
    ensures h + [""] + [] + [""] + [] + [""] + [] + [] == h + ["", "", ""]
    ensures h + [""] + [] + [""] + [] + [] == h + ["", ""]
  {
  }

  /** Classes without decorators and implemented interfaces have the same sections in both variants. */
  lemma SameClassSections(cs: seq<Class>, tab: int)
    requires forall k :: 0 <= k < |cs| ==> cs[k].decorators == [] && cs[k].interfaces == []
    ensures ClassSections(cs, tab) == LegacyClassSections(cs, tab)
  {
    assert ClassSectionSeqs(cs, tab) == LegacyClassSectionSeqs(cs, tab) by {
      forall k | 0 <= k < |cs|
        ensures ClassSectionSeqs(cs, tab)[k] == LegacyClassSectionSeqs(cs, tab)[k]
      {
        LegacyAgreesWithoutInterfaces(cs[k], tab);
        assert ClassSectionSeqs(cs, tab)[k] == ClassSection(cs[k], tab);
        assert LegacyClassSectionSeqs(cs, tab)[k] == LegacyClassSection(cs[k], tab);
      }
    }
  }

  /**
   * Without supplements, and with classes that have neither decorators nor
   * implemented interfaces, the src/ file is the root-level file with one more
   * blank line, the one after the (empty) supplements.
   */
  lemma SupplementsBlankLine(f: File, tab: int)
    requires f.supplements == []
    requires forall k :: 0 <= k < |f.classes| ==> f.classes[k].decorators == [] && f.classes[k].interfaces == []
    ensures var n := |LegacyFileIntro(f)|;
      && n <= |LegacyFileLines(f, tab)|
      && FileLines(f, tab) == LegacyFileLines(f, tab)[..n] + [""] + LegacyFileLines(f, tab)[n..]
  {
    SameClassSections(f.classes, tab);
    assert SupplementLines([], tab) == [];
    BlankInserted(LegacyFileIntro(f), InterfaceSections(f.interfaces, tab), ClassSections(f.classes, tab));
  }

  lemma BlankInserted(intro: seq<string>, a: seq<string>, b: seq<string>)
    ensures var legacy := intro + a + b;
      && |intro| <= |legacy|
      && intro + [] + [""] + a + b == legacy[..|intro|] + [""] + legacy[|intro|..]
  {
    var legacy := intro + a + b;
    assert legacy[..|intro|] == intro && legacy[|intro|..] == a + b;
  }

  // ---------------------------------------------------------------------------
  // Writing a file

  /** The `mImports.forEach` loop. */
  method WriteImports(writer: StringBuilder, imports: seq<string>)
    modifies writer
    ensures writer.ToString() == old(writer.ToString()) + Unlines(ImportLines(imports))
  {
    var start := writer.ToString();
    for k := 0 to |imports|
      invariant writer.ToString() == start + Unlines(ImportLines(imports[..k]))
    {
      var _ := writer.AppendLine("import " + imports[k] + ";");
      LineAppended(start, ImportLines(imports[..k]), "import " + imports[k] + ";");
      assert ImportLines(imports[..k + 1]) == ImportLines(imports[..k]) + ["import " + imports[k] + ";"];
    }
    assert imports[..|imports|] == imports;
  }

  /** The `mSupplements.forEach` loop, which computes the indentation for every supplement. */
  method WriteSupplements(writer: StringBuilder, supplements: seq<string>, tab: int)
    modifies writer
    ensures writer.ToString() == old(writer.ToString()) + Unlines(SupplementLines(supplements, tab))
  {
    var start := writer.ToString();
    for k := 0 to |supplements|
      invariant writer.ToString() == start + Unlines(SupplementLines(supplements[..k], tab))
    {
      var indent := Tab(tab);
      var _ := writer.AppendLine(indent + supplements[k]);
      LineAppended(start, SupplementLines(supplements[..k], tab), Indent(tab) + supplements[k]);
      assert SupplementLines(supplements[..k + 1], tab) == SupplementLines(supplements[..k], tab) + [Indent(tab) + supplements[k]];
    }
    assert supplements[..|supplements|] == supplements;
  }

  /** The header written with `AppendLine`, the imports and a blank line. */
  method WriteLegacyIntro(writer: StringBuilder, author: string, date: Option<Date>, version: string, comment: string,
                          imports: seq<string>)
    modifies writer
    ensures writer.ToString()
            == old(writer.ToString()) + Unlines(FileHeaderLines(author, date, version, comment) + [""] + ImportLines(imports) + [""])
  {
    ghost var t0 := writer.ToString();
    var header := GetFileHeader(author, date, version, comment);
    var _ := writer.AppendLine(header);
    ghost var t1 := writer.ToString();
    WriteImports(writer, imports);
    ghost var t2 := writer.ToString();
    var _ := writer.AppendLine();
    IntroWritten(t0, FileHeaderLines(author, date, version, comment), header, ImportLines(imports), t1, t2, writer.ToString());
  }

  /** How the header written as one line, the import lines and a blank line add up. */
  lemma IntroWritten(t0: string, h: seq<string>, header: string, il: seq<string>, t1: string, t2: string, t3: string)
    requires header == Unlines(h)
    requires t1 == t0 + header + "\n"
    requires t2 == t1 + Unlines(il)
    requires t3 == t2 + "" + "\n"
    ensures t3 == t0 + Unlines(h + [""] + il + [""])
  {
    LineAppended(t0, h, "");
    LinesAppended(t0, h + [""], il);
    LineAppended(t0, h + [""] + il, "");
  }

  /** All that comes ahead of the interfaces: the root-level intro, the supplements and a blank line. */
  method WriteIntro(writer: StringBuilder, author: string, date: Option<Date>, version: string, comment: string,
                    imports: seq<string>, supplements: seq<string>, tab: int)
    modifies writer
    ensures writer.ToString()
            == old(writer.ToString())
               + Unlines(FileHeaderLines(author, date, version, comment) + [""] + ImportLines(imports) + [""]
                         + SupplementLines(supplements, tab) + [""])
  {
    ghost var t0 := writer.ToString();
    ghost var a := FileHeaderLines(author, date, version, comment) + [""] + ImportLines(imports) + [""];
    WriteLegacyIntro(writer, author, date, version, comment, imports);
    WriteSupplements(writer, supplements, tab);
    LinesAppended(t0, a, SupplementLines(supplements, tab));
    var _ := writer.AppendLine();
    LineAppended(t0, a + SupplementLines(supplements, tab), "");
  }

  /** The interface objects the given interfaces hold. */
  ghost function InterfacePropertyFootprint(ifs: seq<CGInterface>): set<CGProperty>
    reads ifs
  {
    set i, p | i in ifs && p in i.properties :: p
  }

  /** The CGInterface objects' current values. */
  function InterfaceModels(ifs: seq<CGInterface>): (r: seq<Interface>)
    reads ifs, InterfacePropertyFootprint(ifs)
    ensures |r| == |ifs|
    ensures forall k :: 0 <= k < |ifs| ==> r[k] == ifs[k].Model()
  {
    seq(|ifs|, k reads ifs, InterfacePropertyFootprint(ifs) requires 0 <= k < |ifs| =>
          assert forall p :: p in ifs[k].properties ==> p in InterfacePropertyFootprint(ifs);
          ifs[k].Model())
  }

  /** One turn of the `mInterfaces.forEach` loop. */
  method WriteInterfaceSection(writer: StringBuilder, inter: CGInterface, tab: int)
    modifies writer
    ensures writer.ToString() == old(writer.ToString()) + Unlines(InterfaceSection(old(inter.Model()), tab))
  {
    ghost var t0 := writer.ToString();
    ghost var m := inter.Model();
    BeginRegion(writer, "Interface " + inter.name, tab);
    ghost var t1 := writer.ToString();
    inter.WriteTo(writer, tab);
    ghost var t2 := writer.ToString();
    EndRegion(writer, tab);
    ghost var t3 := writer.ToString();
    var _ := writer.AppendLine();
    SectionWritten(t0, RegionStartLine("Interface " + m.name, tab), InterfaceLines(m, tab), RegionEndLine(tab),
                   t1, t2, t3, writer.ToString());
  }

  /** How the region start, the entity's lines, the region end and the blank line add up. */
  lemma SectionWritten(t0: string, start: string, body: seq<string>, end: string,
                       t1: string, t2: string, t3: string, t4: string)
    requires t1 == t0 + Unlines([start])
    requires t2 == t1 + Unlines(body)
    requires t3 == t2 + Unlines([end])
    requires t4 == t3 + "" + "\n"
    ensures t4 == t0 + Unlines([start] + body + [end] + [""])
  {
    LinesAppended(t0, [start], body);
    LinesAppended(t0, [start] + body, [end]);
    LineAppended(t0, [start] + body + [end], "");
  }

  /** Writes the interface at index `k`, which leaves every interface's value as it was. */
  method WriteInterfaceAt(writer: StringBuilder, ifs: seq<CGInterface>, k: nat, ghost models: seq<Interface>, tab: int)
    requires k < |ifs| && InterfaceModels(ifs) == models
    modifies writer
    ensures InterfaceModels(ifs) == models
    ensures writer.ToString() == old(writer.ToString()) + Unlines(InterfaceSection(models[k], tab))
  {
    WriteInterfaceSection(writer, ifs[k], tab);
    InterfaceModelsUnchanged(ifs);
  }

  /** The `mInterfaces.forEach` loop. */
  method WriteInterfaceSections(writer: StringBuilder, ifs: seq<CGInterface>, tab: int)
    modifies writer
    ensures InterfaceModels(ifs) == old(InterfaceModels(ifs))
    ensures writer.ToString() == old(writer.ToString()) + Unlines(InterfaceSections(old(InterfaceModels(ifs)), tab))
  {
    ghost var models := InterfaceModels(ifs);
    var start := writer.ToString();
    for k := 0 to |ifs|
      invariant InterfaceModels(ifs) == models
      invariant writer.ToString() == start + Unlines(InterfaceSections(models[..k], tab))
    {
      WriteInterfaceAt(writer, ifs, k, models, tab);
      LinesAppended(start, InterfaceSections(models[..k], tab), InterfaceSection(models[k], tab));
      InterfaceSectionsSnoc(models, k, tab);
    }
    assert models[..|ifs|] == models;
  }

  lemma InterfaceSectionsSnoc(ifs: seq<Interface>, k: nat, tab: int)
    requires k < |ifs|
    ensures InterfaceSections(ifs[..k + 1], tab) == InterfaceSections(ifs[..k], tab) + InterfaceSection(ifs[k], tab)
  {
    MapSlices(InterfaceSectionOf(tab), ifs, k);
    FlattenSnoc(InterfaceSectionSeqs(ifs[..k], tab), InterfaceSection(ifs[k], tab));
  }

  /** The property objects the given classes hold. */
  ghost function ClassPropertyFootprint(cs: seq<CGClass>): set<CGProperty>
    reads cs
  {
    set c, p | c in cs && p in c.properties :: p
  }

  /** The method objects the given classes hold. */
  ghost function ClassMethodFootprint(cs: seq<CGClass>): set<CGMethod>
    reads cs
  {
    set c, m | c in cs && m in c.methods :: m
  }

  /** The parameter objects the methods of the given classes hold. */
  ghost function ClassParameterFootprint(cs: seq<CGClass>): set<CGParameter>
    reads cs, ClassMethodFootprint(cs)
  {
    set m, p | m in ClassMethodFootprint(cs) && p in m.parameters :: p
  }

  /** The CGClass objects' current values. */
  function ClassModels(cs: seq<CGClass>): (r: seq<Class>)
    reads cs, ClassPropertyFootprint(cs), ClassMethodFootprint(cs), ClassParameterFootprint(cs)
    ensures |r| == |cs|
    ensures forall k :: 0 <= k < |cs| ==> r[k] == cs[k].Model()
  {
    seq(|cs|, k reads cs, ClassPropertyFootprint(cs), ClassMethodFootprint(cs), ClassParameterFootprint(cs)
               requires 0 <= k < |cs| =>
          assert forall p :: p in cs[k].properties ==> p in ClassPropertyFootprint(cs);
          assert forall m :: m in cs[k].methods ==> m in ClassMethodFootprint(cs);
          assert forall p :: p in ParameterFootprint(cs[k].methods) ==> p in ClassParameterFootprint(cs);
          cs[k].Model())
  }

  /** One turn of the `mClasses.forEach` loop; `m` is the class's current value. */
  method WriteClassSection(writer: StringBuilder, clazz: CGClass, ghost m: Class, tab: int)
    requires clazz.Model() == m
    modifies writer
    ensures writer.ToString() == old(writer.ToString()) + Unlines(ClassSection(m, tab))
  {
    ghost var t0 := writer.ToString();
    BeginRegion(writer, "Class " + clazz.name, tab);
    ghost var t1 := writer.ToString();
    assert clazz.Model() == m;
    clazz.WriteTo(writer, tab);
    ghost var t2 := writer.ToString();
    EndRegion(writer, tab);
    ghost var t3 := writer.ToString();
    var _ := writer.AppendLine();
    SectionWritten(t0, RegionStartLine("Class " + m.name, tab), ClassLines(m, tab), RegionEndLine(tab),
                   t1, t2, t3, writer.ToString());
  }

  /** Writes the class at index `k`, which leaves every class's value as it was. */
  method WriteClassAt(writer: StringBuilder, cs: seq<CGClass>, k: nat, ghost models: seq<Class>, tab: int)
    requires k < |cs| && ClassModels(cs) == models
    modifies writer
    ensures ClassModels(cs) == models
    ensures writer.ToString() == old(writer.ToString()) + Unlines(ClassSection(models[k], tab))
  {
    WriteClassSection(writer, cs[k], models[k], tab);
    ClassModelsUnchanged(cs);
  }

  /** The `mClasses.forEach` loop. */
  method WriteClassSections(writer: StringBuilder, cs: seq<CGClass>, tab: int)
    modifies writer
    ensures writer.ToString() == old(writer.ToString()) + Unlines(ClassSections(old(ClassModels(cs)), tab))
  {
    ghost var models := ClassModels(cs);
    var start := writer.ToString();
    for k := 0 to |cs|
      invariant ClassModels(cs) == models
      invariant writer.ToString() == start + Unlines(ClassSections(models[..k], tab))
    {
      WriteClassAt(writer, cs, k, models, tab);
      LinesAppended(start, ClassSections(models[..k], tab), ClassSection(models[k], tab));
      ClassSectionsSnoc(models, k, tab);
    }
    assert models[..|cs|] == models;
  }

  /** The values of class objects whose fields, and whose members' fields, were left alone are as they were. */
  twostate lemma ClassModelsUnchanged(cs: seq<CGClass>)
    requires unchanged(cs) && unchanged(old(ClassPropertyFootprint(cs)))
    requires unchanged(old(ClassMethodFootprint(cs))) && unchanged(old(ClassParameterFootprint(cs)))
    ensures ClassModels(cs) == old(ClassModels(cs))
  {
    forall k | 0 <= k < |cs|
      ensures ClassModels(cs)[k] == old(ClassModels(cs))[k]
    {
      var c := cs[k];
      assert old(ClassModels(cs))[k] == old(c.Model());
      assert forall p :: p in old(c.properties) ==> p in old(ClassPropertyFootprint(cs));
      assert forall m :: m in old(c.methods) ==> m in old(ClassMethodFootprint(cs));
      assert forall p :: p in old(ParameterFootprint(c.methods)) ==> p in old(ClassParameterFootprint(cs));
      ClassModelUnchanged(c);
    }
  }

  /** One class object whose fields, and whose members' fields, were left alone has the value it had. */
  twostate lemma ClassModelUnchanged(c: CGClass)
    requires unchanged(c) && unchanged(old(c.properties)) && unchanged(old(c.methods))
    requires unchanged(old(ParameterFootprint(c.methods)))
    ensures c.Model() == old(c.Model())
  {
    PropertyModelsUnchanged(c.properties);
    MethodModelsUnchanged(c.methods);
  }

  lemma ClassSectionsSnoc(cs: seq<Class>, k: nat, tab: int)
    requires k < |cs|
    ensures ClassSections(cs[..k + 1], tab) == ClassSections(cs[..k], tab) + ClassSection(cs[k], tab)
  {
    MapSlices(ClassSectionOf(tab), cs, k);
    FlattenSnoc(ClassSectionSeqs(cs[..k], tab), ClassSection(cs[k], tab));
  }

  /** The values of interface objects whose fields, and whose properties' fields, were left alone are as they were. */
  twostate lemma InterfaceModelsUnchanged(ifs: seq<CGInterface>)
    requires unchanged(ifs) && unchanged(old(InterfacePropertyFootprint(ifs)))
    ensures InterfaceModels(ifs) == old(InterfaceModels(ifs))
  {
    forall k | 0 <= k < |ifs|
      ensures InterfaceModels(ifs)[k] == old(InterfaceModels(ifs))[k]
    {
      var i := ifs[k];
      assert old(InterfaceModels(ifs))[k] == old(i.Model());
      assert i.properties == old(i.properties);
      assert forall p :: p in i.properties ==> p in old(InterfacePropertyFootprint(ifs));
      PropertyModelsUnchanged(i.properties);
    }
  }

  /** How the intro and the sections after it add up to a file's lines. */
  lemma IntroThenEntities(t0: string, intro: seq<string>, a: seq<string>, b: seq<string>, lines: seq<string>,
                          t1: string, t2: string)
    requires lines == intro + a + b
    requires t1 == t0 + Unlines(intro)
    requires t2 == t1 + Unlines(a + b)
    ensures t2 == t0 + Unlines(lines)
  {
    LinesAppended(t0, intro, a + b);
    Regrouped(intro, a, b, lines);
  }

  lemma Regrouped(intro: seq<string>, a: seq<string>, b: seq<string>, lines: seq<string>)
    requires lines == intro + a + b
    ensures intro + (a + b) == lines
  {
  }

  /** The two `forEach` loops of `WriteTo`: every interface, then every class. */
  method WriteEntities(writer: StringBuilder, ifs: seq<CGInterface>, cs: seq<CGClass>, tab: int)
    modifies writer
    ensures writer.ToString()
            == old(writer.ToString())
               + Unlines(InterfaceSections(old(InterfaceModels(ifs)), tab) + ClassSections(old(ClassModels(cs)), tab))
  {
    ghost var t0 := writer.ToString();
    label interfaces:
    WriteInterfaceSections(writer, ifs, tab);
    ClassModelsUnchanged@interfaces(cs);
    WriteClassSections(writer, cs, tab);
    LinesAppended(t0, InterfaceSections(old(InterfaceModels(ifs)), tab), ClassSections(old(ClassModels(cs)), tab));
  }

  /** The two `forEach` loops of the root-level `WriteTo`. */
  method WriteLegacyEntities(writer: StringBuilder, ifs: seq<CGInterface>, cs: seq<LegacyCGClass>, tab: int)
    modifies writer
    ensures writer.ToString()
            == old(writer.ToString())
               + Unlines(InterfaceSections(old(InterfaceModels(ifs)), tab) + LegacyClassSections(old(LegacyClassModels(cs)), tab))
  {
    ghost var t0 := writer.ToString();
    label interfaces:
    WriteInterfaceSections(writer, ifs, tab);
    LegacyClassModelsUnchanged@interfaces(cs);
    WriteLegacyClassSections(writer, cs, tab);
    LinesAppended(t0, InterfaceSections(old(InterfaceModels(ifs)), tab),
                  LegacyClassSections(old(LegacyClassModels(cs)), tab));
  }

  // ---------------------------------------------------------------------------
  // The file objects

  class CGFile {
    var directoryPath: string
    var name: string
    var fileExtension: string
    var author: string
    var date: Option<Date>
    var version: string
    var comment: string
    var imports: seq<string>
    var supplements: seq<string>
    /** The interface and class objects, shared with the caller as in the source. */
    var interfaces: seq<CGInterface>
    var classes: seq<CGClass>

    /** The field initialisers: everything empty, no date, and the extension "ts". */
    constructor ()
      ensures Model() == File("", "", "ts", "", None, "", "", [], [], [], [])
      ensures interfaces == [] && classes == []
    {
      directoryPath := "";
      name := "";
      fileExtension := "ts";
      author := "";
      date := None;
      version := "";
      comment := "";
      imports := [];
      supplements := [];
      interfaces := [];
      classes := [];
    }

    function Model(): File
      reads this, interfaces, InterfacePropertyFootprint(interfaces)
      reads classes, ClassPropertyFootprint(classes), ClassMethodFootprint(classes), ClassParameterFootprint(classes)
    {
      File(directoryPath, name, fileExtension, author, date, version, comment, imports, supplements,
           InterfaceModels(interfaces), ClassModels(classes))
    }

    /** `AddImport`: the import goes to the end of the list. */
    method AddImport(imp: string)
      modifies this
      ensures interfaces == old(interfaces) && classes == old(classes)
      ensures Model() == old(Model()).(imports := old(imports) + [imp])
    {
      label before:
      imports := imports + [imp];
      InterfaceModelsUnchanged@before(interfaces);
      ClassModelsUnchanged@before(classes);
    }

    /** `AddSupplement`: the supplement goes to the end of the list. */
    method AddSupplement(supplement: string)
      modifies this
      ensures interfaces == old(interfaces) && classes == old(classes)
      ensures Model() == old(Model()).(supplements := old(supplements) + [supplement])
    {
      label before:
      supplements := supplements + [supplement];
      InterfaceModelsUnchanged@before(interfaces);
      ClassModelsUnchanged@before(classes);
    }

    /** `AddInterface`: the interface goes to the end of the list. */
    method AddInterface(inter: CGInterface)
      modifies this
      ensures interfaces == old(interfaces) + [inter] && classes == old(classes)
      ensures Model() == old(Model()).(interfaces := old(Model()).interfaces + [inter.Model()])
    {
      label before:
      interfaces := interfaces + [inter];
      InterfaceModelsUnchanged@before(old@before(interfaces));
      ClassModelsUnchanged@before(classes);
      InterfaceModelsSnoc(old@before(interfaces), inter);
    }

    /** `AddClass`: the class goes to the end of the list. */
    method AddClass(clazz: CGClass)
      modifies this
      ensures classes == old(classes) + [clazz] && interfaces == old(interfaces)
      ensures Model() == old(Model()).(classes := old(Model()).classes + [clazz.Model()])
    {
      label before:
      classes := classes + [clazz];
      InterfaceModelsUnchanged@before(interfaces);
      ClassModelsUnchanged@before(old@before(classes));
      ClassModelsSnoc(old@before(classes), clazz);
    }

    /** `WriteTo`: appends the file's lines, each with a newline. */
    method WriteTo(writer: StringBuilder, tab: int)
      modifies writer
      ensures writer.ToString() == old(writer.ToString()) + Unlines(FileLines(old(Model()), tab))
    {
      ghost var m := Model();
      ghost var t0 := writer.ToString();
      label intro:
      WriteIntro(writer, author, date, version, comment, imports, supplements, tab);
      ghost var t1 := writer.ToString();
      InterfaceModelsUnchanged@intro(interfaces);
      ClassModelsUnchanged@intro(classes);
      WriteEntities(writer, interfaces, classes, tab);
      IntroThenEntities(t0, FileIntro(m, tab), InterfaceSections(m.interfaces, tab), ClassSections(m.classes, tab),
                        FileLines(m, tab), t1, writer.ToString());
    }
  }

  /** Appending an interface object appends its value. */
  lemma InterfaceModelsSnoc(ifs: seq<CGInterface>, inter: CGInterface)
    ensures InterfaceModels(ifs + [inter]) == InterfaceModels(ifs) + [inter.Model()]
  {
    var ifs' := ifs + [inter];
    assert forall k :: 0 <= k < |ifs| ==> ifs'[k] == ifs[k];
  }

  /** Appending a class object appends its value. */
  lemma ClassModelsSnoc(cs: seq<CGClass>, clazz: CGClass)
    ensures ClassModels(cs + [clazz]) == ClassModels(cs) + [clazz.Model()]
  {
    var cs' := cs + [clazz];
    assert forall k :: 0 <= k < |cs| ==> cs'[k] == cs[k];
  }

  // ---------------------------------------------------------------------------
  // The root-level file objects

  /** The property objects the given root-level classes hold. */
  ghost function LegacyClassPropertyFootprint(cs: seq<LegacyCGClass>): set<CGProperty>
    reads cs
  {
    set c, p | c in cs && p in c.properties :: p
  }

  /** The method objects the given root-level classes hold. */
  ghost function LegacyClassMethodFootprint(cs: seq<LegacyCGClass>): set<CGMethod>
    reads cs
  {
    set c, m | c in cs && m in c.methods :: m
  }

  /** The parameter objects the methods of the given root-level classes hold. */
  ghost function LegacyClassParameterFootprint(cs: seq<LegacyCGClass>): set<CGParameter>
    reads cs, LegacyClassMethodFootprint(cs)
  {
    set m, p | m in LegacyClassMethodFootprint(cs) && p in m.parameters :: p
  }

  /** The root-level class objects' current values. */
  function LegacyClassModels(cs: seq<LegacyCGClass>): (r: seq<Class>)
    reads cs, LegacyClassPropertyFootprint(cs), LegacyClassMethodFootprint(cs), LegacyClassParameterFootprint(cs)
    ensures |r| == |cs|
    ensures forall k :: 0 <= k < |cs| ==> r[k] == cs[k].Model()
  {
    seq(|cs|, k reads cs, LegacyClassPropertyFootprint(cs), LegacyClassMethodFootprint(cs), LegacyClassParameterFootprint(cs)
               requires 0 <= k < |cs| =>
          assert forall p :: p in cs[k].properties ==> p in LegacyClassPropertyFootprint(cs);
          assert forall m :: m in cs[k].methods ==> m in LegacyClassMethodFootprint(cs);
          assert forall p :: p in ParameterFootprint(cs[k].methods) ==> p in LegacyClassParameterFootprint(cs);
          cs[k].Model())
  }

  /** The values of root-level class objects whose fields, and whose members' fields, were left alone are as they were. */
  twostate lemma LegacyClassModelsUnchanged(cs: seq<LegacyCGClass>)
    requires unchanged(cs) && unchanged(old(LegacyClassPropertyFootprint(cs)))
    requires unchanged(old(LegacyClassMethodFootprint(cs))) && unchanged(old(LegacyClassParameterFootprint(cs)))
    ensures LegacyClassModels(cs) == old(LegacyClassModels(cs))
  {
    forall k | 0 <= k < |cs|
      ensures LegacyClassModels(cs)[k] == old(LegacyClassModels(cs))[k]
    {
      var c := cs[k];
      assert old(LegacyClassModels(cs))[k] == old(c.Model());
      assert forall p :: p in old(c.properties) ==> p in old(LegacyClassPropertyFootprint(cs));
      assert forall m :: m in old(c.methods) ==> m in old(LegacyClassMethodFootprint(cs));
      assert forall p :: p in old(ParameterFootprint(c.methods)) ==> p in old(LegacyClassParameterFootprint(cs));
      LegacyClassModelUnchanged(c);
    }
  }

  /** One class object whose fields, and whose members' fields, were left alone has the value it had. */
  twostate lemma LegacyClassModelUnchanged(c: LegacyCGClass)
    requires unchanged(c) && unchanged(old(c.properties)) && unchanged(old(c.methods))
    requires unchanged(old(ParameterFootprint(c.methods)))
    ensures c.Model() == old(c.Model())
  {
    PropertyModelsUnchanged(c.properties);
    MethodModelsUnchanged(c.methods);
  }

  /** Appending a root-level class object appends its value. */
  lemma LegacyClassModelsSnoc(cs: seq<LegacyCGClass>, clazz: LegacyCGClass)
    ensures LegacyClassModels(cs + [clazz]) == LegacyClassModels(cs) + [clazz.Model()]
  {
    var cs' := cs + [clazz];
    assert forall k :: 0 <= k < |cs| ==> cs'[k] == cs[k];
  }

  /** One turn of the root-level `mClasses.forEach` loop; `m` is the class's current value. */
  method WriteLegacyClassSection(writer: StringBuilder, clazz: LegacyCGClass, ghost m: Class, tab: int)
    requires clazz.Model() == m
    modifies writer
    ensures writer.ToString() == old(writer.ToString()) + Unlines(LegacyClassSection(m, tab))
  {
    ghost var t0 := writer.ToString();
    BeginRegion(writer, "Class " + clazz.name, tab);
    ghost var t1 := writer.ToString();
    assert clazz.Model() == m;
    clazz.WriteTo(writer, tab);
    ghost var t2 := writer.ToString();
    EndRegion(writer, tab);
    ghost var t3 := writer.ToString();
    var _ := writer.AppendLine();
    SectionWritten(t0, RegionStartLine("Class " + m.name, tab), LegacyClassLines(m, tab), RegionEndLine(tab),
                   t1, t2, t3, writer.ToString());
  }

  /** Writes the root-level class at index `k`, which leaves every class's value as it was. */
  method WriteLegacyClassAt(writer: StringBuilder, cs: seq<LegacyCGClass>, k: nat, ghost models: seq<Class>, tab: int)
    requires k < |cs| && LegacyClassModels(cs) == models
    modifies writer
    ensures LegacyClassModels(cs) == models
    ensures writer.ToString() == old(writer.ToString()) + Unlines(LegacyClassSection(models[k], tab))
  {
    WriteLegacyClassSection(writer, cs[k], models[k], tab);
    LegacyClassModelsUnchanged(cs);
  }

  /** The root-level `mClasses.forEach` loop. */
  method WriteLegacyClassSections(writer: StringBuilder, cs: seq<LegacyCGClass>, tab: int)
    modifies writer
    ensures writer.ToString() == old(writer.ToString()) + Unlines(LegacyClassSections(old(LegacyClassModels(cs)), tab))
  {
    ghost var models := LegacyClassModels(cs);
    var start := writer.ToString();
    for k := 0 to |cs|
      invariant LegacyClassModels(cs) == models
      invariant writer.ToString() == start + Unlines(LegacyClassSections(models[..k], tab))
    {
      WriteLegacyClassAt(writer, cs, k, models, tab);
      LinesAppended(start, LegacyClassSections(models[..k], tab), LegacyClassSection(models[k], tab));
      LegacyClassSectionsSnoc(models, k, tab);
    }
    assert models[..|cs|] == models;
  }

  lemma LegacyClassSectionsSnoc(cs: seq<Class>, k: nat, tab: int)
    requires k < |cs|
    ensures LegacyClassSections(cs[..k + 1], tab) == LegacyClassSections(cs[..k], tab) + LegacyClassSection(cs[k], tab)
  {
    MapSlices(LegacyClassSectionOf(tab), cs, k);
    FlattenSnoc(LegacyClassSectionSeqs(cs[..k], tab), LegacyClassSection(cs[k], tab));
  }

  /** The root-level CGFile.ts: no supplements, and root-level classes. */
  class LegacyCGFile {
    var directoryPath: string
    var name: string
    var fileExtension: string
    var author: string
    var date: Option<Date>
    var version: string
    var comment: string
    var imports: seq<string>
    var interfaces: seq<CGInterface>
    var classes: seq<LegacyCGClass>

    constructor ()
      ensures Model() == File("", "", "ts", "", None, "", "", [], [], [], [])
      ensures interfaces == [] && classes == []
    {
      directoryPath := "";
      name := "";
      fileExtension := "ts";
      author := "";
      date := None;
      version := "";
      comment := "";
      imports := [];
      interfaces := [];
      classes := [];
    }

    /** The value, with an empty supplement list. */
    function Model(): File
      reads this, interfaces, InterfacePropertyFootprint(interfaces)
      reads classes, LegacyClassPropertyFootprint(classes), LegacyClassMethodFootprint(classes)
      reads LegacyClassParameterFootprint(classes)
    {
      File(directoryPath, name, fileExtension, author, date, version, comment, imports, [],
           InterfaceModels(interfaces), LegacyClassModels(classes))
    }

    method AddImport(imp: string)
      modifies this
      ensures interfaces == old(interfaces) && classes == old(classes)
      ensures Model() == old(Model()).(imports := old(imports) + [imp])
    {
      label before:
      imports := imports + [imp];
      InterfaceModelsUnchanged@before(interfaces);
      LegacyClassModelsUnchanged@before(classes);
    }

    method AddInterface(inter: CGInterface)
      modifies this
      ensures interfaces == old(interfaces) + [inter] && classes == old(classes)
      ensures Model() == old(Model()).(interfaces := old(Model()).interfaces + [inter.Model()])
    {
      label before:
      interfaces := interfaces + [inter];
      InterfaceModelsUnchanged@before(old@before(interfaces));
      LegacyClassModelsUnchanged@before(classes);
      InterfaceModelsSnoc(old@before(interfaces), inter);
    }

    method AddClass(clazz: LegacyCGClass)
      modifies this
      ensures classes == old(classes) + [clazz] && interfaces == old(interfaces)
      ensures Model() == old(Model()).(classes := old(Model()).classes + [clazz.Model()])
    {
      label before:
      classes := classes + [clazz];
      InterfaceModelsUnchanged@before(interfaces);
      LegacyClassModelsUnchanged@before(old@before(classes));
      LegacyClassModelsSnoc(old@before(classes), clazz);
    }

    /** `WriteTo`: appends the root-level file's lines, each with a newline. */
    method WriteTo(writer: StringBuilder, tab: int)
      modifies writer
      ensures writer.ToString() == old(writer.ToString()) + Unlines(LegacyFileLines(old(Model()), tab))
    {
      ghost var m := Model();
      ghost var t0 := writer.ToString();
      label intro:
      WriteLegacyIntro(writer, author, date, version, comment, imports);
      ghost var t1 := writer.ToString();
      InterfaceModelsUnchanged@intro(interfaces);
      LegacyClassModelsUnchanged@intro(classes);
      WriteLegacyEntities(writer, interfaces, classes, tab);
      IntroThenEntities(t0, LegacyFileIntro(m), InterfaceSections(m.interfaces, tab), LegacyClassSections(m.classes, tab),
                        LegacyFileLines(m, tab), t1, writer.ToString());
    }
  }
}
