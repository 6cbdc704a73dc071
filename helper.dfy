/**
 * The static formatting helpers of src/CGHelper.ts (identical in the bundled
 * src/index.ts and, except for the class declaration, in the root-level
 * CGHelper.ts). Pure helpers are functions; the four helpers that write into
 * the caller's buffer are methods on a StringBuilder.
 */
module CGHelper {
  import opened Options
  import opened Strings
  import opened Buffer

  // ---------------------------------------------------------------------------
  // Indentation

  /** The text of `Tab(tab)`: four spaces per level, nothing for a level <= 0. */
  function Indent(tab: int): (r: string)
    ensures |r| == if tab <= 0 then 0 else 4 * tab
    ensures forall i :: 0 <= i < |r| ==> r[i] == ' '
    decreases if tab <= 0 then 0 else tab
  {
    if tab <= 0 then "" else Indent(tab - 1) + "    "
  }

  /** `Tab`: the loop that appends one four-space unit per level. */
  method Tab(tab: int) returns (sb: string)
    ensures sb == Indent(tab)
  {
    sb := "";
    var i := 0;
    while i < tab
      invariant 0 <= i && (i <= tab || i == 0)
      invariant sb == Indent(i)
    {
      sb := sb + "    ";
      i := i + 1;
    }
  }

  /** A deeper indentation starts with a shallower one. */
  lemma {:induction false} IndentPrefix(a: int, b: int)
    requires a <= b
    ensures StartsWith(Indent(b), Indent(a))
  {
    if b > 0 && a < b {
      IndentPrefix(a, b - 1);
    }
  }

  // ---------------------------------------------------------------------------
  // Separator line, dates, file header

  /** The text of `BeautyLine()`: "// " and fifty dashes, with no newline. */
  function Separator(): (r: string)
    ensures |r| == 53
    ensures r[..3] == "// " && forall i :: 3 <= i < 53 ==> r[i] == '-'
    ensures '\n' !in r
  {
    "// " + Repeat('-', 50)
  }

  /** `BeautyLine`: builds the separator in a local buffer, fifty appends of "-". */
  method BeautyLine() returns (line: string)
    ensures line == Separator()
  {
    var sb := new StringBuilder("");
    var _ := sb.Append("// ");
    for i := 0 to 50
      invariant sb.ToString() == "// " + Repeat('-', i)
    {
      var _ := sb.Append("-");
      assert Repeat('-', i + 1) == Repeat('-', i) + "-";
    }
    line := sb.ToString();
  }

  /** A calendar date as the local-time fields the source reads: full year, month 1-12, day 1-31. */
  datatype Date = Date(year: int, month: nat, day: nat)

  /** `FormatDateInYearMonthDay`: year, then month and day zero-padded to two digits. */
  function FormatDateInYearMonthDay(d: Date): string {
    IntToDecimal(d.year) + "-" + PadStart(NatToDecimal(d.month), 2, '0') + "-"
      + PadStart(NatToDecimal(d.day), 2, '0')
  }

  /** A value below 100 is rendered as exactly two digits that read back as the value. */
  lemma TwoDigits(n: nat)
    requires n < 100
    ensures var s := PadStart(NatToDecimal(n), 2, '0');
      |s| == 2 && ParseNat(s) == Some(n)
  {
    LeadingZeros(NatToDecimal(n), 2);
    DecimalRoundTrip(n);
    if n >= 10 {
      assert NatToDecimal(n) == NatToDecimal(n / 10) + [DigitChar(n % 10)];
    }
  }

  /** Reads back "year-MM-DD": the two dashes are found from the end, since the year's length varies. */
  function ParseDate(s: string): Option<Date> {
    if |s| < 7 || s[|s| - 6] != '-' || s[|s| - 3] != '-' then None
    else
      var y, m, d := ParseInt(s[..|s| - 6]), ParseNat(s[|s| - 5..|s| - 3]), ParseNat(s[|s| - 2..]);
      if y.Some? && m.Some? && d.Some? then Some(Date(y.value, m.value, d.value)) else None
  }

  /** The formatted date reads back as the same date whenever month and day have at most two digits. */
  lemma FormatDateRoundTrip(d: Date)
    requires d.month < 100 && d.day < 100
    ensures ParseDate(FormatDateInYearMonthDay(d)) == Some(d)
  {
    var y := IntToDecimal(d.year);
    var mm := PadStart(NatToDecimal(d.month), 2, '0');
    var dd := PadStart(NatToDecimal(d.day), 2, '0');
    TwoDigits(d.month);
    TwoDigits(d.day);
    IntRoundTrip(d.year);
    ParseDateLayout(y, mm, dd);
  }

  /** ParseDate cuts "y-mm-dd" back into its three fields. */
  lemma ParseDateLayout(y: string, mm: string, dd: string)
    requires |y| >= 1 && |mm| == 2 && |dd| == 2
    ensures var a, b, c := ParseInt(y), ParseNat(mm), ParseNat(dd);
      ParseDate(y + "-" + mm + "-" + dd)
        == if a.Some? && b.Some? && c.Some? then Some(Date(a.value, b.value, c.value)) else None
  {
    var s := y + "-" + mm + "-" + dd;
    assert s[..|s| - 6] == y;
    assert s[|s| - 5..|s| - 3] == mm;
    assert s[|s| - 2..] == dd;
  }

  /** The lines of the file header, in order; the date line only when a date is given. */
  function FileHeaderLines(author: string, date: Option<Date>, version: string, comment: string): seq<string> {
    [Separator(), "// Author: " + author]
      + (if date.Some? then ["// Date: " + FormatDateInYearMonthDay(date.value)] else [])
      + ["// Version: " + version, "// Description: " + comment, Separator()]
  }

  /** `GetFileHeader`: the header lines, each terminated by a newline. */
  function GetFileHeader(author: string, date: Option<Date>, version: string, comment: string): string {
    Unlines(FileHeaderLines(author, date, version, comment))
  }

  /** The header opens with the separator and the author line and closes with the version, description and separator lines. */
  lemma FileHeaderFrame(author: string, date: Option<Date>, version: string, comment: string)
    ensures var r := GetFileHeader(author, date, version, comment);
      && StartsWith(r, Separator() + "\n" + ("// Author: " + author) + "\n")
      && EndsWith(r, ("// Version: " + version) + "\n" + ("// Description: " + comment) + "\n" + Separator() + "\n")
  {
    var dateLines := if date.Some? then ["// Date: " + FormatDateInYearMonthDay(date.value)] else [];
    HeaderFrame(Separator(), "// Author: " + author, dateLines,
                "// Version: " + version, "// Description: " + comment);
    assert FileHeaderLines(author, date, version, comment)
      == [Separator(), "// Author: " + author] + dateLines
         + ["// Version: " + version, "// Description: " + comment, Separator()];
  }

  /** The header text begins with its first two lines and ends with its last three. */
  lemma HeaderFrame(sep: string, first: string, middle: seq<string>, third: string, fourth: string)
    ensures var r := Unlines([sep, first] + middle + [third, fourth, sep]);
      && StartsWith(r, sep + "\n" + first + "\n")
      && EndsWith(r, third + "\n" + fourth + "\n" + sep + "\n")
  {
    var head, tail := [sep, first], [third, fourth, sep];
    UnlinesAppend(head + middle, tail);
    UnlinesAppend(head, middle);
    assert Unlines(head) == sep + "\n" + first + "\n" by {
      UnlinesCons(sep, [first]);
      UnlinesCons(first, []);
    }
    assert Unlines(tail) == third + "\n" + fourth + "\n" + sep + "\n" by {
      UnlinesCons(third, [fourth, sep]);
      UnlinesCons(fourth, [sep]);
      UnlinesCons(sep, []);
    }
    TextFrame(Unlines(head), Unlines(middle), Unlines(tail));
  }

  lemma TextFrame(a: string, b: string, c: string)
    ensures StartsWith(a + b + c, a) && EndsWith(a + b + c, c)
  {
    assert (a + b + c)[..|a|] == a;
    assert (a + b + c)[|a + b + c| - |c|..] == c;
  }

  /** A line starting with "// Date: " is present exactly when a date is given; it carries that date. */
  lemma FileHeaderDateLine(author: string, date: Option<Date>, version: string, comment: string)
    ensures var lines := FileHeaderLines(author, date, version, comment);
      && |lines| == (if date.Some? then 6 else 5)
      && (date.Some? ==> lines[2] == "// Date: " + FormatDateInYearMonthDay(date.value))
      && ((exists k :: 0 <= k < |lines| && StartsWith(lines[k], "// Date: ")) <==> date.Some?)
  {
    var lines := FileHeaderLines(author, date, version, comment);
    if date.None? {
      forall k | 0 <= k < |lines| ensures !StartsWith(lines[k], "// Date: ") {
        if k == 0 || k == 4 {
          assert lines[k][3] == '-';
        } else if k == 1 {
          assert lines[k][3] == 'A';
        } else if k == 2 {
          assert lines[k][3] == 'V';
        } else {
          assert lines[k][4] == 'e';
        }
      }
    } else {
      assert StartsWith(lines[2], "// Date: ");
    }
  }

  // ---------------------------------------------------------------------------
  // Line templates

  /** `GetComment`: the content verbatim between "/** " and " */", after the indentation. */
  function GetComment(content: string, tab: int): (r: string)
    ensures |r| == |Indent(tab)| + |content| + 7
    ensures StartsWith(r, Indent(tab) + "/** ") && EndsWith(r, " */")
    ensures r[|Indent(tab)| + 4..|r| - 3] == content
  {
    Indent(tab) + "/** " + content + " */"
  }

  /** `GetClassDecorator`: the decorator verbatim after the indentation and an "@". */
  function GetClassDecorator(decorator: string, tab: int): (r: string)
    ensures StartsWith(r, Indent(tab) + "@")
    ensures r[|Indent(tab)| + 1..] == decorator
  {
    Indent(tab) + "@" + decorator
  }

  /** The export keywords in front of a class declaration; "default " only after "export ". */
  function ExportKeywords(exp: bool, expAs: bool): string {
    if exp then "export " + (if expAs then "default " else "") else ""
  }

  /** What the export keywords decide about the start of a class declaration. */
  lemma ExportPrefix(tab: int, exp: bool, expAs: bool, name: string, rest: string)
    requires StartsWith(rest, "class " + name)
    ensures var r := Indent(tab) + (ExportKeywords(exp, expAs) + rest);
      && (exp <==> StartsWith(r, Indent(tab) + "export "))
      && (exp && expAs <==> StartsWith(r, Indent(tab) + "export default "))
      && (!exp ==> StartsWith(r, Indent(tab) + "class " + name))
  {
    PrefixCancel(Indent(tab), rest, "class " + name);
    var k := ExportKeywords(exp, expAs);
    PrefixCancel(Indent(tab), k + rest, "export ");
    PrefixCancel(Indent(tab), k + rest, "export default ");
    if exp {
      var d := if expAs then "default " else "";
      assert k + rest == "export " + (d + rest);
      PrefixCancel("export ", d + rest, "default ");
      assert "export default " == "export " + "default ";
      if !expAs {
        assert (d + rest)[0] == 'c';
      }
    } else {
      assert (k + rest)[0] == 'c';
    }
  }

  /**
   * `GetClassDeclaration`: indentation, the export keywords, "class " and the name,
   * " extends " and the base class when there is one, " implements " and the
   * interface list when it is not empty.
   */
  function GetClassDeclaration(tab: int, name: string, inheritClass: string, interfaces: seq<string>,
                               exp: bool, expAs: bool): string {
    var ext := if inheritClass != "" then " extends " + inheritClass else "";
    var impl := if interfaces != [] then " implements " + Join(interfaces, ", ") else "";
    Indent(tab) + (ExportKeywords(exp, expAs) + ("class " + name + ext + impl))
  }

  /** "export " and "export default " start a class declaration exactly when the flags ask for them. */
  lemma ClassDeclarationExport(tab: int, name: string, inheritClass: string, interfaces: seq<string>,
                               exp: bool, expAs: bool)
    ensures var r := GetClassDeclaration(tab, name, inheritClass, interfaces, exp, expAs);
      && (exp <==> StartsWith(r, Indent(tab) + "export "))
      && (exp && expAs <==> StartsWith(r, Indent(tab) + "export default "))
      && (!exp ==> StartsWith(r, Indent(tab) + "class " + name))
  {
    var ext := if inheritClass != "" then " extends " + inheritClass else "";
    var impl := if interfaces != [] then " implements " + Join(interfaces, ", ") else "";
    ExportPrefix(tab, exp, expAs, name, "class " + name + ext + impl);
  }

  /**
   * The root-level CGHelper.ts variant: " extends" whenever there is a base class
   * or an interface, then the base class, a comma when both are present, and the
   * interface list. The word "implements" is never emitted.
   */
  function LegacyClassDeclaration(tab: int, name: string, inheritClass: string, interfaces: seq<string>,
                                  exp: bool, expAs: bool): string {
    Indent(tab) + (ExportKeywords(exp, expAs) + ("class " + name + LegacyHeritage(inheritClass, interfaces)))
  }

  /** The export keywords of the root-level variant follow the same rule. */
  lemma LegacyClassDeclarationExport(tab: int, name: string, inheritClass: string, interfaces: seq<string>,
                                     exp: bool, expAs: bool)
    ensures var r := LegacyClassDeclaration(tab, name, inheritClass, interfaces, exp, expAs);
      && (exp <==> StartsWith(r, Indent(tab) + "export "))
      && (exp && expAs <==> StartsWith(r, Indent(tab) + "export default "))
      && (!exp ==> StartsWith(r, Indent(tab) + "class " + name))
  {
    ExportPrefix(tab, exp, expAs, name, "class " + name + LegacyHeritage(inheritClass, interfaces));
  }

  /** The part of the root-level declaration after the class name. */
  function LegacyHeritage(inheritClass: string, interfaces: seq<string>): string {
    var ext := if inheritClass != "" || interfaces != [] then " extends" else "";
    var base := if inheritClass != "" then " " + inheritClass else "";
    var comma := if inheritClass != "" && interfaces != [] then "," else "";
    var list := if interfaces != [] then " " + Join(interfaces, ", ") else "";
    ext + base + comma + list
  }

  /**
   * The root-level heritage clause: " extends" exactly when there is a base
   * class or an interface, then the base class, then the interfaces after a
   * comma when both are present.
   */
  lemma LegacyHeritageShape(inheritClass: string, interfaces: seq<string>)
    ensures StartsWith(LegacyHeritage(inheritClass, interfaces), " extends") <==> inheritClass != "" || interfaces != []
    ensures inheritClass != "" && interfaces != [] ==>
              LegacyHeritage(inheritClass, interfaces) == " extends " + inheritClass + ", " + Join(interfaces, ", ")
    ensures inheritClass != "" && interfaces == [] ==> LegacyHeritage(inheritClass, interfaces) == " extends " + inheritClass
    ensures inheritClass == "" && interfaces != [] ==> LegacyHeritage(inheritClass, interfaces) == " extends " + Join(interfaces, ", ")
    ensures inheritClass == "" && interfaces == [] ==> LegacyHeritage(inheritClass, interfaces) == ""
  {
    var h := LegacyHeritage(inheritClass, interfaces);
    var list := Join(interfaces, ", ");
    if inheritClass != "" && interfaces != [] {
      assert h == " extends" + (" " + inheritClass) + "," + (" " + list);
      assert h == " extends " + inheritClass + ", " + list;
    } else if inheritClass != "" {
      assert h == " extends" + (" " + inheritClass) + "" + "";
      assert h == " extends " + inheritClass;
    } else if interfaces != [] {
      assert h == " extends" + "" + "" + (" " + list);
      assert h == " extends " + list;
    }
    if inheritClass != "" || interfaces != [] {
      assert StartsWith(h, " extends");
    }
  }

  /** Without interfaces the root-level class declaration is the src/ one. */
  lemma LegacyDeclarationWithoutInterfaces(tab: int, name: string, inheritClass: string, exp: bool, expAs: bool)
    ensures LegacyClassDeclaration(tab, name, inheritClass, [], exp, expAs)
            == GetClassDeclaration(tab, name, inheritClass, [], exp, expAs)
  {
    LegacyHeritageShape(inheritClass, []);
    var ext := if inheritClass != "" then " extends " + inheritClass else "";
    assert LegacyHeritage(inheritClass, []) == ext;
    assert "class " + name + ext == "class " + name + ext + "";
  }

  /** `GetInterfaceDeclaration`: indentation, "export " when exported, "interface " and the name. */
  function GetInterfaceDeclaration(tab: int, name: string, exp: bool): string {
    Indent(tab) + ((if exp then "export " else "") + ("interface " + name))
  }

  /**
   * "export " starts the interface declaration exactly when it is exported;
   * the helper takes no default-export flag, so "export default " never does.
   */
  lemma InterfaceDeclarationExport(tab: int, name: string, exp: bool)
    ensures var r := GetInterfaceDeclaration(tab, name, exp);
      && (exp <==> StartsWith(r, Indent(tab) + "export "))
      && !StartsWith(r, Indent(tab) + "export default ")
      && EndsWith(r, "interface " + name)
  {
    InterfacePrefix(tab, exp, name);
  }

  lemma InterfacePrefix(tab: int, exp: bool, name: string)
    ensures var rest := (if exp then "export " else "") + ("interface " + name);
      && (exp <==> StartsWith(Indent(tab) + rest, Indent(tab) + "export "))
      && !StartsWith(Indent(tab) + rest, Indent(tab) + "export default ")
      && EndsWith(Indent(tab) + rest, "interface " + name)
  {
    var tail := "interface " + name;
    var rest := (if exp then "export " else "") + tail;
    PrefixCancel(Indent(tab), rest, "export ");
    PrefixCancel(Indent(tab), rest, "export default ");
    if exp {
      assert rest[7] == 'i';
    } else {
      assert rest[0] == 'i';
    }
    EndsWithTail(Indent(tab), if exp then "export " else "", tail);
  }

  lemma EndsWithTail(a: string, b: string, c: string)
    ensures EndsWith(a + (b + c), c)
  {
    assert (a + (b + c))[|a + (b + c)| - |c|..] == c;
  }

  /** The access text as written into a property declaration: nothing for "public". */
  function PropertyAccess(access: string): string {
    if access != "public" then access else ""
  }

  /**
   * `GetPropertyDeclaration`: indentation, the access text unless it is "public"
   * (with no space after it), " static " when static, "name: type", " = value"
   * when the default value is not empty, and ";". The contract gives the
   * prefix up to the type, the suffix from the type on, and the length, so the
   * two overlap exactly and the whole text is fixed.
   */
  function GetPropertyDeclaration(tab: int, access: string, typeName: string, name: string,
                                  defaultValue: string, isStatic: bool): (r: string)
    ensures StartsWith(r, Indent(tab) + PropertyAccess(access) + (if isStatic then " static " else "") + name + ": " + typeName)
    ensures defaultValue != "" ==> EndsWith(r, ": " + typeName + " = " + defaultValue + ";")
    ensures defaultValue == "" ==> EndsWith(r, name + ": " + typeName + ";")
    ensures |r| == |Indent(tab) + PropertyAccess(access) + (if isStatic then " static " else "") + name + ": " + typeName|
                   + (if defaultValue != "" then 3 + |defaultValue| else 0) + 1
  {
    var head := Indent(tab) + PropertyAccess(access) + (if isStatic then " static " else "") + name + ": " + typeName;
    var tail := if defaultValue != "" then " = " + defaultValue else "";
    var r := head + tail + ";";
    assert |tail| == if defaultValue != "" then 3 + |defaultValue| else 0;
    assert defaultValue != "" ==> r == head[..|head| - |": " + typeName|] + (": " + typeName + " = " + defaultValue + ";");
    assert defaultValue == "" ==> r == head[..|head| - |name + ": " + typeName|] + (name + ": " + typeName + ";");
    r
  }

  /**
   * `GetMethodDeclaration`: indentation, the access text (always), " static",
   * " get" for a read-only method, " name(", the parameters joined with ", ",
   * "):" and the return type, or "void" when it is empty.
   */
  function GetMethodDeclaration(tab: int, access: string, returnType: string, name: string, isStatic: bool,
                                parameters: seq<string>, onlyRead: bool): string {
    Indent(tab) + access + (if isStatic then " static" else "") + (if onlyRead then " get" else "")
    + " " + name + "(" + Join(parameters, ", ") + "):" + (if returnType != "" then " " + returnType else " void")
  }

  /**
   * What a method declaration starts and ends with, and its length: the prefix
   * up to "):" and the suffix from "):" overlap in exactly that "):", which
   * fixes the whole text.
   */
  lemma MethodDeclarationShape(tab: int, access: string, returnType: string, name: string, isStatic: bool,
                               parameters: seq<string>, onlyRead: bool)
    ensures var r := GetMethodDeclaration(tab, access, returnType, name, isStatic, parameters, onlyRead);
      && StartsWith(r, Indent(tab) + access + (if isStatic then " static" else "") + (if onlyRead then " get" else "")
                       + " " + name + "(" + Join(parameters, ", ") + "):")
      && EndsWith(r, "): " + (if returnType != "" then returnType else "void"))
      && |r| == |Indent(tab) + access + (if isStatic then " static" else "") + (if onlyRead then " get" else "")
                  + " " + name + "(" + Join(parameters, ", ")| + 2 + (if returnType != "" then 1 + |returnType| else 5)
  {
    var head := Indent(tab) + access + (if isStatic then " static" else "") + (if onlyRead then " get" else "")
                + " " + name + "(" + Join(parameters, ", ");
    var r := head + "):" + (if returnType != "" then " " + returnType else " void");
    assert r == GetMethodDeclaration(tab, access, returnType, name, isStatic, parameters, onlyRead);
    assert r == head + ("): " + (if returnType != "" then returnType else "void"));
  }

  /** The line `EndCodeBlock` writes. */
  function BlockCloseLine(tab: int): string {
    Indent(tab) + "}"
  }

  /** The line `BeginRegion` writes. */
  function RegionStartLine(content: string, tab: int): string {
    Indent(tab) + "// #region " + content
  }

  /** The line `EndRegion` writes. */
  function RegionEndLine(tab: int): string {
    Indent(tab) + "// #endregion"
  }

  /**
   * The comment line every entity writes ahead of itself: present exactly when
   * the comment still has characters after trimming.
   */
  function CommentLines(comment: string, tab: int): (r: seq<string>)
    ensures |r| <= 1
    ensures r != [] <==> HasContent(comment)
    ensures r != [] ==> r[0] == GetComment(comment, tab)
    ensures forall line :: line in r ==> StartsWith(line, Indent(tab) + "/** ")
  {
    if HasContent(comment) then [GetComment(comment, tab)] else []
  }

  // ---------------------------------------------------------------------------
  // Helpers that write into the caller's buffer

  /** The comment step every entity's `WriteTo` starts with. */
  method WriteComment(sb: StringBuilder, comment: string, tab: int)
    modifies sb
    ensures sb.ToString() == old(sb.ToString()) + Unlines(CommentLines(comment, tab))
  {
    if comment != "" && HasContent(comment) {
      var c := GetComment(comment, tab);
      var _ := sb.AppendLine(c);
      FirstLine(old(sb.ToString()), c);
    } else {
      assert old(sb.ToString()) + Unlines([]) == old(sb.ToString());
    }
  }

  /**
   * The opening of every block an entity writes: its comment step, the
   * declaration with `Append`, then `BeginCodeBlock`.
   */
  method OpenBlock(sb: StringBuilder, comment: string, decl: string, tab: int)
    modifies sb
    ensures sb.ToString() == old(sb.ToString()) + Unlines(CommentLines(comment, tab) + [decl + " {"])
  {
    ghost var c := CommentLines(comment, tab);
    WriteComment(sb, comment, tab);
    ghost var t1 := sb.ToString();
    var _ := sb.Append(decl);
    BeginCodeBlock(sb);
    assert sb.ToString() == t1 + decl + " {\n";
    OpenLine(old(sb.ToString()), c, decl, t1, sb.ToString());
  }

  lemma OpenLine(t0: string, c: seq<string>, decl: string, t1: string, t2: string)
    requires t1 == t0 + Unlines(c)
    requires t2 == t1 + decl + " {\n"
    ensures t2 == t0 + Unlines(c + [decl + " {"])
  {
    UnlinesSnoc(c, decl + " {");
    assert decl + " {\n" == (decl + " {") + "\n";
  }

  /** `BeginCodeBlock`: " {" and a newline, appended to whatever line is open. */
  method BeginCodeBlock(sb: StringBuilder)
    modifies sb
    ensures sb.parts == old(sb.parts) + [" {\n"]
    ensures sb.ToString() == old(sb.ToString()) + " {\n"
  {
    var _ := sb.AppendLine(" {");
    assert " {" + "\n" == " {\n";
  }

  method EndCodeBlock(sb: StringBuilder, tab: int)
    modifies sb
    ensures sb.parts == old(sb.parts) + [BlockCloseLine(tab) + "\n"]
    ensures sb.ToString() == old(sb.ToString()) + Unlines([BlockCloseLine(tab)])
  {
    var indent := Tab(tab);
    var _ := sb.AppendLine(indent + "}");
  }

  method BeginRegion(sb: StringBuilder, content: string, tab: int)
    modifies sb
    ensures sb.parts == old(sb.parts) + [RegionStartLine(content, tab) + "\n"]
    ensures sb.ToString() == old(sb.ToString()) + Unlines([RegionStartLine(content, tab)])
  {
    var indent := Tab(tab);
    var _ := sb.AppendLine(indent + "// #region " + content);
  }

  method EndRegion(sb: StringBuilder, tab: int)
    modifies sb
    ensures sb.parts == old(sb.parts) + [RegionEndLine(tab) + "\n"]
    ensures sb.ToString() == old(sb.ToString()) + Unlines([RegionEndLine(tab)])
  {
    var indent := Tab(tab);
    var _ := sb.AppendLine(indent + "// #endregion");
  }

  // ---------------------------------------------------------------------------
  // Code blocks: the lines an entity writes around its members

  /** Where the opening line, the body lines and the closing line of a block sit. */
  lemma BlockLayout(c: seq<string>, open: string, body: seq<string>, close: string)
    ensures var lines := c + [open] + body + [close];
      && |lines| == |c| + |body| + 2
      && lines[|c|] == open
      && (forall i :: 0 <= i < |body| ==> lines[|c| + 1 + i] == body[i])
      && lines[|lines| - 1] == close
  {
  }

  /**
   * A line written ahead of a block's declaration (a comment or a decorator)
   * carries a character other than "}" right after the block's indentation.
   */
  predicate HeadLine(line: string, tab: int) {
    |line| > |Indent(tab)| && line[|Indent(tab)|] != '}'
  }

  lemma CommentLinesHead(comment: string, tab: int)
    ensures forall line :: line in CommentLines(comment, tab) ==> HeadLine(line, tab)
  {
    if HasContent(comment) {
      var line := GetComment(comment, tab);
      assert CommentLines(comment, tab) == [line];
      assert line[|Indent(tab)|] == (Indent(tab) + "/** ")[|Indent(tab)|];
    }
  }

  /**
   * The closing line of a block occurs nowhere before it when the lines ahead
   * of the declaration are comments or decorators and the lines in the block
   * are indented one level deeper (or empty).
   */
  lemma ClosesOnce(head: seq<string>, decl: string, body: seq<string>, tab: int)
    requires tab >= 0
    requires forall line :: line in head ==> HeadLine(line, tab)
    requires forall line :: line in body ==> line == "" || StartsWith(line, Indent(tab + 1))
    ensures BlockCloseLine(tab) !in head + [decl + " {"] + body
  {
    var close := BlockCloseLine(tab);
    var k := |Indent(tab)|;
    assert |close| == k + 1 && close[k] == '}';
    assert (decl + " {")[|decl + " {"| - 1] == '{';
    forall line | line in body
      ensures line != close
    {
      assert |Indent(tab + 1)| == k + 4;
    }
  }

  /**
   * The layout of a block: the head lines, the declaration with " {", the body
   * and the closing line, which occurs only there.
   */
  lemma BlockShape(head: seq<string>, decl: string, body: seq<string>, tab: int)
    requires tab >= 0
    requires forall line :: line in head ==> HeadLine(line, tab)
    requires forall line :: line in body ==> line == "" || StartsWith(line, Indent(tab + 1))
    ensures var lines := head + [decl + " {"] + body + [BlockCloseLine(tab)];
      && |lines| == |head| + |body| + 2
      && lines[..|head|] == head
      && lines[|head|] == decl + " {"
      && lines[|head| + 1..|lines| - 1] == body
      && lines[|lines| - 1] == BlockCloseLine(tab)
      && multiset(lines)[BlockCloseLine(tab)] == 1
  {
    var close := BlockCloseLine(tab);
    var lines := head + [decl + " {"] + body + [close];
    assert lines[..|head|] == head;
    assert lines[|head| + 1..|lines| - 1] == body;
    ClosesOnce(head, decl, body, tab);
    OccursOnceAtEnd(head + [decl + " {"] + body, close);
  }

  /** How the opening lines, the body lines and the closing line of a block add up. */
  lemma BlockClosed(t0: string, open: seq<string>, body: seq<string>, close: string,
                    t2: string, t3: string, t4: string)
    requires t2 == t0 + Unlines(open)
    requires t3 == t2 + Unlines(body)
    requires t4 == t3 + Unlines([close])
    ensures t4 == t0 + Unlines(open + body + [close])
  {
    UnlinesAppend(open + body, [close]);
    UnlinesAppend(open, body);
  }

  /** The text of a block written as its opening lines, then its body together with its closing line. */
  lemma BlockJoined(t0: string, open: seq<string>, body: seq<string>, close: string, t1: string, t2: string)
    requires t1 == t0 + Unlines(open)
    requires t2 == t1 + Unlines(body + [close])
    ensures t2 == t0 + Unlines(open + body + [close])
  {
    LinesAppended(t0, open, body + [close]);
    assert open + (body + [close]) == open + body + [close];
  }

  /** The text of a block's lines. */
  lemma BlockUnlines(c: seq<string>, open: string, body: seq<string>, close: string)
    ensures Unlines(c + [open] + body + [close]) == Unlines(c) + open + "\n" + Unlines(body) + close + "\n"
  {
    UnlinesAppend(c + [open] + body, [close]);
    UnlinesAppend(c + [open], body);
    UnlinesSnoc(c, open);
    UnlinesSnoc([], close);
  }
}
