/**
 * The class and interface declaration lines read as words. A declaration line
 * is its words joined by single spaces (indentation shows up as leading empty
 * words), so splitting it on spaces and reading the words back recovers every
 * argument of the helper that wrote it, as long as the names contain no space
 * (a class name with a space can pass for an " extends" clause). An interface
 * declaration is read back from its characters, so any name comes back.
 * This is the partner of `GetClassDeclaration` and `GetInterfaceDeclaration`,
 * and the yardstick against which the root-level declaration loses information.
 */
module Declarations {
  import opened Options
  import opened Strings
  import opened CGHelper

  // ---------------------------------------------------------------------------
  // Words and spacing

  predicate NoSpace(w: string) {
    ' ' !in w
  }

  function EmptyWords(k: nat): (ws: seq<string>)
    ensures |ws| == k && forall i :: 0 <= i < k ==> ws[i] == ""
  {
    seq(k, _ => "")
  }

  /** Each word preceded by one space. */
  function Spaced(ws: seq<string>): string {
    if ws == [] then "" else " " + ws[0] + Spaced(ws[1..])
  }

  lemma {:induction false} SpacedAppend(a: seq<string>, b: seq<string>)
    ensures Spaced(a + b) == Spaced(a) + Spaced(b)
  {
    if a == [] {
      assert a + b == b;
    } else {
      assert (a + b)[1..] == a[1..] + b;
      SpacedAppend(a[1..], b);
    }
  }

  lemma {:induction false} JoinSpaced(ws: seq<string>)
    requires ws != []
    ensures Join(ws, " ") == ws[0] + Spaced(ws[1..])
  {
    if |ws| > 1 {
      JoinSpaced(ws[1..]);
      assert ws[1..][1..] == ws[2..];
    }
  }

  lemma SpacedOne(a: string)
    ensures Spaced([a]) == " " + a
  {
    assert [a][1..] == [];
  }

  lemma SpacedCons(a: string, rest: seq<string>)
    ensures Spaced([a] + rest) == " " + a + Spaced(rest)
  {
    assert ([a] + rest)[1..] == rest;
  }

  lemma {:induction false} SpacedEmpties(k: nat)
    ensures Spaced(EmptyWords(k)) == Repeat(' ', k)
  {
    if k > 0 {
      assert EmptyWords(k) == EmptyWords(k - 1) + [""];
      SpacedAppend(EmptyWords(k - 1), [""]);
      SpacedEmpties(k - 1);
    }
  }

  function IndentWidth(tab: int): nat {
    if tab <= 0 then 0 else 4 * tab
  }

  lemma IndentSpaces(tab: int)
    ensures Indent(tab) == Repeat(' ', IndentWidth(tab))
  {
  }

  /** Leading empty words join into as many spaces. */
  lemma {:induction false} IndentedJoin(k: nat, first: string, rest: seq<string>)
    ensures Join(EmptyWords(k) + [first] + rest, " ") == Repeat(' ', k) + first + Spaced(rest)
  {
    var ws := EmptyWords(k) + [first] + rest;
    if k == 0 {
      JoinSpaced(ws);
      assert ws == [first] + rest;
      assert ws[1..] == rest;
    } else {
      var tail := EmptyWords(k - 1) + [first] + rest;
      IndentedJoin(k - 1, first, rest);
      assert ws == [""] + tail;
      JoinCons("", tail);
      assert Join(ws, " ") == " " + (Repeat(' ', k - 1) + first + Spaced(rest));
      SpacesSwap(k - 1);
    }
  }

  lemma JoinCons(a: string, ws: seq<string>)
    requires ws != []
    ensures Join([a] + ws, " ") == a + " " + Join(ws, " ")
  {
    assert ([a] + ws)[1..] == ws;
  }

  lemma {:induction false} SpacesSwap(n: nat)
    ensures " " + Repeat(' ', n) == Repeat(' ', n + 1)
  {
    if n > 0 {
      SpacesSwap(n - 1);
      assert " " + Repeat(' ', n) == (" " + Repeat(' ', n - 1)) + " ";
    }
  }

  /** The number of empty words in front of the first non-empty one. */
  function LeadingEmpties(ws: seq<string>): (k: nat)
    ensures k <= |ws|
  {
    if ws != [] && ws[0] == "" then 1 + LeadingEmpties(ws[1..]) else 0
  }

  lemma {:induction false} LeadingEmptiesOf(k: nat, rest: seq<string>)
    requires rest != [] && rest[0] != ""
    ensures LeadingEmpties(EmptyWords(k) + rest) == k
    ensures (EmptyWords(k) + rest)[k..] == rest
  {
    var ws := EmptyWords(k) + rest;
    if k > 0 {
      assert ws[1..] == EmptyWords(k - 1) + rest;
      LeadingEmptiesOf(k - 1, rest);
    }
  }

  // ---------------------------------------------------------------------------
  // Comma-separated lists

  /** A list joined with ", " read as words: every item but the last carries a comma. */
  function ListWords(items: seq<string>): (ws: seq<string>)
    requires items != []
    ensures |ws| == |items|
  {
    if |items| == 1 then [items[0]] else [items[0] + ","] + ListWords(items[1..])
  }

  function ParseList(ws: seq<string>): Option<seq<string>> {
    if ws == [] then None
    else if |ws| == 1 then Some([ws[0]])
    else if ws[0] != "" && ws[0][|ws[0]| - 1] == ',' then
      var rest := ParseList(ws[1..]);
      if rest.Some? then Some([ws[0][..|ws[0]| - 1]] + rest.value) else None
    else None
  }

  lemma {:induction false} ListWordsJoin(items: seq<string>)
    requires items != []
    ensures Spaced(ListWords(items)) == " " + Join(items, ", ")
  {
    if |items| > 1 {
      ListWordsJoin(items[1..]);
      assert ListWords(items)[1..] == ListWords(items[1..]);
    }
  }

  lemma {:induction false} ListWordsRoundTrip(items: seq<string>)
    requires items != []
    ensures ParseList(ListWords(items)) == Some(items)
  {
    if |items| > 1 {
      ListWordsRoundTrip(items[1..]);
      var w := items[0] + ",";
      var ws := ListWords(items);
      assert ws == [w] + ListWords(items[1..]);
      assert ws[0] == w && ws[1..] == ListWords(items[1..]);
      assert w != "" && w[..|w| - 1] == items[0] && w[|w| - 1] == ',';
      assert ParseList(ws) == Some([items[0]] + items[1..]);
      assert items == [items[0]] + items[1..];
    } else {
      assert items == [items[0]];
    }
  }

  lemma {:induction false} ListWordsNoSpace(items: seq<string>)
    requires items != []
    requires forall i :: 0 <= i < |items| ==> NoSpace(items[i])
    ensures forall i :: 0 <= i < |items| ==> NoSpace(ListWords(items)[i])
  {
    if |items| > 1 {
      ListWordsNoSpace(items[1..]);
      forall i | 0 <= i < |items|
        ensures NoSpace(ListWords(items)[i])
      {
        if i > 0 {
          assert ListWords(items)[i] == ListWords(items[1..])[i - 1];
        }
      }
    }
  }

  // ---------------------------------------------------------------------------
  // Class declarations

  /** The arguments of `GetClassDeclaration` that its text preserves. */
  datatype ClassHead = ClassHead(tab: nat, name: string, inheritClass: string, interfaces: seq<string>,
                                 exp: bool, expAs: bool)

  /** The words after the indentation and the first keyword. */
  function ClassTailWords(name: string, inheritClass: string, interfaces: seq<string>): seq<string> {
    [name] + ExtendsWords(inheritClass) + ImplementsWords(interfaces)
  }

  function ExportWords(exp: bool, expAs: bool): seq<string> {
    if exp then ["export"] + (if expAs then ["default"] else []) else []
  }

  function ClassWords(tab: int, name: string, inheritClass: string, interfaces: seq<string>,
                      exp: bool, expAs: bool): seq<string> {
    EmptyWords(IndentWidth(tab)) + (ExportWords(exp, expAs) + (["class"] + ClassTailWords(name, inheritClass, interfaces)))
  }

  /** Reads the optional "export" and "default" in front of the rest of the words. */
  function ParseExportWords(ws: seq<string>): (bool, bool, seq<string>) {
    var exp := |ws| >= 1 && ws[0] == "export";
    var r1 := if exp then ws[1..] else ws;
    var expAs := exp && |r1| >= 1 && r1[0] == "default";
    (exp, expAs, if expAs then r1[1..] else r1)
  }

  /** Reads the optional "extends B" and "implements I1, I2" clauses. */
  function ParseHeritage(ws: seq<string>): Option<(string, seq<string>)> {
    var hasBase := |ws| >= 2 && ws[0] == "extends";
    var base := if hasBase then ws[1] else "";
    var rest := if hasBase then ws[2..] else ws;
    if rest == [] then Some((base, []))
    else if |rest| >= 2 && rest[0] == "implements" then
      var items := ParseList(rest[1..]);
      if items.Some? then Some((base, items.value)) else None
    else None
  }

  /** Reads a class declaration's words back into the declaration's arguments. */
  function ParseClassWords(ws: seq<string>): Option<ClassHead> {
    var k := LeadingEmpties(ws);
    if k % 4 != 0 then None
    else
      var (exp, expAs, r2) := ParseExportWords(ws[k..]);
      if |r2| < 2 || r2[0] != "class" then None
      else
        var heritage := ParseHeritage(r2[2..]);
        if heritage.Some? then Some(ClassHead(k / 4, r2[1], heritage.value.0, heritage.value.1, exp, expAs))
        else None
  }

  function ParseClassDeclaration(line: string): Option<ClassHead> {
    ParseClassWords(Split(line, ' '))
  }

  function ExtendsWords(inheritClass: string): seq<string> {
    if inheritClass != "" then ["extends", inheritClass] else []
  }

  function ImplementsWords(interfaces: seq<string>): seq<string> {
    if interfaces != [] then ["implements"] + ListWords(interfaces) else []
  }

  lemma ExtendsText(inheritClass: string)
    ensures Spaced(ExtendsWords(inheritClass)) == if inheritClass != "" then " extends " + inheritClass else ""
  {
    if inheritClass != "" {
      SpacedCons("extends", [inheritClass]);
      SpacedOne(inheritClass);
      assert " extends" + (" " + inheritClass) == " extends " + inheritClass;
    }
  }

  lemma ImplementsText(interfaces: seq<string>)
    ensures Spaced(ImplementsWords(interfaces))
            == if interfaces != [] then " implements " + Join(interfaces, ", ") else ""
  {
    if interfaces != [] {
      SpacedCons("implements", ListWords(interfaces));
      ListWordsJoin(interfaces);
      assert " implements" + (" " + Join(interfaces, ", ")) == " implements " + Join(interfaces, ", ");
    }
  }

  lemma ClassTailText(name: string, inheritClass: string, interfaces: seq<string>)
    ensures Spaced(ClassTailWords(name, inheritClass, interfaces))
            == " " + name + Spaced(ExtendsWords(inheritClass)) + Spaced(ImplementsWords(interfaces))
  {
    var b, i := ExtendsWords(inheritClass), ImplementsWords(interfaces);
    assert ClassTailWords(name, inheritClass, interfaces) == [name] + b + i;
    SpacedAppend([name] + b, i);
    SpacedAppend([name], b);
    SpacedOne(name);
  }

  /** The declaration text with its tail written as spaced words. */
  lemma ClassDeclarationText(tab: int, name: string, inheritClass: string, interfaces: seq<string>,
                             exp: bool, expAs: bool)
    ensures GetClassDeclaration(tab, name, inheritClass, interfaces, exp, expAs)
            == Indent(tab) + (ExportKeywords(exp, expAs) + ("class" + Spaced(ClassTailWords(name, inheritClass, interfaces))))
  {
    var ext := if inheritClass != "" then " extends " + inheritClass else "";
    var impl := if interfaces != [] then " implements " + Join(interfaces, ", ") else "";
    ClassTailText(name, inheritClass, interfaces);
    ExtendsText(inheritClass);
    ImplementsText(interfaces);
    assert "class " == "class" + " ";
    TailJoined("class", " ", name, ext, impl, Spaced(ClassTailWords(name, inheritClass, interfaces)));
  }

  lemma TailJoined(c: string, sp: string, name: string, ext: string, impl: string, t: string)
    requires t == sp + name + ext + impl
    ensures c + t == (c + sp) + name + ext + impl
  {
  }

  /** The joined words, with the indentation and the keywords in front of the tail. */
  lemma ClassWordsText(tab: int, name: string, inheritClass: string, interfaces: seq<string>,
                       exp: bool, expAs: bool)
    ensures Join(ClassWords(tab, name, inheritClass, interfaces, exp, expAs), " ")
            == Repeat(' ', IndentWidth(tab)) + (ExportKeywords(exp, expAs) + ("class" + Spaced(ClassTailWords(name, inheritClass, interfaces))))
  {
    var t := ClassTailWords(name, inheritClass, interfaces);
    var k := IndentWidth(tab);
    if exp {
      var d := if expAs then ["default"] else [];
      WordsRegrouped(EmptyWords(k), ExportWords(exp, expAs), "export", d, ["class"] + t);
      ExportedWordsText(k, expAs, t);
    } else {
      NoWordsRegrouped(EmptyWords(k), ExportWords(exp, expAs), "class", t);
      IndentedJoin(k, "class", t);
    }
  }

  lemma WordsRegrouped(e: seq<string>, x: seq<string>, w: string, d: seq<string>, c: seq<string>)
    requires x == [w] + d
    ensures e + (x + c) == e + [w] + (d + c)
  {
  }

  lemma NoWordsRegrouped(e: seq<string>, x: seq<string>, w: string, t: seq<string>)
    requires x == []
    ensures e + (x + ([w] + t)) == e + [w] + t
  {
  }

  lemma ExportedWordsText(k: nat, expAs: bool, t: seq<string>)
    ensures Join(EmptyWords(k) + ["export"] + ((if expAs then ["default"] else []) + (["class"] + t)), " ")
            == Repeat(' ', k) + (ExportKeywords(true, expAs) + ("class" + Spaced(t)))
  {
    var d := if expAs then ["default"] else [];
    var dk := if expAs then "default " else "";
    IndentedJoin(k, "export", d + (["class"] + t));
    SpacedAppend(d, ["class"] + t);
    SpacedCons("class", t);
    if expAs {
      SpacedOne("default");
      assert (" " + "default") + " " == " " + "default ";
    } else {
      assert d + (["class"] + t) == ["class"] + t;
      assert Spaced(d) + " " == " " + dk;
    }
    KeywordsText(Repeat(' ', k), Spaced(d), dk, Spaced(t));
  }

  /** The declaration line is its words joined by spaces. */
  lemma ClassDeclarationWords(tab: int, name: string, inheritClass: string, interfaces: seq<string>,
                              exp: bool, expAs: bool)
    ensures GetClassDeclaration(tab, name, inheritClass, interfaces, exp, expAs)
            == Join(ClassWords(tab, name, inheritClass, interfaces, exp, expAs), " ")
  {
    ClassDeclarationText(tab, name, inheritClass, interfaces, exp, expAs);
    ClassWordsText(tab, name, inheritClass, interfaces, exp, expAs);
    IndentSpaces(tab);
  }

  lemma KeywordsText(r: string, spacedDefault: string, defaultKeyword: string, x: string)
    requires spacedDefault + " " == " " + defaultKeyword
    ensures (r + "export") + (spacedDefault + ((" " + "class") + x))
            == r + (("export " + defaultKeyword) + ("class" + x))
  {
    calc {
      (r + "export") + (spacedDefault + ((" " + "class") + x));
      r + ("export" + (spacedDefault + " ") + ("class" + x));
      r + ("export" + (" " + defaultKeyword) + ("class" + x));
      { assert "export" + " " == "export "; }
      r + (("export " + defaultKeyword) + ("class" + x));
    }
  }

  predicate AllNoSpace(ws: seq<string>) {
    forall i :: 0 <= i < |ws| ==> NoSpace(ws[i])
  }

  lemma AllNoSpaceAppend(a: seq<string>, b: seq<string>)
    requires AllNoSpace(a) && AllNoSpace(b)
    ensures AllNoSpace(a + b)
  {
    forall i | 0 <= i < |a + b|
      ensures NoSpace((a + b)[i])
    {
      if i >= |a| {
        assert (a + b)[i] == b[i - |a|];
      }
    }
  }

  lemma ClassWordsNoSpace(tab: int, name: string, inheritClass: string, interfaces: seq<string>,
                          exp: bool, expAs: bool)
    requires NoSpace(name) && NoSpace(inheritClass)
    requires forall i :: 0 <= i < |interfaces| ==> NoSpace(interfaces[i])
    ensures var ws := ClassWords(tab, name, inheritClass, interfaces, exp, expAs);
      |ws| >= 1 && forall i :: 0 <= i < |ws| ==> NoSpace(ws[i])
  {
    var ext, impl := ExtendsWords(inheritClass), ImplementsWords(interfaces);
    assert AllNoSpace(impl) by {
      if interfaces != [] {
        ListWordsNoSpace(interfaces);
        AllNoSpaceAppend(["implements"], ListWords(interfaces));
      }
    }
    assert AllNoSpace(ext);
    AllNoSpaceAppend([name], ext);
    AllNoSpaceAppend([name] + ext, impl);
    var tail := ClassTailWords(name, inheritClass, interfaces);
    AllNoSpaceAppend(["class"], tail);
    assert AllNoSpace(ExportWords(exp, expAs));
    AllNoSpaceAppend(ExportWords(exp, expAs), ["class"] + tail);
    assert AllNoSpace(EmptyWords(IndentWidth(tab)));
    AllNoSpaceAppend(EmptyWords(IndentWidth(tab)), ExportWords(exp, expAs) + (["class"] + tail));
  }

  lemma HeritageParse(inheritClass: string, interfaces: seq<string>)
    ensures ParseHeritage(ExtendsWords(inheritClass) + ImplementsWords(interfaces)) == Some((inheritClass, interfaces))
  {
    var b, i := ExtendsWords(inheritClass), ImplementsWords(interfaces);
    if inheritClass != "" {
      assert (b + i)[2..] == i;
    } else {
      assert b + i == i;
    }
    if interfaces != [] {
      ListWordsRoundTrip(interfaces);
      assert i[1..] == ListWords(interfaces);
    }
  }

  lemma ExportParse(exp: bool, expAs: bool, rest: seq<string>)
    requires rest != [] && rest[0] == "class"
    ensures ParseExportWords(ExportWords(exp, expAs) + rest) == (exp, exp && expAs, rest)
  {
    var e := ExportWords(exp, expAs);
    if exp {
      var d := if expAs then ["default"] else [];
      assert (e + rest)[1..] == d + rest;
      if expAs {
        assert (d + rest)[1..] == rest;
      } else {
        assert d + rest == rest;
      }
    } else {
      assert e + rest == rest;
    }
  }

  lemma DropTwo(a: string, b: string, rest: seq<string>)
    ensures ([a] + ([b] + rest))[2..] == rest
  {
  }

  /** The parser's stages put together. */
  lemma ParseClassStages(ws: seq<string>, k: nat, exp: bool, expAs: bool, r2: seq<string>,
                         name: string, inheritClass: string, interfaces: seq<string>)
    requires LeadingEmpties(ws) == k && k % 4 == 0
    requires ParseExportWords(ws[k..]) == (exp, expAs, r2)
    requires |r2| >= 2 && r2[0] == "class" && r2[1] == name
    requires ParseHeritage(r2[2..]) == Some((inheritClass, interfaces))
    ensures ParseClassWords(ws) == Some(ClassHead(k / 4, name, inheritClass, interfaces, exp, expAs))
  {
  }

  lemma ClassWordsParse(tab: int, name: string, inheritClass: string, interfaces: seq<string>,
                        exp: bool, expAs: bool)
    ensures ParseClassWords(ClassWords(tab, name, inheritClass, interfaces, exp, expAs))
            == Some(ClassHead(IndentWidth(tab) / 4, name, inheritClass, interfaces, exp, exp && expAs))
  {
    var k := IndentWidth(tab);
    var r2 := ["class"] + ClassTailWords(name, inheritClass, interfaces);
    assert r2 == ["class"] + ([name] + (ExtendsWords(inheritClass) + ImplementsWords(interfaces)));
    var w := ExportWords(exp, expAs) + r2;
    var ws := ClassWords(tab, name, inheritClass, interfaces, exp, expAs);
    assert LeadingEmpties(ws) == k && ws[k..] == w by {
      assert ws == EmptyWords(k) + w;
      LeadingEmptiesOf(k, w);
    }
    assert k % 4 == 0;
    assert ParseExportWords(ws[k..]) == (exp, exp && expAs, r2) by {
      ExportParse(exp, expAs, r2);
    }
    assert |r2| >= 2 && r2[0] == "class" && r2[1] == name;
    assert ParseHeritage(r2[2..]) == Some((inheritClass, interfaces)) by {
      DropTwo("class", name, ExtendsWords(inheritClass) + ImplementsWords(interfaces));
      HeritageParse(inheritClass, interfaces);
    }
    ParseClassStages(ws, k, exp, exp && expAs, r2, name, inheritClass, interfaces);
  }

  /**
   * Round trip: reading a class declaration back yields its indentation level
   * (a negative level writes nothing), name, base class, interfaces, `export`
   * flag, and `exportAsDefault` exactly when `export` is also set.
   */
  lemma ClassDeclarationRoundTrip(tab: int, name: string, inheritClass: string, interfaces: seq<string>,
                                  exp: bool, expAs: bool)
    requires NoSpace(name) && NoSpace(inheritClass)
    requires forall i :: 0 <= i < |interfaces| ==> NoSpace(interfaces[i])
    ensures ParseClassDeclaration(GetClassDeclaration(tab, name, inheritClass, interfaces, exp, expAs))
            == Some(ClassHead(if tab <= 0 then 0 else tab, name, inheritClass, interfaces, exp, exp && expAs))
  {
    var ws := ClassWords(tab, name, inheritClass, interfaces, exp, expAs);
    var line := GetClassDeclaration(tab, name, inheritClass, interfaces, exp, expAs);
    assert Split(line, ' ') == ws by {
      ClassDeclarationWords(tab, name, inheritClass, interfaces, exp, expAs);
      ClassWordsNoSpace(tab, name, inheritClass, interfaces, exp, expAs);
      assert [' '] == " ";
      SplitJoin(ws, ' ');
    }
    ClassWordsParse(tab, name, inheritClass, interfaces, exp, expAs);
    assert IndentWidth(tab) / 4 == if tab <= 0 then 0 else tab;
  }

  /**
   * A base class and a first interface are written apart: for every name, base
   * class and interface list, base class B with interfaces I... and no base
   * class with interfaces B, I... give different declarations. Both share the
   * text up to the name; the next word starts with 'e' (" extends") in one and
   * with 'i' (" implements") in the other.
   */
  lemma ClassDeclarationKeepsBaseApart(tab: int, name: string, inheritClass: string, interfaces: seq<string>,
                                       exp: bool, expAs: bool)
    requires inheritClass != ""
    ensures GetClassDeclaration(tab, name, inheritClass, interfaces, exp, expAs)
            != GetClassDeclaration(tab, name, "", [inheritClass] + interfaces, exp, expAs)
  {
    var ext := " extends " + inheritClass;
    var impl := if interfaces != [] then " implements " + Join(interfaces, ", ") else "";
    var other := " implements " + Join([inheritClass] + interfaces, ", ");
    assert ext[1] == 'e' && other[1] == 'i';
    DifferAfter(Indent(tab), ExportKeywords(exp, expAs), "class " + name, ext, impl, other);
  }

  /** Two texts that agree up to a point and differ in the character after the next. */
  lemma DifferAfter(ind: string, keywords: string, head: string, x: string, rest: string, y: string)
    requires |x| > 1 && |y| > 1 && x[1] != y[1]
    ensures ind + (keywords + (head + x + rest)) != ind + (keywords + (head + "" + y))
  {
    var p := |ind| + |keywords| + |head| + 1;
    assert (ind + (keywords + (head + x + rest)))[p] == x[1];
    assert (ind + (keywords + (head + "" + y)))[p] == y[1];
  }

  /**
   * The root-level declaration cannot tell a base class from a first interface:
   * `extends B, I...` is written both for base class B with interfaces I... and
   * for no base class and interfaces B, I...
   */
  lemma LegacyBaseInterfaceCollision(tab: int, name: string, inheritClass: string, interfaces: seq<string>,
                                     exp: bool, expAs: bool)
    requires inheritClass != ""
    ensures LegacyClassDeclaration(tab, name, inheritClass, interfaces, exp, expAs)
            == LegacyClassDeclaration(tab, name, "", [inheritClass] + interfaces, exp, expAs)
  {
    LegacyHeritageCollision(inheritClass, interfaces);
  }

  lemma LegacyHeritageCollision(inheritClass: string, interfaces: seq<string>)
    requires inheritClass != ""
    ensures LegacyHeritage(inheritClass, interfaces) == LegacyHeritage("", [inheritClass] + interfaces)
  {
    var all := [inheritClass] + interfaces;
    if interfaces == [] {
      assert Join(all, ", ") == inheritClass;
    } else {
      assert all[1..] == interfaces;
      assert Join(all, ", ") == inheritClass + ", " + Join(interfaces, ", ");
    }
  }

  // ---------------------------------------------------------------------------
  // Interface declarations

  /** The arguments of `GetInterfaceDeclaration`. */
  datatype InterfaceHead = InterfaceHead(tab: nat, name: string, exp: bool)

  /** The number of spaces a text starts with. */
  function LeadingSpaces(s: string): (k: nat)
    ensures k <= |s|
    ensures forall i :: 0 <= i < k ==> s[i] == ' '
    ensures k < |s| ==> s[k] != ' '
  {
    if s != [] && s[0] == ' ' then 1 + LeadingSpaces(s[1..]) else 0
  }

  lemma {:induction false} LeadingSpacesOf(k: nat, rest: string)
    requires rest != [] && rest[0] != ' '
    ensures LeadingSpaces(Repeat(' ', k) + rest) == k
  {
    if k > 0 {
      var s := Repeat(' ', k) + rest;
      SpacesSwap(k - 1);
      assert s == " " + (Repeat(' ', k - 1) + rest);
      assert s[1..] == Repeat(' ', k - 1) + rest;
      LeadingSpacesOf(k - 1, rest);
    }
  }

  /**
   * Reads an interface declaration back: the indentation, an optional "export ",
   * then "interface " and the name, which is the whole rest of the line (so it
   * may contain spaces).
   */
  function ParseInterfaceDeclaration(line: string): Option<InterfaceHead> {
    var k := LeadingSpaces(line);
    var r0 := line[k..];
    var exp := StartsWith(r0, "export ");
    var r1 := if exp then r0[7..] else r0;
    if k % 4 == 0 && StartsWith(r1, "interface ") then Some(InterfaceHead(k / 4, r1[10..], exp)) else None
  }

  /**
   * Round trip: the interface declaration keeps its indentation level (a
   * negative level writes nothing), its name, whatever characters it holds,
   * and its `export` flag.
   */
  lemma InterfaceDeclarationRoundTrip(tab: int, name: string, exp: bool)
    ensures ParseInterfaceDeclaration(GetInterfaceDeclaration(tab, name, exp))
            == Some(InterfaceHead(if tab <= 0 then 0 else tab, name, exp))
  {
    var k := IndentWidth(tab);
    var tail := "interface " + name;
    var rest := (if exp then "export " else "") + tail;
    var line := GetInterfaceDeclaration(tab, name, exp);
    IndentSpaces(tab);
    assert line == Repeat(' ', k) + rest;
    assert rest[0] == if exp then 'e' else 'i';
    LeadingSpacesOf(k, rest);
    assert line[k..] == rest;
    if exp {
      assert StartsWith(rest, "export ");
      assert rest[7..] == tail;
    } else {
      assert !StartsWith(rest, "export ") by {
        assert rest[0] == 'i';
      }
    }
    var r1 := if exp then rest[7..] else rest;
    assert r1 == tail;
    assert StartsWith(r1, "interface ") && r1[10..] == name;
    assert LeadingSpaces(line) == k && k % 4 == 0;
    assert k / 4 == if tab <= 0 then 0 else tab;
  }
}
