/** An optional value, for the source's nullable fields. */
module Options {
  datatype Option<T> = None | Some(value: T)
}

/**
 * String utilities the generator relies on: the concatenations performed by
 * `Array.prototype.join`, line assembly, `String.prototype.trim`, decimal
 * rendering of numbers and `padStart`.
 */
module Strings {
  import opened Options

  predicate StartsWith(s: string, prefix: string) {
    prefix <= s
  }

  predicate EndsWith(s: string, suffix: string) {
    |suffix| <= |s| && s[|s| - |suffix|..] == suffix
  }

  /** A common prefix does not change whether one string starts with another. */
  lemma PrefixCancel(p: string, a: string, b: string)
    ensures StartsWith(p + a, p + b) <==> StartsWith(a, b)
  {
    if StartsWith(p + a, p + b) {
      assert a[..|b|] == (p + a)[|p|..|p| + |b|] == (p + b)[|p|..];
    }
    if StartsWith(a, b) {
      assert p + a == (p + b) + a[|b|..];
    }
  }

  lemma StartsWithExtended(s: string, p: string, t: string)
    requires StartsWith(s, p)
    ensures StartsWith(s + t, p)
  {
    assert (s + t)[..|p|] == s[..|p|];
  }

  lemma EndsWithExtended(s: string, x: string, t: string)
    requires EndsWith(s, x)
    ensures EndsWith(s + t, x + t)
  {
    assert (s + t)[|s + t| - |x + t|..] == s[|s| - |x|..] + t;
  }

  /** An element that does not occur before the last position occurs exactly once. */
  lemma OccursOnceAtEnd<T>(pre: seq<T>, x: T)
    requires x !in pre
    ensures multiset(pre + [x])[x] == 1
  {
    assert multiset(pre + [x]) == multiset(pre) + multiset{x};
  }

  /** `n` copies of the character `c`. */
  function Repeat(c: char, n: nat): (r: string)
    ensures |r| == n
    ensures forall i :: 0 <= i < n ==> r[i] == c
  {
    if n == 0 then "" else Repeat(c, n - 1) + [c]
  }

  // ---------------------------------------------------------------------------
  // Concatenation

  /** `xs.join('')`: the fragments in order, with no separator. */
  function Concat(xs: seq<string>): string {
    if xs == [] then "" else xs[0] + Concat(xs[1..])
  }

  lemma {:induction false} ConcatAppend(a: seq<string>, b: seq<string>)
    ensures Concat(a + b) == Concat(a) + Concat(b)
  {
    if a == [] {
      assert a + b == b;
    } else {
      assert (a + b)[1..] == a[1..] + b;
      ConcatAppend(a[1..], b);
    }
  }

  /** The length of the concatenation is the sum of the fragments' lengths. */
  function TotalLength(xs: seq<string>): nat {
    if xs == [] then 0 else |xs[0]| + TotalLength(xs[1..])
  }

  lemma {:induction false} ConcatLength(xs: seq<string>)
    ensures |Concat(xs)| == TotalLength(xs)
  {
    if xs != [] {
      ConcatLength(xs[1..]);
    }
  }

  /** `xs.join(sep)`. */
  function Join(xs: seq<string>, sep: string): string {
    if xs == [] then "" else if |xs| == 1 then xs[0] else xs[0] + sep + Join(xs[1..], sep)
  }

  /** Each line followed by a newline: the text produced by one `AppendLine` per line. */
  function Unlines(lines: seq<string>): string {
    if lines == [] then "" else lines[0] + "\n" + Unlines(lines[1..])
  }

  lemma {:induction false} UnlinesAppend(a: seq<string>, b: seq<string>)
    ensures Unlines(a + b) == Unlines(a) + Unlines(b)
  {
    if a == [] {
      assert a + b == b;
    } else {
      assert (a + b)[1..] == a[1..] + b;
      UnlinesAppend(a[1..], b);
    }
  }

  lemma UnlinesCons(x: string, rest: seq<string>)
    ensures Unlines([x] + rest) == x + "\n" + Unlines(rest)
  {
    assert ([x] + rest)[1..] == rest;
  }

  /** One more line at the end adds that line and its newline to the text. */
  lemma UnlinesSnoc(lines: seq<string>, x: string)
    ensures Unlines(lines + [x]) == Unlines(lines) + x + "\n"
  {
    UnlinesAppend(lines, [x]);
    assert [x][1..] == [];
  }

  /** The text after appending the line `x` to a buffer that holds `before`. */
  lemma FirstLine(before: string, x: string)
    ensures before + x + "\n" == before + Unlines([x])
  {
    assert [x][1..] == [];
  }

  /** The text after appending the lines `b` to a buffer that holds `before` and then the lines `a`. */
  lemma LinesAppended(before: string, a: seq<string>, b: seq<string>)
    ensures before + Unlines(a) + Unlines(b) == before + Unlines(a + b)
  {
    UnlinesAppend(a, b);
  }

  /** The text after appending the line `x` to a buffer that holds `before` and then `lines`. */
  lemma LineAppended(before: string, lines: seq<string>, x: string)
    ensures before + Unlines(lines) + x + "\n" == before + Unlines(lines + [x])
  {
    UnlinesSnoc(lines, x);
  }

  /** Concatenation of a sequence of sequences. */
  function Flatten<T>(xss: seq<seq<T>>): seq<T> {
    if xss == [] then [] else xss[0] + Flatten(xss[1..])
  }

  lemma {:induction false} FlattenAppend<T>(a: seq<seq<T>>, b: seq<seq<T>>)
    ensures Flatten(a + b) == Flatten(a) + Flatten(b)
  {
    if a == [] {
      assert a + b == b;
    } else {
      assert (a + b)[1..] == a[1..] + b;
      FlattenAppend(a[1..], b);
    }
  }

  lemma FlattenSnoc<T>(xss: seq<seq<T>>, x: seq<T>)
    ensures Flatten(xss + [x]) == Flatten(xss) + x
  {
    FlattenAppend(xss, [x]);
    assert Flatten([x]) == x + Flatten([x][1..]);
    assert [x][1..] == [];
  }

  /** `f` applied to every element, in order. */
  function MapSeq<A, B>(f: A -> B, xs: seq<A>): (r: seq<B>)
    ensures |r| == |xs|
    ensures forall k :: 0 <= k < |xs| ==> r[k] == f(xs[k])
  {
    seq(|xs|, k requires 0 <= k < |xs| => f(xs[k]))
  }

  /** Mapping a prefix, a suffix or a one-longer prefix gives the matching part of the mapped sequence. */
  lemma MapSlices<A, B>(f: A -> B, xs: seq<A>, k: nat)
    requires k < |xs|
    ensures MapSeq(f, xs[..k]) == MapSeq(f, xs)[..k]
    ensures MapSeq(f, xs[k + 1..]) == MapSeq(f, xs)[k + 1..]
    ensures MapSeq(f, xs[..k + 1]) == MapSeq(f, xs[..k]) + [f(xs[k])]
  {
  }

  /** The i-th block of a flattened sequence sits right after the blocks before it. */
  lemma {:induction false} FlattenAt<T>(xss: seq<seq<T>>, i: nat)
    requires i < |xss|
    ensures Flatten(xss) == Flatten(xss[..i]) + xss[i] + Flatten(xss[i + 1..])
  {
    var pre, x, post := xss[..i], xss[i], xss[i + 1..];
    assert xss == pre + ([x] + post);
    FlattenAppend(pre, [x] + post);
    assert ([x] + post)[1..] == post;
  }

  /** Every element of a flattened sequence comes from one of the blocks. */
  lemma {:induction false} FlattenMember<T>(xss: seq<seq<T>>, x: T)
    requires x in Flatten(xss)
    ensures exists i :: 0 <= i < |xss| && x in xss[i]
  {
    if x !in xss[0] {
      FlattenMember(xss[1..], x);
      var i :| 0 <= i < |xss[1..]| && x in xss[1..][i];
      assert x in xss[i + 1];
    }
  }

  // ---------------------------------------------------------------------------
  // Splitting on a separator character (the inverse of Join for separator-free words)

  function Split(s: string, c: char): (r: seq<string>)
    ensures |r| >= 1
  {
    if s == [] then [""]
    else
      var rest := Split(s[1..], c);
      if s[0] == c then [""] + rest else [[s[0]] + rest[0]] + rest[1..]
  }

  lemma {:induction false} SplitWord(w: string, c: char, tail: string)
    requires c !in w
    ensures Split(w + [c] + tail, c) == [w] + Split(tail, c)
    ensures Split(w, c) == [w]
  {
    if w == [] {
      assert w + [c] + tail == [c] + tail;
      assert ([c] + tail)[1..] == tail;
    } else {
      assert (w + [c] + tail)[1..] == w[1..] + [c] + tail;
      SplitWord(w[1..], c, tail);
      assert [w[0]] + w[1..] == w;
    }
  }

  lemma {:induction false} SplitJoin(words: seq<string>, c: char)
    requires |words| >= 1
    requires forall k :: 0 <= k < |words| ==> c !in words[k]
    ensures Split(Join(words, [c]), c) == words
  {
    if |words| == 1 {
      SplitWord(words[0], c, "");
    } else {
      SplitJoin(words[1..], c);
      SplitWord(words[0], c, Join(words[1..], [c]));
      assert words == [words[0]] + words[1..];
    }
  }

  // ---------------------------------------------------------------------------
  // String.prototype.trim

  /** ECMAScript WhiteSpace and LineTerminator code points: what `trim` removes. */
  predicate IsWhitespace(c: char) {
    || c == '\t' || c == '\n' || c == '\U{000B}' || c == '\U{000C}' || c == '\r' || c == ' '
    || c == '\U{00A0}' || c == '\U{1680}' || ('\U{2000}' <= c <= '\U{200A}')
    || c == '\U{2028}' || c == '\U{2029}' || c == '\U{202F}' || c == '\U{205F}'
    || c == '\U{3000}' || c == '\U{FEFF}'
  }

  /** Drops the leading characters that satisfy `p`. */
  function DropLeading(p: char -> bool, s: string): string {
    if s != [] && p(s[0]) then DropLeading(p, s[1..]) else s
  }

  /** Drops the trailing characters that satisfy `p`. */
  function DropTrailing(p: char -> bool, s: string): string {
    if s != [] && p(s[|s| - 1]) then DropTrailing(p, s[..|s| - 1]) else s
  }

  /** `trimStart`: drops the leading whitespace. */
  function TrimStart(s: string): string {
    DropLeading(IsWhitespace, s)
  }

  /** `trimEnd`: drops the trailing whitespace. */
  function TrimEnd(s: string): string {
    DropTrailing(IsWhitespace, s)
  }

  /** What `DropLeading` keeps is a suffix, what it drops satisfies `p`, and it stops where `p` fails. */
  lemma {:induction false} DropLeadingSpec(p: char -> bool, s: string)
    ensures var r := DropLeading(p, s);
      && |r| <= |s| && r == s[|s| - |r|..]
      && (forall i :: 0 <= i < |s| - |r| ==> p(s[i]))
      && (r != [] ==> !p(r[0]))
  {
    if s != [] && p(s[0]) {
      DropLeadingSpec(p, s[1..]);
      var r := DropLeading(p, s[1..]);
      assert s[1..][|s| - 1 - |r|..] == s[|s| - |r|..];
      forall i | 0 <= i < |s| - |r|
        ensures p(s[i])
      {
        if i > 0 {
          assert s[i] == s[1..][i - 1];
        }
      }
    }
  }

  /** What `DropTrailing` keeps is a prefix, what it drops satisfies `p`, and it stops where `p` fails. */
  lemma {:induction false} DropTrailingSpec(p: char -> bool, s: string)
    ensures var r := DropTrailing(p, s);
      && |r| <= |s| && r == s[..|r|]
      && (forall i :: |r| <= i < |s| ==> p(s[i]))
      && (r != [] ==> !p(r[|r| - 1]))
  {
    if s != [] && p(s[|s| - 1]) {
      DropTrailingSpec(p, s[..|s| - 1]);
      var r := DropTrailing(p, s[..|s| - 1]);
      assert s[..|s| - 1][..|r|] == s[..|r|];
      forall i | |r| <= i < |s|
        ensures p(s[i])
      {
        if i < |s| - 1 {
          assert s[i] == s[..|s| - 1][i];
        }
      }
    }
  }

  /** What `TrimStart` keeps is a suffix, what it drops is whitespace, and it stops at a non-whitespace character. */
  lemma TrimStartSpec(s: string)
    ensures var r := TrimStart(s);
      && |r| <= |s| && r == s[|s| - |r|..]
      && (forall i :: 0 <= i < |s| - |r| ==> IsWhitespace(s[i]))
      && (r != [] ==> !IsWhitespace(r[0]))
  {
    DropLeadingSpec(IsWhitespace, s);
  }

  /** What `TrimEnd` keeps is a prefix, what it drops is whitespace, and it stops at a non-whitespace character. */
  lemma TrimEndSpec(s: string)
    ensures var r := TrimEnd(s);
      && |r| <= |s| && r == s[..|r|]
      && (forall i :: |r| <= i < |s| ==> IsWhitespace(s[i]))
      && (r != [] ==> !IsWhitespace(r[|r| - 1]))
  {
    DropTrailingSpec(IsWhitespace, s);
  }

  function Trim(s: string): string {
    TrimEnd(TrimStart(s))
  }

  /** `s && s.trim().length > 0`: the test the entities apply to a comment. */
  predicate HasContent(s: string) {
    |Trim(s)| > 0
  }

  /** A string has content after trimming exactly when one of its characters is not whitespace. */
  lemma HasContentIff(s: string)
    ensures HasContent(s) <==> exists i :: 0 <= i < |s| && !IsWhitespace(s[i])
  {
    var t := TrimStart(s);
    TrimStartSpec(s);
    TrimEndSpec(t);
    if HasContent(s) {
      assert !IsWhitespace(t[0]);
      assert s[|s| - |t|] == t[0];
    } else {
      assert TrimEnd(t) == [];
      assert t == [];
    }
  }

  // ---------------------------------------------------------------------------
  // Decimal numbers

  predicate IsDigit(c: char) {
    '0' <= c <= '9'
  }

  function DigitChar(d: nat): (c: char)
    requires d < 10
    ensures IsDigit(c)
  {
    ('0' as int + d) as char
  }

  /** `n.toString()` for a non-negative integer. */
  function NatToDecimal(n: nat): (r: string)
    ensures |r| >= 1
    ensures forall i :: 0 <= i < |r| ==> IsDigit(r[i])
    ensures n < 10 <==> |r| == 1
  {
    if n < 10 then [DigitChar(n)] else NatToDecimal(n / 10) + [DigitChar(n % 10)]
  }

  /** `i.toString()` for an integer, with a leading '-' when negative. */
  function IntToDecimal(i: int): (r: string)
    ensures |r| >= 1
  {
    if i < 0 then "-" + NatToDecimal(-i) else NatToDecimal(i)
  }

  function DigitValue(c: char): (d: nat)
    requires IsDigit(c)
    ensures d < 10 && DigitChar(d) == c
  {
    c as int - '0' as int
  }

  /** The value of a string of decimal digits (the partner of NatToDecimal). */
  function DecimalValue(s: string): nat
    requires forall i :: 0 <= i < |s| ==> IsDigit(s[i])
  {
    if s == [] then 0 else DecimalValue(s[..|s| - 1]) * 10 + DigitValue(s[|s| - 1])
  }

  lemma {:induction false} DecimalRoundTrip(n: nat)
    ensures DecimalValue(NatToDecimal(n)) == n
  {
    if n >= 10 {
      var r := NatToDecimal(n);
      assert r[..|r| - 1] == NatToDecimal(n / 10);
      DecimalRoundTrip(n / 10);
    }
  }

  predicate AllDigits(s: string) {
    forall i :: 0 <= i < |s| ==> IsDigit(s[i])
  }

  /** Reads a non-empty string of decimal digits; anything else is rejected. */
  function ParseNat(s: string): Option<nat> {
    if s != [] && AllDigits(s) then Some(DecimalValue(s)) else None
  }

  /** Reads an optional '-' followed by decimal digits. */
  function ParseInt(s: string): Option<int> {
    if s != [] && s[0] == '-' then
      (var n := ParseNat(s[1..]); if n.Some? then Some(-(n.value as int)) else None)
    else
      (var n := ParseNat(s); if n.Some? then Some(n.value as int) else None)
  }

  lemma NatRoundTrip(n: nat)
    ensures ParseNat(NatToDecimal(n)) == Some(n)
  {
    DecimalRoundTrip(n);
  }

  lemma IntRoundTrip(i: int)
    ensures ParseInt(IntToDecimal(i)) == Some(i)
  {
    if i < 0 {
      NegativeRoundTrip(i);
    } else {
      NatRoundTrip(i);
      assert IsDigit(NatToDecimal(i)[0]);
    }
  }

  lemma NegativeRoundTrip(i: int)
    requires i < 0
    ensures ParseInt(IntToDecimal(i)) == Some(i)
  {
    NatRoundTrip(-i);
    SignedParse(NatToDecimal(-i), -i);
  }

  /** A minus sign in front of digits that read as `m` reads as `-m`. */
  lemma SignedParse(d: string, m: nat)
    requires ParseNat(d) == Some(m)
    ensures ParseInt("-" + d) == Some(-(m as int))
  {
    assert ("-" + d)[1..] == d;
  }

  /** `s.padStart(width, fill)`. */
  function PadStart(s: string, width: nat, fill: char): (r: string)
    ensures |r| == if |s| < width then width else |s|
    ensures EndsWith(r, s)
  {
    if |s| < width then Repeat(fill, width - |s|) + s else s
  }

  /** Zero-padding a digit string keeps its value. */
  lemma {:induction false} LeadingZeros(s: string, width: nat)
    requires forall i :: 0 <= i < |s| ==> IsDigit(s[i])
    ensures var r := PadStart(s, width, '0');
      (forall i :: 0 <= i < |r| ==> IsDigit(r[i])) && DecimalValue(r) == DecimalValue(s)
  {
    if |s| < width {
      ZerosThenDigits(width - |s|, s);
    }
  }

  lemma {:induction false} ZerosThenDigits(k: nat, s: string)
    requires forall i :: 0 <= i < |s| ==> IsDigit(s[i])
    ensures var r := Repeat('0', k) + s;
      (forall i :: 0 <= i < |r| ==> IsDigit(r[i])) && DecimalValue(r) == DecimalValue(s)
  {
    var r := Repeat('0', k) + s;
    if s == [] {
      ZerosValue(k);
      assert r == Repeat('0', k);
    } else {
      assert r[..|r| - 1] == Repeat('0', k) + s[..|s| - 1];
      ZerosThenDigits(k, s[..|s| - 1]);
    }
  }

  lemma {:induction false} ZerosValue(k: nat)
    ensures DecimalValue(Repeat('0', k)) == 0
  {
    if k > 0 {
      assert Repeat('0', k)[..k - 1] == Repeat('0', k - 1);
      ZerosValue(k - 1);
    }
  }
}
