/**
 * The JavaScript string built-ins the core relies on, over `string` (= `seq<char>`):
 * `Number.prototype.toString(radix)`, `padStart`, `split` on a one-character separator,
 * `join`, `trim`, `startsWith`, and `replace` with a string pattern.
 */
module Text {
  import opened Wrappers

  // ---------------------------------------------------------------------------
  // Digits and number formatting
  // ---------------------------------------------------------------------------

  predicate IsDigit(c: char) {
    '0' <= c <= '9'
  }

  predicate IsLowerHexDigit(c: char) {
    IsDigit(c) || 'a' <= c <= 'f'
  }

  /** The digit character of `d` as `toString` writes it: `0-9`, then lower-case `a-f`. */
  function DigitChar(d: nat): (c: char)
    requires d < 16
    ensures d < 10 ==> IsDigit(c) && c as int - '0' as int == d
    ensures 10 <= d ==> 'a' <= c <= 'f' && c as int - 'a' as int == d - 10
  {
    if d < 10 then ('0' as int + d) as char else ('a' as int + d - 10) as char
  }

  /** `n.toString(base)` for a non-negative integer: most significant digit first, no leading zeros. */
  function ToRadix(n: nat, base: nat): (s: string)
    requires 2 <= base <= 16
    ensures 1 <= |s|
    decreases n
  {
    if n < base then [DigitChar(n)] else ToRadix(n / base, base) + [DigitChar(n % base)]
  }

  /** Decimal `toString` writes only the digits `0-9`, and never a leading zero. */
  lemma {:induction false} DecimalDigits(n: nat)
    ensures forall i :: 0 <= i < |ToRadix(n, 10)| ==> IsDigit(ToRadix(n, 10)[i])
    ensures |ToRadix(n, 10)| > 1 ==> ToRadix(n, 10)[0] != '0'
    ensures n < 10 <==> |ToRadix(n, 10)| == 1
    decreases n
  {
    if n >= 10 {
      DecimalDigits(n / 10);
    }
  }

  /** Hexadecimal `toString` writes only `0-9` and `a-f`; up to 15 it writes one digit. */
  lemma {:induction false} HexDigits(n: nat)
    ensures forall i :: 0 <= i < |ToRadix(n, 16)| ==> IsLowerHexDigit(ToRadix(n, 16)[i])
    ensures n < 16 <==> |ToRadix(n, 16)| == 1
    decreases n
  {
    if n >= 16 {
      HexDigits(n / 16);
    }
  }

  /** `n.toString()` for an integer `n` (decimal, with a leading `-` when negative). */
  function IntToString(n: int): (s: string)
    ensures 1 <= |s|
    ensures n >= 0 <==> s[0] != '-'
    ensures n >= 0 ==> s == ToRadix(n, 10)
    ensures n < 0 ==> s == "-" + ToRadix(-n, 10)
  {
    DecimalDigits(if n < 0 then -n else n);
    if n < 0 then "-" + ToRadix(-n, 10) else ToRadix(n, 10)
  }

  /** The value of a run of decimal digits, most significant first. */
  function DigitsValue(s: string): nat
    requires forall i :: 0 <= i < |s| ==> IsDigit(s[i])
  {
    if s == [] then 0
    else
      assert IsDigit(s[|s| - 1]);
      DigitsValue(s[..|s| - 1]) * 10 + (s[|s| - 1] as int - '0' as int)
  }

  /** Reading back the decimal digits that `toString` writes gives the number again. */
  lemma {:induction false} DigitsValueOfToRadix(n: nat)
    ensures var s := ToRadix(n, 10); (forall i :: 0 <= i < |s| ==> IsDigit(s[i])) && DigitsValue(s) == n
  {
    var s := ToRadix(n, 10);
    DecimalDigits(n);
    if n >= 10 {
      DecimalDigits(n / 10);
      DigitsValueOfToRadix(n / 10);
      assert s[..|s| - 1] == ToRadix(n / 10, 10);
    }
  }

  /** `s.padStart(width, [fill])`. */
  function PadStart(s: string, width: nat, fill: char): (r: string)
    ensures |r| == if |s| >= width then |s| else width
    ensures r[|r| - |s|..] == s
    ensures forall i :: 0 <= i < |r| - |s| ==> r[i] == fill
  {
    if |s| >= width then s else [fill] + PadStart(s, width - 1, fill)
  }

  // ---------------------------------------------------------------------------
  // Whitespace and trim
  // ---------------------------------------------------------------------------

  /** ECMAScript WhiteSpace and LineTerminator code points, the set `trim` removes. */
  predicate IsWhitespace(c: char) {
    c == '\t' || c == '\n' || c == '\U{000B}' || c == '\U{000C}' || c == '\r' || c == ' '
    || c == '\U{00A0}' || c == '\U{1680}' || ('\U{2000}' <= c <= '\U{200A}')
    || c == '\U{2028}' || c == '\U{2029}' || c == '\U{202F}' || c == '\U{205F}'
    || c == '\U{3000}' || c == '\U{FEFF}'
  }

  predicate IsTrimmed(s: string) {
    s == [] || (!IsWhitespace(s[0]) && !IsWhitespace(s[|s| - 1]))
  }

  function TrimStart(s: string): (r: string)
    ensures |r| <= |s| && r == s[|s| - |r|..]
    ensures r == [] || !IsWhitespace(r[0])
    ensures forall i :: 0 <= i < |s| - |r| ==> IsWhitespace(s[i])
  {
    if s != [] && IsWhitespace(s[0]) then TrimStart(s[1..]) else s
  }

  function TrimEnd(s: string): (r: string)
    ensures |r| <= |s| && r == s[..|r|]
    ensures r == [] || !IsWhitespace(r[|r| - 1])
    ensures forall i :: |r| <= i < |s| ==> IsWhitespace(s[i])
  {
    if s != [] && IsWhitespace(s[|s| - 1]) then TrimEnd(s[..|s| - 1]) else s
  }

  /** `s.trim()`: the longest infix of `s` that neither starts nor ends with whitespace. */
  function Trim(s: string): (r: string)
    ensures IsTrimmed(r)
    ensures var k := |s| - |TrimStart(s)|;
      && k + |r| <= |s| && r == s[k..k + |r|]
      && (forall i :: 0 <= i < k ==> IsWhitespace(s[i]))
      && (forall i :: k + |r| <= i < |s| ==> IsWhitespace(s[i]))
  {
    var t := TrimStart(s);
    var r := TrimEnd(t);
    assert r == s[|s| - |t|..|s| - |t| + |r|];
    r
  }

  lemma TrimOfTrimmed(s: string)
    requires IsTrimmed(s)
    ensures Trim(s) == s
  {
  }

  /** One leading space (the one `join(", ")` adds) is removed again by `trim`. */
  lemma TrimOfSpaced(x: string)
    requires IsTrimmed(x)
    ensures Trim(" " + x) == x
  {
    assert (" " + x)[1..] == x;
  }

  // ---------------------------------------------------------------------------
  // split and join
  // ---------------------------------------------------------------------------

  /** `s.split(c)` for a one-character separator: never empty, `"".split(c) == [""]`. */
  function Split(s: string, c: char): (parts: seq<string>)
    ensures |parts| >= 1
    ensures forall i :: 0 <= i < |parts| ==> c !in parts[i]
    ensures c !in s ==> parts == [s]
    decreases |s|
  {
    if s == [] then [""]
    else
      assert s == [s[0]] + s[1..];
      var rest := Split(s[1..], c);
      if s[0] == c then [""] + rest else [[s[0]] + rest[0]] + rest[1..]
  }

  /** `xs.join(sep)`. */
  function Join(xs: seq<string>, sep: string): string {
    if |xs| == 0 then "" else if |xs| == 1 then xs[0] else xs[0] + sep + Join(xs[1..], sep)
  }

  lemma JoinHead(a: string, x: string, ys: seq<string>, sep: string)
    ensures Join([a + x] + ys, sep) == a + Join([x] + ys, sep)
  {
    if |ys| > 0 {
      assert ([a + x] + ys)[1..] == ys && ([x] + ys)[1..] == ys;
    }
  }

  /** Splitting and joining again with the same separator restores the string. */
  lemma {:induction false} JoinSplit(s: string, c: char)
    ensures Join(Split(s, c), [c]) == s
  {
    if s != [] {
      var rest := Split(s[1..], c);
      JoinSplit(s[1..], c);
      if s[0] == c {
        assert ([""] + rest)[1..] == rest;
      } else {
        assert rest == [rest[0]] + rest[1..];
        JoinHead([s[0]], rest[0], rest[1..], [c]);
      }
    }
  }

  /** A prefix without the separator is glued to the first part. */
  lemma {:induction false} SplitPrefix(p: string, s: string, c: char)
    requires c !in p
    ensures Split(p + s, c) == [p + Split(s, c)[0]] + Split(s, c)[1..]
    decreases |p|
  {
    if p != [] {
      assert (p + s)[0] == p[0] && p[0] != c;
      assert (p + s)[1..] == p[1..] + s;
      SplitPrefix(p[1..], s, c);
      var rest := Split(p[1..] + s, c);
      assert rest[0] == p[1..] + Split(s, c)[0];
      assert rest[1..] == Split(s, c)[1..];
      assert Split(p + s, c) == [[p[0]] + rest[0]] + rest[1..];
      assert [p[0]] + (p[1..] + Split(s, c)[0]) == p + Split(s, c)[0];
    } else {
      assert p + s == s && p + Split(s, c)[0] == Split(s, c)[0];
      assert Split(s, c) == [Split(s, c)[0]] + Split(s, c)[1..];
    }
  }

  /** The first part of `p`, a separator, then `s` is `p` when `p` holds no separator. */
  lemma SplitBeforeSeparator(p: string, s: string, c: char)
    requires c !in p
    ensures Split(p + [c] + s, c)[0] == p
  {
    var rest := [c] + s;
    assert p + [c] + s == p + rest;
    SplitPrefix(p, rest, c);
    assert rest[0] == c && rest[1..] == s;
    assert Split(rest, c)[0] == "";
    assert p + "" == p;
  }

  /** Joining separator-free parts and splitting again restores the parts. */
  lemma {:induction false} SplitJoin(xs: seq<string>, c: char)
    requires |xs| >= 1
    requires forall i :: 0 <= i < |xs| ==> c !in xs[i]
    ensures Split(Join(xs, [c]), c) == xs
  {
    if |xs| == 1 {
    } else {
      SplitJoin(xs[1..], c);
      var tail := Join(xs[1..], [c]);
      assert xs[0] + [c] + tail == xs[0] + ([c] + tail);
      assert ([c] + tail)[0] == c && ([c] + tail)[1..] == tail;
      assert Split([c] + tail, c) == [""] + xs[1..];
      SplitPrefix(xs[0], [c] + tail, c);
      assert xs[0] + "" == xs[0];
      assert xs == [xs[0]] + xs[1..];
    }
  }

  // ---------------------------------------------------------------------------
  // startsWith, indexOf, replace
  // ---------------------------------------------------------------------------

  /** `s.startsWith(p)`. */
  predicate StartsWith(s: string, p: string) {
    |p| <= |s| && s[..|p|] == p
  }

  predicate OccursAt(s: string, pat: string, i: nat) {
    i + |pat| <= |s| && s[i..i + |pat|] == pat
  }

  function IndexOfFrom(s: string, pat: string, from: nat): (r: Option<nat>)
    ensures r.Some? ==>
      from <= r.value && OccursAt(s, pat, r.value) && forall j :: from <= j < r.value ==> !OccursAt(s, pat, j)
    ensures r.None? ==> forall j :: from <= j ==> !OccursAt(s, pat, j)
    decreases |s| - from
  {
    if from + |pat| > |s| then None
    else if s[from..from + |pat|] == pat then Some(from)
    else IndexOfFrom(s, pat, from + 1)
  }

  /** `s.indexOf(pat)`: the first position where `pat` occurs, if any. */
  function IndexOf(s: string, pat: string): (r: Option<nat>)
    ensures r.Some? ==> OccursAt(s, pat, r.value) && forall j :: 0 <= j < r.value ==> !OccursAt(s, pat, j)
    ensures r.None? ==> forall j :: 0 <= j ==> !OccursAt(s, pat, j)
  {
    IndexOfFrom(s, pat, 0)
  }

  /** `s.replace(pat, rep)` with a string pattern: only the first occurrence is replaced. */
  function ReplaceFirst(s: string, pat: string, rep: string): (r: string)
    ensures IndexOf(s, pat).None? ==> r == s
    ensures IndexOf(s, pat).Some? ==>
      var i := IndexOf(s, pat).value; r == s[..i] + rep + s[i + |pat|..]
  {
    match IndexOf(s, pat)
    case None => s
    case Some(i) => s[..i] + rep + s[i + |pat|..]
  }

  /** Removing a leading occurrence of `pat` gives back what follows it. */
  lemma ReplaceLeading(pat: string, rest: string)
    ensures ReplaceFirst(pat + rest, pat, "") == rest
  {
    assert OccursAt(pat + rest, pat, 0);
    assert (pat + rest)[|pat|..] == rest;
  }
}
