/**
 * The part of JSON the session cookie needs: `JSON.stringify` of a flat
 * object, `JSON.parse` of the same subset (null, booleans, integers, strings
 * without escapes, and objects whose members are of those kinds), and the
 * JavaScript property access and number coercion applied to a parsed value.
 */
module Json {
  import opened Wrappers
  import opened Text

  datatype Value =
    | Null
    | Bool(b: bool)
    | Num(n: int)
    | Str(s: string)
    | Object(members: seq<(string, Value)>)

  /** A string that is written between quotes as it is: no quote, backslash or control character. */
  predicate PlainString(s: string) {
    forall i :: 0 <= i < |s| ==> s[i] != '"' && s[i] != '\\' && s[i] >= ' '
  }

  predicate IsScalar(v: Value) {
    !v.Object? && (v.Str? ==> PlainString(v.s))
  }

  /** The values of the subset: scalars, and objects with plain keys and scalar members. */
  predicate Serializable(v: Value) {
    if v.Object? then
      forall i :: 0 <= i < |v.members| ==> PlainString(v.members[i].0) && IsScalar(v.members[i].1)
    else IsScalar(v)
  }

  // ---------------------------------------------------------------------------
  // JSON.stringify
  // ---------------------------------------------------------------------------

  function Quote(s: string): string {
    "\"" + s + "\""
  }

  function ScalarText(v: Value): string
    requires !v.Object?
  {
    match v
    case Null => "null"
    case Bool(b) => if b then "true" else "false"
    case Num(n) => IntToString(n)
    case Str(s) => Quote(s)
  }

  function MemberText(m: (string, Value)): string
    requires !m.1.Object?
  {
    Quote(m.0) + ":" + ScalarText(m.1)
  }

  /** The members of a non-empty object, each followed by `,` and the last by the closing brace. */
  function MembersText(ms: seq<(string, Value)>): string
    requires |ms| >= 1 && forall i :: 0 <= i < |ms| ==> !ms[i].1.Object?
  {
    MemberText(ms[0]) + (if |ms| == 1 then "}" else "," + MembersText(ms[1..]))
  }

  /** `JSON.stringify` on the subset. */
  function Serialize(v: Value): string
    requires Serializable(v)
  {
    if v.Object? then "{" + (if v.members == [] then "}" else MembersText(v.members))
    else ScalarText(v)
  }

  // ---------------------------------------------------------------------------
  // JSON.parse
  // ---------------------------------------------------------------------------

  /** The leading run of decimal digits and what follows it. */
  function LeadingDigits(s: string): (r: (string, string))
    ensures r.0 + r.1 == s
    ensures forall i :: 0 <= i < |r.0| ==> IsDigit(r.0[i])
    ensures r.1 == [] || !IsDigit(r.1[0])
  {
    if s != [] && IsDigit(s[0]) then
      var (d, rest) := LeadingDigits(s[1..]);
      assert s == [s[0]] + s[1..];
      ([s[0]] + d, rest)
    else ([], s)
  }

  /** A JSON integer, `-? (0 | [1-9][0-9]*)`, at the front of `s`. */
  function ParseNumber(s: string): (r: Option<(int, string)>)
    ensures r.Some? ==> |r.value.1| < |s|
  {
    var neg := s != [] && s[0] == '-';
    var t := if neg then s[1..] else s;
    var (d, rest) := LeadingDigits(t);
    if d == [] || (|d| > 1 && d[0] == '0') then None
    else
      var value: int := DigitsValue(d);
      Some((if neg then -value else value, rest))
  }

  /** The characters of a string literal after its opening quote, up to the closing one. */
  function StringBody(s: string): (r: Option<(string, string)>)
    ensures r.Some? ==> |r.value.1| < |s|
  {
    if s == [] then None
    else if s[0] == '"' then Some(([], s[1..]))
    else if s[0] == '\\' || s[0] < ' ' then None
    else match StringBody(s[1..])
      case None => None
      case Some((body, rest)) => Some(([s[0]] + body, rest))
  }

  function ParseString(s: string): (r: Option<(string, string)>)
    ensures r.Some? ==> |r.value.1| < |s|
  {
    if s != [] && s[0] == '"' then StringBody(s[1..]) else None
  }

  /** A literal, a number or a string at the front of `s`. */
  function ParseScalar(s: string): (r: Option<(Value, string)>)
    ensures r.Some? ==> |r.value.1| < |s| && !r.value.0.Object?
  {
    if StartsWith(s, "null") then Some((Null, s[4..]))
    else if StartsWith(s, "true") then Some((Bool(true), s[4..]))
    else if StartsWith(s, "false") then Some((Bool(false), s[5..]))
    else if s != [] && s[0] == '"' then
      match ParseString(s)
      case None => None
      case Some((str, rest)) => Some((Str(str), rest))
    else if s != [] && (s[0] == '-' || IsDigit(s[0])) then
      match ParseNumber(s)
      case None => None
      case Some((n, rest)) => Some((Num(n), rest))
    else None
  }

  /** `"key":value` members separated by `,` up to and including the closing brace. */
  function ParseMemberList(s: string): (r: Option<(seq<(string, Value)>, string)>)
    ensures r.Some? ==> |r.value.1| < |s|
    decreases |s|
  {
    match ParseString(s)
    case None => None
    case Some((key, afterKey)) =>
      if afterKey == [] || afterKey[0] != ':' then None
      else match ParseScalar(afterKey[1..])
        case None => None
        case Some((v, rest)) =>
          if rest != [] && rest[0] == '}' then Some(([(key, v)], rest[1..]))
          else if rest != [] && rest[0] == ',' then
            match ParseMemberList(rest[1..])
            case None => None
            case Some((ms, after)) => Some(([(key, v)] + ms, after))
          else None
  }

  function ParseValue(s: string): (r: Option<(Value, string)>)
    ensures r.Some? ==> |r.value.1| < |s|
  {
    if s != [] && s[0] == '{' then
      if |s| > 1 && s[1] == '}' then Some((Object([]), s[2..]))
      else match ParseMemberList(s[1..])
        case None => None
        case Some((ms, rest)) => Some((Object(ms), rest))
    else ParseScalar(s)
  }

  /** `JSON.parse` on the subset: one value and nothing after it; `None` where it throws. */
  function Parse(s: string): (r: Option<Value>)
    ensures r.Some? ==> s != []
  {
    match ParseValue(s)
    case Some((v, rest)) => if rest == [] then Some(v) else None
    case None => None
  }

  // ---------------------------------------------------------------------------
  // Round trip
  // ---------------------------------------------------------------------------

  lemma {:induction false} StringBodyOf(s: string, rest: string)
    requires PlainString(s)
    ensures StringBody(s + "\"" + rest) == Some((s, rest))
  {
    if s == [] {
      assert s + "\"" + rest == ['"'] + rest;
    } else {
      assert (s + "\"" + rest)[1..] == s[1..] + "\"" + rest;
      StringBodyOf(s[1..], rest);
      assert [s[0]] + s[1..] == s;
    }
  }

  lemma {:induction false} ParseQuoted(s: string, rest: string)
    requires PlainString(s)
    ensures ParseString(Quote(s) + rest) == Some((s, rest))
  {
    assert (Quote(s) + rest)[1..] == s + "\"" + rest;
    StringBodyOf(s, rest);
  }

  lemma {:induction false} LeadingDigitsOf(d: string, rest: string)
    requires forall i :: 0 <= i < |d| ==> IsDigit(d[i])
    requires rest == [] || !IsDigit(rest[0])
    ensures LeadingDigits(d + rest) == (d, rest)
  {
    if d == [] {
      assert d + rest == rest;
    } else {
      assert (d + rest)[1..] == d[1..] + rest;
      LeadingDigitsOf(d[1..], rest);
      assert [d[0]] + d[1..] == d;
    }
  }

  /** The decimal digits of `m` form a JSON digit run that reads back as `m`. */
  lemma {:induction false} DecimalRunOf(m: nat, rest: string)
    requires rest == [] || !IsDigit(rest[0])
    ensures var d := ToRadix(m, 10);
      && LeadingDigits(d + rest) == (d, rest)
      && d != [] && IsDigit(d[0]) && !(|d| > 1 && d[0] == '0')
      && DigitsValue(d) == m
  {
    DecimalDigits(m);
    DigitsValueOfToRadix(m);
    LeadingDigitsOf(ToRadix(m, 10), rest);
  }

  lemma {:induction false} ParseNaturalOf(m: nat, rest: string)
    requires rest == [] || !IsDigit(rest[0])
    ensures ParseNumber(ToRadix(m, 10) + rest) == Some((m, rest))
  {
    var d := ToRadix(m, 10);
    DecimalRunOf(m, rest);
    assert (d + rest)[0] == d[0];
  }

  lemma {:induction false} ParseNegativeOf(m: nat, rest: string)
    requires rest == [] || !IsDigit(rest[0])
    ensures ParseNumber("-" + ToRadix(m, 10) + rest) == Some((-(m as int), rest))
  {
    var d := ToRadix(m, 10);
    DecimalRunOf(m, rest);
    assert ("-" + d + rest)[1..] == d + rest;
  }

  /** A number written by `IntToString` reads back as itself, whatever non-digit follows. */
  lemma {:induction false} ParseNumberOf(n: int, rest: string)
    requires rest == [] || !IsDigit(rest[0])
    ensures ParseNumber(IntToString(n) + rest) == Some((n, rest))
  {
    if n < 0 {
      ParseNegativeOf(-n, rest);
    } else {
      ParseNaturalOf(n, rest);
    }
  }

  /** At the front of `s`, no digit follows and a member list can go on. */
  predicate Delimited(s: string) {
    s == [] || s[0] == ',' || s[0] == '}'
  }

  lemma {:induction false} ParseKeywordOf(v: Value, rest: string)
    requires v.Null? || v.Bool?
    ensures ParseScalar(ScalarText(v) + rest) == Some((v, rest))
  {
    var s := ScalarText(v) + rest;
    if v.Null? {
      assert s[..4] == "null" && s[4..] == rest;
    } else if v.b {
      assert s[..4] == "true" && s[4..] == rest;
      assert s[0] == 't';
    } else {
      assert s[..5] == "false" && s[5..] == rest;
      assert s[0] == 'f';
    }
  }

  lemma {:induction false} ParseStrOf(str: string, rest: string)
    requires PlainString(str)
    ensures ParseScalar(ScalarText(Str(str)) + rest) == Some((Str(str), rest))
  {
    var s := ScalarText(Str(str)) + rest;
    assert s[0] == '"';
    ParseQuoted(str, rest);
  }

  lemma {:induction false} ParseNumOf(n: int, rest: string)
    requires rest == [] || !IsDigit(rest[0])
    ensures ParseScalar(ScalarText(Num(n)) + rest) == Some((Num(n), rest))
  {
    var s := ScalarText(Num(n)) + rest;
    ParseNumberOf(n, rest);
    var m := if n < 0 then -n else n;
    DecimalDigits(m);
    assert s[0] == '-' || IsDigit(s[0]) by {
      if n >= 0 {
        assert s[0] == ToRadix(m, 10)[0];
      }
    }
  }

  lemma {:induction false} ParseScalarOf(v: Value, rest: string)
    requires IsScalar(v) && Delimited(rest)
    ensures ParseScalar(ScalarText(v) + rest) == Some((v, rest))
  {
    match v
    case Null => ParseKeywordOf(v, rest);
    case Bool(_) => ParseKeywordOf(v, rest);
    case Str(str) => ParseStrOf(str, rest);
    case Num(n) => ParseNumOf(n, rest);
  }

  /** A member's key reads back, leaving the colon and the value. */
  lemma {:induction false} ParseKeyOf(key: string, value: string, after: string)
    requires PlainString(key)
    ensures ParseString(Quote(key) + ":" + value + after) == Some((key, ":" + value + after))
  {
    assert Quote(key) + ":" + value + after == Quote(key) + (":" + value + after);
    ParseQuoted(key, ":" + value + after);
  }

  /** The last member of an object reads back, leaving what follows the closing brace. */
  lemma {:induction false} ParseLastMember(key: string, v: Value, rest: string)
    requires PlainString(key) && IsScalar(v)
    ensures ParseMemberList(Quote(key) + ":" + ScalarText(v) + "}" + rest) == Some(([(key, v)], rest))
  {
    var value, after := ScalarText(v), "}" + rest;
    assert Quote(key) + ":" + value + "}" + rest == Quote(key) + ":" + value + after;
    ParseKeyOf(key, value, after);
    assert (":" + value + after)[1..] == value + after;
    ParseScalarOf(v, after);
    assert after[1..] == rest;
  }

  /** A member followed by a comma reads back in front of the members after it. */
  lemma {:induction false} ParseNextMember(key: string, v: Value, t: string, ms: seq<(string, Value)>, rest: string)
    requires PlainString(key) && IsScalar(v)
    requires ParseMemberList(t) == Some((ms, rest))
    ensures ParseMemberList(Quote(key) + ":" + ScalarText(v) + "," + t) == Some(([(key, v)] + ms, rest))
  {
    var value, after := ScalarText(v), "," + t;
    assert Quote(key) + ":" + value + "," + t == Quote(key) + ":" + value + after;
    ParseKeyOf(key, value, after);
    assert (":" + value + after)[1..] == value + after;
    ParseScalarOf(v, after);
    assert after[1..] == t;
  }

  lemma {:induction false} ParseMembersOf(ms: seq<(string, Value)>, rest: string)
    requires |ms| >= 1
    requires forall i :: 0 <= i < |ms| ==> PlainString(ms[i].0) && IsScalar(ms[i].1) && !ms[i].1.Object?
    ensures ParseMemberList(MembersText(ms) + rest) == Some((ms, rest))
  {
    var key, v := ms[0].0, ms[0].1;
    if |ms| == 1 {
      assert MembersText(ms) + rest == Quote(key) + ":" + ScalarText(v) + "}" + rest;
      ParseLastMember(key, v, rest);
      assert ms == [(key, v)];
    } else {
      var t := MembersText(ms[1..]) + rest;
      assert MembersText(ms) + rest == Quote(key) + ":" + ScalarText(v) + "," + t;
      ParseMembersOf(ms[1..], rest);
      ParseNextMember(key, v, t, ms[1..], rest);
      assert [(key, v)] + ms[1..] == ms;
    }
  }

  /** `JSON.parse(JSON.stringify(v))` gives back `v` on the subset. */
  lemma {:induction false} ParseEmptyObject()
    ensures Parse(Serialize(Object([]))) == Some(Object([]))
  {
    assert Serialize(Object([])) == "{}";
  }

  lemma {:induction false} ParseObjectOf(ms: seq<(string, Value)>)
    requires Serializable(Object(ms)) && ms != []
    ensures Parse(Serialize(Object(ms))) == Some(Object(ms))
  {
    var s := Serialize(Object(ms));
    assert s == "{" + MembersText(ms);
    assert s[1..] == MembersText(ms) + [];
    ParseMembersOf(ms, []);
    assert s[1] == MembersText(ms)[0] == '"';
  }

  lemma {:induction false} ParseScalarText(v: Value)
    requires Serializable(v) && !v.Object?
    ensures Parse(Serialize(v)) == Some(v)
  {
    ParseScalarOf(v, []);
    assert ScalarText(v) + [] == ScalarText(v);
  }

  lemma ParseSerialize(v: Value)
    requires Serializable(v)
    ensures Parse(Serialize(v)) == Some(v)
  {
    if v.Object? {
      if v.members == [] { ParseEmptyObject(); } else { ParseObjectOf(v.members); }
    } else { ParseScalarText(v); }
  }


  // ---------------------------------------------------------------------------
  // Reading a parsed value the way JavaScript does
  // ---------------------------------------------------------------------------

  /** The value of the last member named `key`; a later duplicate overrides an earlier one. */
  function MemberValue(ms: seq<(string, Value)>, key: string): (r: Option<Value>)
    ensures r.None? <==> forall i :: 0 <= i < |ms| ==> ms[i].0 != key
    ensures r.Some? ==>
      exists i :: 0 <= i < |ms| && ms[i] == (key, r.value) && forall j :: i < j < |ms| ==> ms[j].0 != key
  {
    if ms == [] then None
    else match MemberValue(ms[1..], key)
      case Some(v) =>
        ghost var i :| 0 <= i < |ms[1..]| && ms[1..][i] == (key, v) &&
          forall j :: i < j < |ms[1..]| ==> ms[1..][j].0 != key;
        assert ms[i + 1] == (key, v);
        Some(v)
      case None => if ms[0].0 == key then Some(ms[0].1) else None
  }

  /** The outcome of `value.key`. */
  datatype Property = Throws | Undefined | Defined(value: Value)

  /**
   * `value.key` for a key that `Object.prototype` and the primitive
   * prototypes do not define: reading a property of `null` throws, a
   * primitive has no such property, an object has it when a member carries it.
   */
  function GetProperty(v: Value, key: string): (p: Property)
    ensures p.Throws? <==> v.Null?
    ensures p.Defined? ==> v.Object?
  {
    match v
    case Null => Throws
    case Object(ms) => (match MemberValue(ms, key) case Some(x) => Defined(x) case None => Undefined)
    case _ => Undefined
  }

  /** JavaScript truthiness: `null`, `false`, `0` and `""` are falsy, and every object is truthy. */
  predicate Truthy(v: Value) {
    match v
    case Null => false
    case Bool(b) => b
    case Num(n) => n != 0
    case Str(s) => s != ""
    case Object(_) => true
  }

  /** A property read that gives a truthy value; `undefined` is falsy. */
  predicate PropertyTruthy(p: Property) {
    p.Defined? && Truthy(p.value)
  }

  /** A JavaScript number, restricted to the integers and NaN. */
  datatype Number = NaN | Int(n: int)

  /** The decimal integer a trimmed numeric string denotes: an optional sign, then digits. */
  function DecimalStringValue(t: string): (r: Number)
    ensures r.Int? ==> t != []
  {
    var sign := if t != [] && (t[0] == '+' || t[0] == '-') then t[0] else ' ';
    var digits := if sign != ' ' then t[1..] else t;
    if digits != [] && forall i :: 0 <= i < |digits| ==> IsDigit(digits[i]) then
      var value: int := DigitsValue(digits);
      Int(if sign == '-' then -value else value)
    else NaN
  }

  /** `ToNumber` of a string: blank is 0, a signed decimal integer is its value, the rest NaN. */
  function StringToNumber(s: string): Number {
    var t := Trim(s);
    if t == [] then Int(0) else DecimalStringValue(t)
  }

  /** `ToNumber` of what a property read gives. */
  function ToNumber(p: Property): (r: Number)
    requires !p.Throws?
    ensures p.Undefined? ==> r.NaN?
  {
    match p
    case Undefined => NaN
    case Defined(v) =>
      match v
      case Null => Int(0)
      case Bool(b) => Int(if b then 1 else 0)
      case Num(n) => Int(n)
      case Str(s) => StringToNumber(s)
      case Object(_) => NaN
  }

  /** `x > y` with `y` coerced to a number: a comparison with NaN is false. */
  function GreaterThan(x: int, y: Number): (b: bool)
    ensures b ==> y.Int?
  {
    match y
    case NaN => false
    case Int(n) => x > n
  }
}
