/**
 * The admin session: password check against the configured secret, the
 * session token, and the session cookie that is issued, checked and cleared.
 * The cookie jar is a map from cookie name to cookie; the clock, the
 * configured password, the deployment mode and the token's random bytes are
 * parameters.
 */
module Auth {
  import opened Wrappers
  import opened Text
  import opened Json

  const AdminCookieName: string := "admin_session"

  /** 24 hours, in milliseconds. */
  const SessionDuration: int := 24 * 60 * 60 * 1000

  /** The cookie's lifetime, in seconds. */
  const SessionMaxAge: int := SessionDuration / 1000

  // ---------------------------------------------------------------------------
  // Password
  // ---------------------------------------------------------------------------

  /** `getAdminPassword`: the configured password, or the error thrown when it is unset or empty. */
  function GetAdminPassword(configured: Option<string>): (r: Result<string, string>)
    ensures r.Ok? <==> configured.Some? && configured.value != ""
    ensures r.Ok? ==> r.value == configured.value
    ensures r.Err? ==> r.error == "ADMIN_PASSWORD environment variable is not set"
  {
    if configured.Some? && configured.value != "" then Ok(configured.value)
    else Err("ADMIN_PASSWORD environment variable is not set")
  }

  /** `verifyPassword`: the thrown error of an unset password is caught and answered with false. */
  function VerifyPassword(configured: Option<string>, password: string): (ok: bool)
    ensures ok <==> configured.Some? && configured.value != "" && password == configured.value
  {
    match GetAdminPassword(configured)
    case Ok(stored) => password == stored
    case Err(_) => false
  }

  /** No configuration lets the empty password in. */
  lemma EmptyPasswordRejected(configured: Option<string>)
    ensures !VerifyPassword(configured, "")
  {
  }

  // ---------------------------------------------------------------------------
  // Session token
  // ---------------------------------------------------------------------------

  newtype byte = b: int | 0 <= b < 256

  /** The two hex digits of a byte, high nibble first. */
  function HexPair(b: byte): (s: string)
    ensures |s| == 2 && IsLowerHexDigit(s[0]) && IsLowerHexDigit(s[1])
  {
    [DigitChar(b as nat / 16), DigitChar(b as nat % 16)]
  }

  /** `byte.toString(16).padStart(2, "0")`. */
  function ByteHex(b: byte): string {
    PadStart(ToRadix(b as nat, 16), 2, '0')
  }

  /** `toString(16)` with a zero in front when it has one digit gives the two hex digits of the byte. */
  lemma ByteHexIsPair(b: byte)
    ensures ByteHex(b) == HexPair(b)
  {
    var n := b as nat;
    HexDigits(n);
    if n >= 16 {
      assert ToRadix(n, 16) == ToRadix(n / 16, 16) + [DigitChar(n % 16)];
      assert ToRadix(n / 16, 16) == [DigitChar(n / 16)];
    }
  }

  /** Text in the digits `0-9a-f` only. */
  predicate HexText(s: string) {
    forall i :: 0 <= i < |s| ==> IsLowerHexDigit(s[i])
  }

  /** `Array.from(bytes, ByteHex).join("")`, each `ByteHex` written as the `HexPair` it equals. */
  function HexEncode(bytes: seq<byte>): (s: string)
    ensures |s| == 2 * |bytes| && HexText(s)
  {
    if bytes == [] then []
    else
      var rest := HexEncode(bytes[1..]);
      var s := HexPair(bytes[0]) + rest;
      s
  }

  /** The token holds the two digits of each byte at positions `2i` and `2i + 1`, in byte order. */
  lemma {:induction false} HexEncodeAt(bytes: seq<byte>, i: nat)
    requires i < |bytes|
    ensures HexEncode(bytes)[2 * i] == HexPair(bytes[i])[0]
    ensures HexEncode(bytes)[2 * i + 1] == HexPair(bytes[i])[1]
  {
    var s := HexEncode(bytes);
    var rest := HexEncode(bytes[1..]);
    assert s == HexPair(bytes[0]) + rest;
    if i > 0 {
      HexEncodeAt(bytes[1..], i - 1);
      assert bytes[1..][i - 1] == bytes[i];
      var k := 2 * (i - 1);
      assert s[k + 2] == rest[k] && s[k + 3] == rest[k + 1];
    }
  }

  /** `generateSessionToken`, with the 32 random bytes given: 64 hex digits. */
  function GenerateSessionToken(random: seq<byte>): (token: string)
    requires |random| == 32
    ensures |token| == 64 && HexText(token) && PlainString(token)
  {
    HexEncode(random)
  }

  function HexValue(c: char): (d: nat)
    requires IsLowerHexDigit(c)
    ensures d < 16
  {
    if IsDigit(c) then c as int - '0' as int else c as int - 'a' as int + 10
  }

  /** Reads a token back, two hex digits per byte. */
  function HexDecode(s: string): (bytes: seq<byte>)
    requires HexText(s)
  {
    if |s| < 2 then []
    else
      assert HexText(s[2..]) by {
        assert forall i :: 0 <= i < |s[2..]| ==> s[2..][i] == s[i + 2];
      }
      [(HexValue(s[0]) * 16 + HexValue(s[1])) as byte] + HexDecode(s[2..])
  }

  lemma {:induction false} HexDecodeEncode(bytes: seq<byte>)
    ensures HexDecode(HexEncode(bytes)) == bytes
  {
    if bytes != [] {
      var s := HexEncode(bytes);
      var b := bytes[0] as nat;
      assert s[..2] == HexPair(bytes[0]);
      assert HexValue(s[0]) == b / 16 && HexValue(s[1]) == b % 16;
      assert s[2..] == HexEncode(bytes[1..]);
      HexDecodeEncode(bytes[1..]);
    }
  }

  /** Distinct random bytes give distinct tokens. */
  lemma TokenInjective(a: seq<byte>, b: seq<byte>)
    requires |a| == 32 && |b| == 32
    requires GenerateSessionToken(a) == GenerateSessionToken(b)
    ensures a == b
  {
    HexDecodeEncode(a);
    HexDecodeEncode(b);
  }

  // ---------------------------------------------------------------------------
  // Session cookie
  // ---------------------------------------------------------------------------

  datatype Cookie = Cookie(
    value: string,
    httpOnly: bool,
    secure: bool,
    sameSite: string,
    maxAge: int,
    path: string)

  type Jar = map<string, Cookie>

  /** The JSON object `{ token, expiresAt }` the cookie carries. */
  function SessionData(token: string, expiresAt: int): Value {
    Object([("token", Str(token)), ("expiresAt", Num(expiresAt))])
  }

  /** The cookie `setAdminSession` writes at time `now`; it is `secure` in production only. */
  function SessionCookie(token: string, now: int, production: bool): (c: Cookie)
    requires PlainString(token)
    ensures c.httpOnly && c.secure == production && c.sameSite == "lax" && c.path == "/"
    ensures c.maxAge == 86_400 && c.maxAge * 1000 == SessionDuration
    ensures Parse(c.value) == Some(SessionData(token, now + 86_400_000))
  {
    var data := SessionData(token, now + SessionDuration);
    ParseSerialize(data);
    Cookie(Serialize(data), true, production, "lax", SessionMaxAge, "/")
  }

  /** The jar after `setAdminSession`: the session cookie replaces any earlier one. */
  function Issue(jar: Jar, token: string, now: int, production: bool): (j: Jar)
    requires PlainString(token)
    ensures j.Keys == jar.Keys + {AdminCookieName}
    ensures j[AdminCookieName] == SessionCookie(token, now, production)
    ensures forall k :: k in jar && k != AdminCookieName ==> j[k] == jar[k]
  {
    jar[AdminCookieName := SessionCookie(token, now, production)]
  }

  /** The jar after `clearAdminSession`. */
  function Clear(jar: Jar): (j: Jar)
    ensures AdminCookieName !in j
    ensures forall k :: k in jar && k != AdminCookieName <==> k in j
    ensures forall k :: k in j ==> j[k] == jar[k]
  {
    jar - {AdminCookieName}
  }

  lemma ClearIdempotent(jar: Jar)
    ensures Clear(Clear(jar)) == Clear(jar)
  {
    assert Clear(Clear(jar)).Keys == Clear(jar).Keys;
  }

  /** What a session check decides, and whether it deletes the cookie. */
  datatype Verdict = Verdict(authenticated: bool, clears: bool)

  /** The session cookie's value, when there is a non-empty one. */
  function SessionValue(jar: Jar): (r: Option<string>)
    ensures r.Some? <==> AdminCookieName in jar && jar[AdminCookieName].value != ""
  {
    if AdminCookieName in jar && jar[AdminCookieName].value != "" then Some(jar[AdminCookieName].value)
    else None
  }

  /**
   * `isAdminAuthenticated` as written: no cookie or an unparseable one is
   * rejected; otherwise `Date.now() > session.expiresAt` rejects and clears,
   * and everything else is accepted, including a session whose `expiresAt`
   * is missing or not a number, since a comparison with NaN is false.
   */
  function CheckAsWritten(jar: Jar, now: int): (v: Verdict)
    ensures v.clears ==> !v.authenticated
    ensures SessionValue(jar).None? ==> v == Verdict(false, false)
    ensures SessionValue(jar).Some? && Parse(SessionValue(jar).value).None? ==> v == Verdict(false, false)
    ensures SessionValue(jar).Some? && Parse(SessionValue(jar).value) == Some(Null) ==> v == Verdict(false, false)
    ensures SessionValue(jar).Some? && Parse(SessionValue(jar).value).Some? && !Parse(SessionValue(jar).value).value.Null? ==>
      var expiresAt := GetProperty(Parse(SessionValue(jar).value).value, "expiresAt");
      (v.clears <==> GreaterThan(now, ToNumber(expiresAt))) && (v.authenticated <==> !v.clears)
  {
    match SessionValue(jar)
    case None => Verdict(false, false)
    case Some(text) =>
      match Parse(text)
      case None => Verdict(false, false)
      case Some(session) =>
        var expiresAt := GetProperty(session, "expiresAt");
        if expiresAt.Throws? then Verdict(false, false)
        else if GreaterThan(now, ToNumber(expiresAt)) then Verdict(false, true)
        else Verdict(true, false)
  }

  /** The expiry a well-formed session carries: an object whose `expiresAt` is an integer. */
  function Expiry(jar: Jar): (r: Option<int>)
    ensures r.Some? <==>
      SessionValue(jar).Some? && Parse(SessionValue(jar).value).Some? &&
      GetProperty(Parse(SessionValue(jar).value).value, "expiresAt").Defined? &&
      GetProperty(Parse(SessionValue(jar).value).value, "expiresAt").value.Num?
    ensures r.Some? ==> GetProperty(Parse(SessionValue(jar).value).value, "expiresAt") == Defined(Num(r.value))
  {
    match SessionValue(jar)
    case None => None
    case Some(text) =>
      match Parse(text)
      case Some(Object(ms)) =>
        (match MemberValue(ms, "expiresAt") case Some(Num(e)) => Some(e) case _ => None)
      case _ => None
  }

  /**
   * The session check with expiry enforced: a session is accepted only when it
   * carries an integer `expiresAt` that has not passed; one that has passed is
   * rejected and cleared, and every other cookie is rejected.
   */
  function CheckSession(jar: Jar, now: int): (v: Verdict)
    ensures v.authenticated <==> Expiry(jar).Some? && now <= Expiry(jar).value
    ensures v.clears <==> Expiry(jar).Some? && now > Expiry(jar).value
  {
    match Expiry(jar)
    case None => Verdict(false, false)
    case Some(e) => if now > e then Verdict(false, true) else Verdict(true, false)
  }

  /** The jar after a check: cleared when the check cleared it, untouched otherwise. */
  function AfterCheck(jar: Jar, v: Verdict): Jar {
    if v.clears then Clear(jar) else jar
  }

  /** A freshly issued session expires exactly 24 hours after it was issued. */
  lemma IssuedExpiry(jar: Jar, token: string, t: int, production: bool)
    requires PlainString(token)
    ensures Expiry(Issue(jar, token, t, production)) == Some(t + SessionDuration)
  {
    var j := Issue(jar, token, t, production);
    assert SessionValue(j) == Some(j[AdminCookieName].value);
    var ms := SessionData(token, t + SessionDuration).members;
    assert ms[1] == ("expiresAt", Num(t + SessionDuration));
    assert MemberValue(ms, "expiresAt") == Some(Num(t + SessionDuration));
  }

  /**
   * After `setAdminSession` at `t`, a check at `t2` accepts exactly when
   * `t2 <= t + 24h`, and otherwise clears the cookie; the token plays no part.
   */
  lemma IssueThenCheck(jar: Jar, token: string, t: int, t2: int, production: bool)
    requires PlainString(token)
    ensures CheckSession(Issue(jar, token, t, production), t2).authenticated <==> t2 <= t + 86_400_000
    ensures CheckSession(Issue(jar, token, t, production), t2).clears <==> t2 > t + 86_400_000
  {
    IssuedExpiry(jar, token, t, production);
  }

  /** Which token was issued makes no difference to any later check. */
  lemma TokenIrrelevant(jar: Jar, a: string, b: string, t: int, t2: int, production: bool)
    requires PlainString(a) && PlainString(b)
    ensures CheckSession(Issue(jar, a, t, production), t2) == CheckSession(Issue(jar, b, t, production), t2)
  {
    IssuedExpiry(jar, a, t, production);
    IssuedExpiry(jar, b, t, production);
  }

  /** After a clear no check succeeds, and none clears anything again. */
  lemma CheckAfterClear(jar: Jar, now: int)
    ensures CheckSession(Clear(jar), now) == Verdict(false, false)
    ensures CheckAsWritten(Clear(jar), now) == Verdict(false, false)
  {
  }

  /** On a well-formed session the corrected check decides as the code does. */
  lemma CheckAgreesOnWellFormed(jar: Jar, now: int)
    requires Expiry(jar).Some?
    ensures CheckSession(jar, now) == CheckAsWritten(jar, now)
  {
  }

  /** The code as written accepts a session cookie `{}`, which carries no expiry, at any time. */
  lemma AsWrittenAcceptsMissingExpiry(jar: Jar, now: int)
    requires AdminCookieName in jar && jar[AdminCookieName].value == "{}"
    ensures CheckAsWritten(jar, now).authenticated
    ensures !CheckSession(jar, now).authenticated
  {
    assert SessionValue(jar) == Some("{}");
    assert Parse("{}") == Some(Object([]));
  }

  // ---------------------------------------------------------------------------
  // The cookie store
  // ---------------------------------------------------------------------------

  /** The request's cookie store, which the session functions read and update. */
  class CookieStore {
    var cookies: Jar

    constructor (initial: Jar)
      ensures cookies == initial
    {
      cookies := initial;
    }

    /** `setAdminSession`: writes a fresh session cookie and returns its token. */
    method SetAdminSession(random: seq<byte>, now: int, production: bool) returns (token: string)
      requires |random| == 32
      modifies this
      ensures token == GenerateSessionToken(random)
      ensures cookies == Issue(old(cookies), token, now, production)
    {
      token := GenerateSessionToken(random);
      var expiresAt := now + SessionDuration;
      var sessionData := Serialize(SessionData(token, expiresAt));
      cookies := cookies[AdminCookieName := Cookie(sessionData, true, production, "lax", SessionDuration / 1000, "/")];
    }

    /** `isAdminAuthenticated`, with the expiry required to be an integer. */
    method IsAdminAuthenticated(now: int) returns (ok: bool)
      modifies this
      ensures ok == CheckSession(old(cookies), now).authenticated
      ensures cookies == AfterCheck(old(cookies), CheckSession(old(cookies), now))
    {
      if AdminCookieName !in cookies || cookies[AdminCookieName].value == "" {
        return false;
      }
      var session := Parse(cookies[AdminCookieName].value);
      if !session.Some? || !session.value.Object? {
        return false;
      }
      var expiresAt := MemberValue(session.value.members, "expiresAt");
      if !expiresAt.Some? || !expiresAt.value.Num? {
        return false;
      }
      if now > expiresAt.value.n {
        ClearAdminSession();
        return false;
      }
      return true;
    }

    /** `clearAdminSession`. */
    method ClearAdminSession()
      modifies this
      ensures cookies == Clear(old(cookies))
    {
      cookies := cookies - {AdminCookieName};
    }
  }
}
