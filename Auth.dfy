/**
 * The admin session check and the session id the login route issues.
 * The cookie value and the random bytes are inputs.
 */
module Auth {
  import opened Common
  import Middleware

  /** `isAdminRequest`: an `admin_session` cookie longer than 20 characters. */
  predicate IsAdminRequest(session: Option<string>) {
    session.Some? && |session.value| > 20
  }

  /** A missing cookie is never an admin session, nor one of 20 characters or fewer; anything longer is. */
  lemma AdminThreshold(session: Option<string>)
    ensures session.None? ==> !IsAdminRequest(session)
    ensures session.Some? ==> (IsAdminRequest(session) <==> |session.value| >= 21)
  {
  }

  type Byte = b: nat | b < 256

  /** The lower-case hex digit of a nibble. */
  function HexDigit(n: nat): (c: char)
    requires n < 16
    ensures ('0' <= c <= '9') || ('a' <= c <= 'f')
  {
    if n < 10 then ('0' as int + n) as char else ('a' as int + n - 10) as char
  }

  /** `buffer.toString('hex')`: two lower-case hex digits per byte, high nibble first. */
  function HexEncode(bytes: seq<Byte>): (r: string)
    ensures |r| == 2 * |bytes|
    ensures forall i :: 0 <= i < |r| ==> ('0' <= r[i] <= '9') || ('a' <= r[i] <= 'f')
  {
    if bytes == [] then ""
    else [HexDigit(bytes[0] / 16), HexDigit(bytes[0] % 16)] + HexEncode(bytes[1..])
  }

  /** The value of a lower-case hex digit. */
  function DigitValue(c: char): Option<nat> {
    if '0' <= c <= '9' then Some(c as int - '0' as int)
    else if 'a' <= c <= 'f' then Some(c as int - 'a' as int + 10)
    else None
  }

  /** Reading a hex string back into bytes; `None` for odd length or a non-digit. */
  function HexDecode(s: string): (r: Option<seq<Byte>>)
    ensures r.Some? ==> 2 * |r.value| == |s|
    decreases |s|
  {
    if s == [] then Some([])
    else if |s| == 1 then None
    else match (DigitValue(s[0]), DigitValue(s[1]), HexDecode(s[2..]))
      case (Some(h), Some(l), Some(rest)) =>
        if h < 16 && l < 16 then Some([h * 16 + l] + rest) else None
      case _ => None
  }

  lemma DigitRoundTrip(n: nat)
    requires n < 16
    ensures DigitValue(HexDigit(n)) == Some(n)
  {
  }

  lemma ByteNibbles(b: Byte)
    ensures b / 16 < 16 && b % 16 < 16 && b / 16 * 16 + b % 16 == b
  {
  }

  /** Decoding a two-digit prefix. */
  lemma DecodeStep(s: string, h: nat, l: nat, rest: seq<Byte>)
    requires |s| >= 2 && DigitValue(s[0]) == Some(h) && DigitValue(s[1]) == Some(l) && h < 16 && l < 16
    requires HexDecode(s[2..]) == Some(rest)
    ensures HexDecode(s) == Some([h * 16 + l] + rest)
  {
  }

  lemma EncodeStep(bytes: seq<Byte>)
    requires bytes != []
    ensures var s := HexEncode(bytes);
      s[0] == HexDigit(bytes[0] / 16) && s[1] == HexDigit(bytes[0] % 16) && s[2..] == HexEncode(bytes[1..])
  {
  }

  /** Decoding the two digits of one byte in front of a decodable rest. */
  lemma DecodeBytePrefix(s: string, b: Byte, rest: seq<Byte>)
    requires |s| >= 2 && s[0] == HexDigit(b / 16) && s[1] == HexDigit(b % 16)
    requires HexDecode(s[2..]) == Some(rest)
    ensures HexDecode(s) == Some([b] + rest)
  {
    ByteNibbles(b);
    DigitRoundTrip(b / 16);
    DigitRoundTrip(b % 16);
    DecodeStep(s, b / 16, b % 16, rest);
  }

  lemma RoundTripStep(bytes: seq<Byte>)
    requires bytes != [] && HexDecode(HexEncode(bytes[1..])) == Some(bytes[1..])
    ensures HexDecode(HexEncode(bytes)) == Some(bytes)
  {
    EncodeStep(bytes);
    DecodeBytePrefix(HexEncode(bytes), bytes[0], bytes[1..]);
    assert [bytes[0]] + bytes[1..] == bytes;
  }

  /** The hex form of a byte string determines it: decoding gives the bytes back. */
  lemma {:induction false} HexRoundTrip(bytes: seq<Byte>)
    ensures HexDecode(HexEncode(bytes)) == Some(bytes)
  {
    if bytes != [] {
      HexRoundTrip(bytes[1..]);
      RoundTripStep(bytes);
    }
  }

  /** What the login route answers. */
  datatype LoginResponse = NotConfigured | InvalidCredentials | LoggedIn(sessionId: string, maxAge: nat)

  /** Eight hours, the cookie's `maxAge`. */
  const SessionMaxAge: nat := 60 * 60 * 8

  /**
   * The login route: 500 when `ADMIN_EMAIL` or `ADMIN_PASSWORD` is unset or
   * empty, a fresh session id for the matching pair, 401 otherwise.
   * `random` is what `crypto.randomBytes(32)` returned.
   */
  function Login(email: Option<string>, password: Option<string>,
                 adminEmail: Option<string>, adminPassword: Option<string>, random: seq<Byte>): LoginResponse
  {
    if adminEmail.None? || adminEmail.value == "" || adminPassword.None? || adminPassword.value == "" then NotConfigured
    else if email == adminEmail && password == adminPassword then LoggedIn(HexEncode(random), SessionMaxAge)
    else InvalidCredentials
  }

  /** A session id made from 32 random bytes has 64 characters, so it always counts as an admin session. */
  lemma SessionIdIsAdmin(email: Option<string>, password: Option<string>,
                         adminEmail: Option<string>, adminPassword: Option<string>, random: seq<Byte>)
    requires |random| == 32
    ensures Login(email, password, adminEmail, adminPassword, random).LoggedIn? ==>
              |Login(email, password, adminEmail, adminPassword, random).sessionId| == 64
              && IsAdminRequest(Some(Login(email, password, adminEmail, adminPassword, random).sessionId))
  {
  }

  /** Only the configured pair logs in. */
  lemma LoginNeedsBoth(email: Option<string>, password: Option<string>,
                       adminEmail: Option<string>, adminPassword: Option<string>, random: seq<Byte>)
    ensures Login(email, password, adminEmail, adminPassword, random).LoggedIn? <==>
              adminEmail.Some? && adminEmail.value != "" && adminPassword.Some? && adminPassword.value != ""
              && email == adminEmail && password == adminPassword
  {
  }

  /**
   * The `/admin` page gate is weaker than the session check: every admin
   * session passes it, but so does a one-character cookie that the API routes reject.
   */
  lemma PageGateWeakerThanSession(session: Option<string>)
    ensures IsAdminRequest(session) ==> Middleware.Truthy(session)
    ensures Middleware.Truthy(Some("x")) && !IsAdminRequest(Some("x"))
  {
  }
}
