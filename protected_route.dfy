/** `ProtectedRoute`: the access decision for a guarded page, and the
    `encodeURIComponent` that puts the requested path into the login
    redirect. A decoder is defined beside the encoder to show that the
    redirect carries the path without loss. */
module ProtectedRoute {
  import opened Common
  import opened FrontTypes
  import opened AuthContext

  // ---------------------------------------------------------------------
  // encodeURIComponent

  /** The characters `encodeURIComponent` leaves alone. */
  predicate Unreserved(c: char) {
    ('A' <= c <= 'Z') || ('a' <= c <= 'z') || ('0' <= c <= '9') ||
    c == '-' || c == '_' || c == '.' || c == '!' || c == '~' || c == '*' || c == '\'' || c == '(' || c == ')'
  }

  predicate IsUpperHex(c: char) {
    ('0' <= c <= '9') || ('A' <= c <= 'F')
  }

  type Byte = b: int | 0 <= b < 256

  /** The UTF-8 encoding of one character, six bits per continuation
      byte. */
  function Utf8(c: char): (r: seq<Byte>)
    ensures 1 <= |r| <= 4
    ensures (c as int) < 0x80 <==> |r| == 1
    ensures |r| == 1 ==> r[0] == c as int
  {
    var n := c as int;
    var q1 := n / 64;
    var q2 := q1 / 64;
    var q3 := q2 / 64;
    if n < 0x80 then [n]
    else if n < 0x800 then [0xC0 + q1, 0x80 + n % 64]
    else if n < 0x10000 then [0xE0 + q2, 0x80 + q1 % 64, 0x80 + n % 64]
    else [0xF0 + q3, 0x80 + q2 % 64, 0x80 + q1 % 64, 0x80 + n % 64]
  }

  function HexDigit(d: int): (c: char)
    requires 0 <= d < 16
    ensures IsUpperHex(c)
  {
    if d < 10 then (48 + d) as char else (55 + d) as char
  }

  /** `%XY`, upper-case hex. */
  function Percent(b: Byte): (r: string)
    ensures |r| == 3 && r[0] == '%' && IsUpperHex(r[1]) && IsUpperHex(r[2])
  {
    ['%', HexDigit(b / 16), HexDigit(b % 16)]
  }

  function PercentAll(bs: seq<Byte>): (r: string)
    ensures |r| == 3 * |bs|
    ensures forall i :: 0 <= i < |r| ==> r[i] == '%' || IsUpperHex(r[i])
  {
    if bs == [] then [] else Percent(bs[0]) + PercentAll(bs[1..])
  }

  function EncodeChar(c: char): string {
    if Unreserved(c) then [c] else PercentAll(Utf8(c))
  }

  /** `encodeURIComponent(s)`. A string here holds Unicode scalar values, so
      the lone surrogate for which the original throws cannot occur. */
  function EncodeURIComponent(s: string): (r: string)
    ensures forall i :: 0 <= i < |r| ==> Unreserved(r[i]) || r[i] == '%' || IsUpperHex(r[i])
    ensures |r| >= |s|
  {
    if s == [] then [] else EncodeChar(s[0]) + EncodeURIComponent(s[1..])
  }

  /** A string of unreserved characters is its own encoding. */
  lemma {:induction false} EncodeUnreserved(s: string)
    requires forall i :: 0 <= i < |s| ==> Unreserved(s[i])
    ensures EncodeURIComponent(s) == s
  {
    if s != [] {
      EncodeUnreserved(s[1..]);
      assert s == [s[0]] + s[1..];
    }
  }

  // ---------------------------------------------------------------------
  // Decoding, the partner of the encoder

  function HexValue(c: char): (v: int)
    requires IsUpperHex(c)
    ensures 0 <= v < 16
  {
    if c <= '9' then c as int - 48 else c as int - 55
  }

  /** The bytes a percent-encoded string stands for: `%XY` is one byte, any
      other ASCII character is itself. None for anything else. */
  function ToBytes(s: string): Option<seq<Byte>> {
    if s == [] then Some([])
    else if s[0] == '%' then
      if |s| >= 3 && IsUpperHex(s[1]) && IsUpperHex(s[2]) then
        match ToBytes(s[3..])
        case Some(rest) => Some([HexValue(s[1]) * 16 + HexValue(s[2])] + rest)
        case None => None
      else None
    else if (s[0] as int) < 0x80 then
      match ToBytes(s[1..])
      case Some(rest) => Some([s[0] as int] + rest)
      case None => None
    else None
  }

  predicate IsScalar(n: int) {
    0 <= n < 0xD800 || 0xE000 <= n < 0x11_0000
  }

  predicate Continuation(b: Byte) {
    0x80 <= b < 0xC0
  }

  /** Length of the UTF-8 sequence a lead byte starts, 0 for a byte that
      cannot lead. */
  function SequenceLength(b: Byte): int {
    if b < 0x80 then 1
    else if 0xC0 <= b < 0xE0 then 2
    else if 0xE0 <= b < 0xF0 then 3
    else if 0xF0 <= b < 0xF8 then 4
    else 0
  }

  /** The code point of one UTF-8 sequence of length `SequenceLength(b[0])`. */
  function CodePoint(b: seq<Byte>): int
    requires |b| >= 1 && 1 <= SequenceLength(b[0]) <= |b|
  {
    match SequenceLength(b[0])
    case 1 => b[0] as int
    case 2 => (b[0] as int - 0xC0) * 64 + (b[1] as int - 0x80)
    case 3 => (b[0] as int - 0xE0) * 4096 + (b[1] as int - 0x80) * 64 + (b[2] as int - 0x80)
    case _ => (b[0] as int - 0xF0) * 262144 + (b[1] as int - 0x80) * 4096 + (b[2] as int - 0x80) * 64 + (b[3] as int - 0x80)
  }

  predicate WellFormedHead(b: seq<Byte>) {
    && |b| >= 1
    && 1 <= SequenceLength(b[0]) <= |b|
    && (forall i :: 1 <= i < SequenceLength(b[0]) ==> Continuation(b[i]))
    && IsScalar(CodePoint(b))
  }

  function DecodeUtf8(b: seq<Byte>): Option<string>
    decreases |b|
  {
    if b == [] then Some([])
    else if !WellFormedHead(b) then None
    else
      match DecodeUtf8(b[SequenceLength(b[0])..])
      case Some(rest) => Some([CodePoint(b) as char] + rest)
      case None => None
  }

  /** `decodeURIComponent(s)`, for strings whose percent escapes use
      upper-case hex (the only ones the encoder produces). */
  function DecodeURIComponent(s: string): Option<string> {
    match ToBytes(s)
    case Some(b) => DecodeUtf8(b)
    case None => None
  }

  function Utf8All(s: string): seq<Byte> {
    if s == [] then [] else Utf8(s[0]) + Utf8All(s[1..])
  }

  lemma {:induction false} HexRoundTrip(b: Byte)
    ensures HexValue(Percent(b)[1]) * 16 + HexValue(Percent(b)[2]) == b
  {
  }

  lemma {:induction false} ToBytesPercent(b: Byte, t: string)
    requires ToBytes(t).Some?
    ensures ToBytes(Percent(b) + t) == Some([b] + ToBytes(t).value)
  {
    var u := Percent(b) + t;
    assert u[0] == '%' && u[1] == Percent(b)[1] && u[2] == Percent(b)[2];
    assert u[3..] == t;
    HexRoundTrip(b);
  }

  lemma {:induction false} ToBytesPercentAll(bs: seq<Byte>, rest: string)
    requires ToBytes(rest).Some?
    ensures ToBytes(PercentAll(bs) + rest) == Some(bs + ToBytes(rest).value)
  {
    if bs == [] {
      assert PercentAll(bs) + rest == rest;
      assert bs + ToBytes(rest).value == ToBytes(rest).value;
    } else {
      var t := PercentAll(bs[1..]) + rest;
      assert PercentAll(bs) + rest == Percent(bs[0]) + t;
      ToBytesPercentAll(bs[1..], rest);
      ToBytesPercent(bs[0], t);
      assert [bs[0]] + (bs[1..] + ToBytes(rest).value) == bs + ToBytes(rest).value;
    }
  }

  lemma {:induction false} ToBytesEncode(s: string)
    ensures ToBytes(EncodeURIComponent(s)) == Some(Utf8All(s))
  {
    if s != [] {
      var rest := EncodeURIComponent(s[1..]);
      ToBytesEncode(s[1..]);
      if Unreserved(s[0]) {
        assert ([s[0]] + rest)[1..] == rest;
      } else {
        ToBytesPercentAll(Utf8(s[0]), rest);
      }
    }
  }

  /** One character's UTF-8 sequence decodes back to it. */
  lemma {:induction false} Utf8Head(c: char, rest: seq<Byte>)
    ensures WellFormedHead(Utf8(c) + rest)
    ensures SequenceLength((Utf8(c) + rest)[0]) == |Utf8(c)|
    ensures CodePoint(Utf8(c) + rest) == c as int
  {
    var n := c as int;
    var b := Utf8(c) + rest;
    var q1 := n / 64;
    var q2 := q1 / 64;
    var q3 := q2 / 64;
    assert n == 64 * q1 + n % 64;
    assert q1 == 64 * q2 + q1 % 64;
    assert q2 == 64 * q3 + q2 % 64;
    if n < 0x80 {
      assert b[0] == n;
    } else if n < 0x800 {
      assert b[0] == 0xC0 + q1 && b[1] == 0x80 + n % 64;
    } else if n < 0x10000 {
      assert b[0] == 0xE0 + q2 && b[1] == 0x80 + q1 % 64 && b[2] == 0x80 + n % 64;
    } else {
      assert b[0] == 0xF0 + q3 && b[1] == 0x80 + q2 % 64 && b[2] == 0x80 + q1 % 64 && b[3] == 0x80 + n % 64;
    }
  }

  lemma {:induction false} DecodeUtf8All(s: string)
    ensures DecodeUtf8(Utf8All(s)) == Some(s)
  {
    if s != [] {
      var b := Utf8All(s);
      Utf8Head(s[0], Utf8All(s[1..]));
      assert b[|Utf8(s[0])|..] == Utf8All(s[1..]);
      DecodeUtf8All(s[1..]);
      assert s == [s[0]] + s[1..];
    }
  }

  /** The `redirect` parameter decodes to exactly the path that was
      requested. */
  lemma {:induction false} DecodeEncode(s: string)
    ensures DecodeURIComponent(EncodeURIComponent(s)) == Some(s)
  {
    ToBytesEncode(s);
    DecodeUtf8All(s);
  }

  // ---------------------------------------------------------------------
  // The guard

  datatype Decision = Navigate(to: string) | RenderChildren

  const LoginPath := "/login?redirect="
  const ForbiddenPath := "/error/forbidden"

  /** `ProtectedRoute({ children, roles })` at `pathname`. */
  function Guard(user: Option<User>, roles: Option<seq<string>>, pathname: string): (d: Decision)
    ensures !IsAuthenticated(user) ==> d == Navigate(LoginPath + EncodeURIComponent(pathname))
    ensures IsAuthenticated(user) && roles.Some? && user.value.role !in roles.value ==> d == Navigate(ForbiddenPath)
    ensures d == RenderChildren <==> IsAuthenticated(user) && (roles.None? || user.value.role in roles.value)
  {
    if !IsAuthenticated(user) then Navigate(LoginPath + EncodeURIComponent(pathname))
    else if roles.Some? && user.Some? && user.value.role !in roles.value then Navigate(ForbiddenPath)
    else RenderChildren
  }

  /** An empty `roles` list is truthy: it forbids every signed-in user. */
  lemma EmptyRolesForbid(user: Option<User>, pathname: string)
    requires IsAuthenticated(user)
    ensures Guard(user, Some([]), pathname) == Navigate(ForbiddenPath)
  {
  }

  /** The login redirect names the requested path, whatever the roles. */
  lemma {:induction false} LoginRedirectCarriesPath(roles: Option<seq<string>>, pathname: string)
    ensures Guard(None, roles, pathname).Navigate?
    ensures var to := Guard(None, roles, pathname).to;
      && |to| >= |LoginPath| && to[..|LoginPath|] == LoginPath
      && DecodeURIComponent(to[|LoginPath|..]) == Some(pathname)
  {
    DecodeEncode(pathname);
    var to := Guard(None, roles, pathname).to;
    assert to[|LoginPath|..] == EncodeURIComponent(pathname);
  }

  /** An administrator passes an administrators-only route, a plain user is
      sent to the forbidden page, and a path with a space and a non-ASCII
      letter is escaped in the login redirect. */
  lemma GuardExamples(admin: User, plain: User)
    requires admin.role == AdminRole && plain.role == UserRole
    ensures Guard(Some(admin), Some([AdminRole]), "/admin") == RenderChildren
    ensures Guard(Some(plain), Some([AdminRole]), "/admin") == Navigate(ForbiddenPath)
    ensures Guard(None, None, "/a b") == Navigate("/login?redirect=%2Fa%20b")
    ensures EncodeURIComponent("é") == "%C3%A9"
  {
    assert EncodeURIComponent("/a b") == "%2Fa%20b" by {
      assert EncodeChar('/') == "%2F";
      assert EncodeChar(' ') == "%20";
      assert EncodeURIComponent("b") == "b";
      assert EncodeURIComponent(" b") == "%20b";
      assert EncodeURIComponent("a b") == "a%20b";
    }
    assert EncodeURIComponent("é") == "%C3%A9" by {
      assert Utf8('é') == [0xC3, 0xA9];
      assert PercentAll([0xA9]) == "%A9";
    }
  }
}
