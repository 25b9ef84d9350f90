/** Capability tokens on the wire: unpadded base64url claims (section 5 of RFC 4648), a dot, a signature. */
module Tokens {
  import opened Wrappers
  import opened Journal

  type Six = v: int | 0 <= v < 64

  function Digit(v: Six): char {
    if v < 26 then ('A' as int + v) as char
    else if v < 52 then ('a' as int + v - 26) as char
    else if v < 62 then ('0' as int + v - 52) as char
    else if v == 62 then '-' else '_'
  }

  function Value(c: char): Option<Six> {
    if 'A' <= c <= 'Z' then Some(c as int - 'A' as int)
    else if 'a' <= c <= 'z' then Some(c as int - 'a' as int + 26)
    else if '0' <= c <= '9' then Some(c as int - '0' as int + 52)
    else if c == '-' then Some(62) else if c == '_' then Some(63) else None
  }

  predicate Digits(s: string) {
    forall i :: 0 <= i < |s| ==> Value(s[i]).Some?
  }

  /** Up to three bytes as four characters. */
  function Quantum(b: Bytes): (s: string)
    requires 0 < |b| <= 3
    ensures |s| == 4 && Value(s[0]).Some? && Value(s[1]).Some?
    ensures if |b| > 1 then Value(s[2]).Some? else s[2] == '='
    ensures if |b| > 2 then Value(s[3]).Some? else s[3] == '='
  {
    var x, y, z := b[0] as int, if |b| > 1 then b[1] as int else 0, if |b| > 2 then b[2] as int else 0;
    [ Digit(x / 4), Digit(x % 4 * 16 + y / 16),
      if |b| > 1 then Digit(y % 16 * 4 + z / 64) else '=',
      if |b| > 2 then Digit(z % 64) else '=' ]
  }

  function EncodePadded(b: Bytes): string {
    if b == [] then "" else if |b| <= 3 then Quantum(b) else Quantum(b[..3]) + EncodePadded(b[3..])
  }

  function DecodeQuantum(s: string): Option<Bytes>
    requires |s| == 4
  {
    var x, y, z, w := Value(s[0]), Value(s[1]), Value(s[2]), Value(s[3]);
    if x.None? || y.None? then None
    else
      var first := (x.value * 4 + y.value / 16) as Byte;
      if s[2] == '=' && s[3] == '=' then Some([first])
      else if z.None? then None
      else
        var second := (y.value % 16 * 16 + z.value / 4) as Byte;
        if s[3] == '=' then Some([first, second])
        else if w.None? then None else Some([first, second, (z.value % 4 * 64 + w.value) as Byte])
  }

  function DecodePadded(s: string): Option<Bytes> {
    if s == "" then Some([])
    else if |s| < 4 then None
    else
      var head, rest := DecodeQuantum(s[..4]), DecodePadded(s[4..]);
      if head.None? || rest.None? || (|head.value| < 3 && |s| > 4) then None else Some(head.value + rest.value)
  }

  lemma QuantumRoundTrip(b: Bytes)
    requires 0 < |b| <= 3
    ensures DecodeQuantum(Quantum(b)) == Some(b)
  {
    var x, y, z := b[0] as int, if |b| > 1 then b[1] as int else 0, if |b| > 2 then b[2] as int else 0;
    DigitRoundTrip(x / 4);
    DigitRoundTrip(x % 4 * 16 + y / 16);
    DigitRoundTrip(y % 16 * 4 + z / 64);
    DigitRoundTrip(z % 64);
    BitsRoundTrip(x, y, z);
    assert b == if |b| == 1 then [b[0]] else if |b| == 2 then [b[0], b[1]] else [b[0], b[1], b[2]];
  }

  lemma BitsRoundTrip(x: int, y: int, z: int)
    requires 0 <= x < 256 && 0 <= y < 256 && 0 <= z < 256
    ensures var s, t, u := x % 4 * 16 + y / 16, y % 16 * 4 + z / 64, z % 64;
      x / 4 * 4 + s / 16 == x && s % 16 * 16 + t / 4 == y && t % 4 * 64 + u == z
  {
    assert (x % 4 * 16 + y / 16) / 16 == x % 4;
    assert (y % 16 * 4 + z / 64) / 4 == y % 16;
  }

  lemma DigitRoundTrip(v: Six)
    ensures Value(Digit(v)) == Some(v)
  {
  }

  lemma {:induction false} PaddedRoundTrip(b: Bytes)
    ensures DecodePadded(EncodePadded(b)) == Some(b)
  {
    if 0 < |b| <= 3 {
      QuantumRoundTrip(b);
      assert Quantum(b)[..4] == Quantum(b) && Quantum(b)[4..] == "" && b + [] == b;
    } else if b != [] {
      QuantumRoundTrip(b[..3]);
      PaddedRoundTrip(b[3..]);
      var s := EncodePadded(b);
      assert s[..4] == Quantum(b[..3]) && s[4..] == EncodePadded(b[3..]);
      assert b[..3] + b[3..] == b;
    }
  }

  function StripPads(s: string): string {
    if s != "" && s[|s| - 1] == '=' then StripPads(s[..|s| - 1]) else s
  }

  function Pads(n: nat): string {
    if n == 0 then "" else "=" + Pads(n - 1)
  }

  /** As much padding as makes the length a multiple of four. */
  function RestorePads(s: string): string {
    s + Pads((4 - |s| % 4) % 4)
  }

  function B64(b: Bytes): string {
    StripPads(EncodePadded(b))
  }

  function Unb64(s: string): Option<Bytes> {
    DecodePadded(RestorePads(s))
  }

  lemma {:induction false} StripAppend(q: string, r: string)
    requires q != "" && q[|q| - 1] != '='
    ensures StripPads(q + r) == q + StripPads(r)
  {
    if r == "" {
      assert q + r == q;
    } else if r[|r| - 1] == '=' {
      assert (q + r)[..|q + r| - 1] == q + r[..|r| - 1];
      StripAppend(q, r[..|r| - 1]);
    }
  }

  lemma StripQuantum(b: Bytes)
    requires 0 < |b| <= 3
    ensures StripPads(Quantum(b)) == Quantum(b)[..|b| + 1]
  {
    var s := Quantum(b);
    assert s[..4] == s && s[..3] == s[..4][..3] && s[..2] == s[..3][..2];
    if |b| == 1 {
      assert StripPads(s[..2]) == s[..2] && StripPads(s[..3]) == StripPads(s[..2]);
    } else if |b| == 2 {
      assert StripPads(s[..3]) == s[..3];
    }
  }

  lemma RestoreAppend(q: string, r: string)
    requires |q| % 4 == 0
    ensures RestorePads(q + r) == q + RestorePads(r)
  {
  }

  lemma ShortShape(b: Bytes)
    requires 0 < |b| <= 3
    ensures B64(b) == Quantum(b)[..|b| + 1] && EncodePadded(b) == RestorePads(B64(b))
  {
    StripQuantum(b);
    RestoreTo(Quantum(b), |b| + 1);
  }

  lemma RestoreTo(s: string, n: nat)
    requires |s| == 4 && 2 <= n <= 4 && forall i :: n <= i < 4 ==> s[i] == '='
    ensures RestorePads(s[..n]) == s
  {
    assert Pads(0) == "" && Pads(1) == "=" && Pads(2) == "==";
    if n == 2 {
      assert s == s[..2] + "==";
    } else if n == 3 {
      assert s == s[..3] + "=";
    } else {
      assert s == s[..4] + "";
    }
  }

  /** A padded string whose characters are all of the alphabet once its padding is stripped. */
  predicate Shaped(s: string) {
    Digits(StripPads(s)) && |StripPads(s)| % 4 != 1 && s == RestorePads(StripPads(s))
  }

  lemma JoinShape(q: string, r: string)
    requires |q| == 4 && Digits(q) && q[3] != '=' && Shaped(r)
    ensures Shaped(q + r)
  {
    StripAppend(q, r);
    RestoreAppend(q, StripPads(r));
    DigitsAppend(q, StripPads(r));
  }

  lemma DigitsAppend(q: string, r: string)
    requires Digits(q) && Digits(r)
    ensures Digits(q + r)
  {
  }

  lemma QuantumShape(b: Bytes)
    requires 0 < |b| <= 3
    ensures Shaped(Quantum(b)) && (|b| == 3 ==> Digits(Quantum(b)))
  {
    ShortShape(b);
  }

  /** What stripping leaves has only alphabet characters and never a length of one more than a multiple of four. */
  lemma {:induction false} StrippedShape(b: Bytes)
    ensures Shaped(EncodePadded(b))
  {
    if 0 < |b| <= 3 {
      QuantumShape(b);
    } else if b != [] {
      QuantumShape(b[..3]);
      StrippedShape(b[3..]);
      JoinShape(Quantum(b[..3]), EncodePadded(b[3..]));
    }
  }

  lemma Base64RoundTrip(b: Bytes)
    ensures Unb64(B64(b)) == Some(b)
  {
    StrippedShape(b);
    PaddedRoundTrip(b);
  }

  function Split(token: string): Option<(string, string)> {
    if token == "" then None
    else if token[0] == '.' then Some(("", token[1..]))
    else
      var rest := Split(token[1..]);
      if rest.None? then None else Some(([token[0]] + rest.value.0, rest.value.1))
  }

  lemma {:induction false} SplitFirstDot(body: string, sig: string)
    requires '.' !in body
    ensures Split(body + "." + sig) == Some((body, sig))
  {
    var token := body + "." + sig;
    if body == "" {
      assert token[1..] == sig;
    } else {
      assert token[1..] == body[1..] + "." + sig;
      SplitFirstDot(body[1..], sig);
      assert [body[0]] + body[1..] == body;
    }
  }

  datatype Decoded = Claims(claims: Bytes) | Malformed | BadSignature | BadEncoding

  /** `mac` is the keyed hash under the operator's key: any function of the body at all. */
  function Sign(claims: Bytes, mac: string -> string): string {
    var body := B64(claims);
    body + "." + mac(body)
  }

  function DecodeAndVerify(token: string, mac: string -> string): Decoded {
    var parts := Split(token);
    if parts.None? then Malformed
    else if parts.value.1 != mac(parts.value.0) then BadSignature
    else
      var claims := Unb64(parts.value.0);
      if claims.None? then BadEncoding else Claims(claims.value)
  }

  /** Whatever the claims and the key, a signed token verifies and carries exactly its claims. */
  lemma {:induction false} TokenRoundTrip(claims: Bytes, mac: string -> string)
    ensures DecodeAndVerify(Sign(claims, mac), mac) == Claims(claims)
  {
    var body := B64(claims);
    StrippedShape(claims);
    SplitFirstDot(body, mac(body));
    Base64RoundTrip(claims);
  }

  lemma {:induction false} SplitJoins(token: string)
    requires Split(token).Some?
    ensures var (body, sig) := Split(token).value; token == body + "." + sig && '.' !in body
  {
    if token[0] != '.' { SplitJoins(token[1..]); }
  }

  /** Only signed tokens are accepted: the rest after the first dot is the signature of all before it. */
  lemma {:induction false} AcceptedOnlyAsSigned(token: string, mac: string -> string)
    requires DecodeAndVerify(token, mac).Claims?
    ensures exists body: string ::
      '.' !in body && token == body + "." + mac(body) && Unb64(body) == Some(DecodeAndVerify(token, mac).claims)
  {
    SplitJoins(token);
  }

  /** Tokens of different claims differ, whatever the key. */
  lemma SignInjective(a: Bytes, b: Bytes, mac: string -> string)
    requires Sign(a, mac) == Sign(b, mac)
    ensures a == b
  {
    TokenRoundTrip(a, mac);
    TokenRoundTrip(b, mac);
  }
}
