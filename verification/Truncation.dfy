/**
 Bounded output: the UTF-8 text of a process, cut to a number of bytes without cutting a character
 (sections 3 and 4 of RFC 3629).
 */
module Truncation {
  import opened Journal

  newtype Scalar = c: int | 0 <= c < 0x110000 && !(0xD800 <= c < 0xE000)
  type Text = seq<Scalar>

  const REPLACEMENT: Scalar := 0xFFFD

  function Encode(c: Scalar): (b: Bytes)
    ensures 1 <= |b| <= 4
  {
    var n := c as int;
    if n < 0x80 then [n as Byte]
    else if n < 0x800 then [(0xC0 + n / 64) as Byte, (0x80 + n % 64) as Byte]
    else if n < 0x10000 then [(0xE0 + n / 4096) as Byte, (0x80 + n / 64 % 64) as Byte, (0x80 + n % 64) as Byte]
    else [(0xF0 + n / 262144) as Byte, (0x80 + n / 4096 % 64) as Byte, (0x80 + n / 64 % 64) as Byte,
          (0x80 + n % 64) as Byte]
  }

  function EncodeAll(t: Text): Bytes {
    if t == [] then [] else Encode(t[0]) + EncodeAll(t[1..])
  }

  predicate Tail(b: Byte) {
    0x80 <= b < 0xC0
  }

  /** The second bytes a three- or four-byte lead admits: no overlong forms, no surrogates. */
  predicate Second(lead: Byte, b: Byte) {
    Tail(b) && (lead == 0xE0 ==> b >= 0xA0) && (lead == 0xED ==> b < 0xA0)
    && (lead == 0xF0 ==> b >= 0x90) && (lead == 0xF4 ==> b < 0x90)
  }

  /**
   The next character and the bytes it takes. What is not a character is replaced, as much at a time
   as could have begun one.
   */
  function DecodeOne(b: Bytes): (r: (Scalar, nat))
    requires b != []
    ensures 1 <= r.1 <= |b|
  {
    var lead := b[0];
    if lead < 0x80 then (lead as int as Scalar, 1)
    else if lead < 0xC2 || lead > 0xF4 then (REPLACEMENT, 1)
    else if lead < 0xE0 then
      if |b| >= 2 && Tail(b[1]) then (((lead as int - 0xC0) * 64 + (b[1] as int - 0x80)) as Scalar, 2)
      else (REPLACEMENT, 1)
    else if |b| < 2 || !Second(lead, b[1]) then (REPLACEMENT, 1)
    else if lead < 0xF0 then
      if |b| >= 3 && Tail(b[2]) then
        (((lead as int - 0xE0) * 4096 + (b[1] as int - 0x80) * 64 + (b[2] as int - 0x80)) as Scalar, 3)
      else (REPLACEMENT, 2)
    else if |b| < 3 || !Tail(b[2]) then (REPLACEMENT, 2)
    else if |b| < 4 || !Tail(b[3]) then (REPLACEMENT, 3)
    else
      var high := (lead as int - 0xF0) * 262144 + (b[1] as int - 0x80) * 4096;
      ((high + (b[2] as int - 0x80) * 64 + (b[3] as int - 0x80)) as Scalar, 4)
  }

  function Decode(b: Bytes): Text {
    if b == [] then [] else var (c, n) := DecodeOne(b); [c] + Decode(b[n..])
  }

  lemma OneRoundTrip(c: Scalar, rest: Bytes)
    ensures DecodeOne(Encode(c) + rest) == (c, |Encode(c)|)
  {
    var n, b := c as int, Encode(c) + rest;
    if n < 0x80 {
    } else if n < 0x800 {
      assert b[0] == (0xC0 + n / 64) as Byte && b[1] == (0x80 + n % 64) as Byte;
    } else if n < 0x10000 {
      ThreeDigits(n);
      SecondOfThree(n);
      assert b[0] == (0xE0 + n / 4096) as Byte && b[1] == (0x80 + n / 64 % 64) as Byte;
      assert b[2] == (0x80 + n % 64) as Byte;
    } else {
      FourDigits(n);
      SecondOfFour(n);
      assert b[0] == (0xF0 + n / 262144) as Byte && b[1] == (0x80 + n / 4096 % 64) as Byte;
      assert b[2] == (0x80 + n / 64 % 64) as Byte && b[3] == (0x80 + n % 64) as Byte;
    }
  }

  lemma ThreeDigits(n: nat)
    ensures n == n / 4096 * 4096 + n / 64 % 64 * 64 + n % 64
  {
  }

  lemma FourDigits(n: nat)
    ensures n == n / 262144 * 262144 + n / 4096 % 64 * 4096 + n / 64 % 64 * 64 + n % 64
  {
    assert n / 4096 / 64 == n / 262144 && n / 4096 == n / 4096 / 64 * 64 + n / 4096 % 64;
    ThreeDigits(n);
  }

  /** A character cut short is replaced as a whole. */
  lemma OneCut(c: Scalar, k: nat)
    requires 0 < k < |Encode(c)|
    ensures DecodeOne(Encode(c)[..k]) == (REPLACEMENT, k)
  {
    var n, b := c as int, Encode(c)[..k];
    if n < 0x800 {
      assert b[0] == (0xC0 + n / 64) as Byte;
    } else if n < 0x10000 {
      SecondOfThree(n);
      assert b[0] == (0xE0 + n / 4096) as Byte && (k > 1 ==> b[1] == (0x80 + n / 64 % 64) as Byte);
    } else {
      SecondOfFour(n);
      assert b[0] == (0xF0 + n / 262144) as Byte && (k > 1 ==> b[1] == (0x80 + n / 4096 % 64) as Byte);
      assert k > 2 ==> b[2] == (0x80 + n / 64 % 64) as Byte;
    }
  }

  /** Neither an overlong form nor a surrogate is ever encoded. */
  lemma SecondOfThree(n: nat)
    requires 0x800 <= n < 0x10000 && !(0xD800 <= n < 0xE000)
    ensures Second((0xE0 + n / 4096) as Byte, (0x80 + n / 64 % 64) as Byte)
  {
    assert n / 64 == n / 4096 * 64 + n / 64 % 64;
  }

  lemma SecondOfFour(n: nat)
    requires 0x10000 <= n < 0x110000
    ensures Second((0xF0 + n / 262144) as Byte, (0x80 + n / 4096 % 64) as Byte)
  {
    assert n / 4096 == n / 262144 * 64 + n / 4096 % 64;
  }

  /** How many whole characters the first `k` bytes hold. */
  function Whole(t: Text, k: nat): (n: nat)
    ensures n <= |t|
  {
    if t == [] || k < |Encode(t[0])| then 0 else 1 + Whole(t[1..], k - |Encode(t[0])|)
  }

  /** The first `n` characters are all of those that the first `k` bytes hold whole. */
  ghost predicate Holds(t: Text, k: nat, n: nat) {
    && n <= |t| && |EncodeAll(t[..n])| <= k
    && (n < |t| ==> k < |EncodeAll(t[..n])| + |Encode(t[n])|)
  }

  /** Those characters, and one replacement for a cut one. */
  function Shown(t: Text, k: nat, n: nat): Text
    requires n <= |t|
  {
    t[..n] + if |EncodeAll(t[..n])| < k then [REPLACEMENT] else []
  }

  lemma CutInFirst(t: Text, k: nat)
    requires t != [] && k < |Encode(t[0])|
    ensures k <= |EncodeAll(t)| && Holds(t, k, 0) && Decode(EncodeAll(t)[..k]) == Shown(t, k, 0)
  {
    var e, b := Encode(t[0]), EncodeAll(t)[..k];
    assert b == e[..k] && t[..0] == [];
    if k > 0 {
      OneCut(t[0], k);
      assert b[k..] == [];
    }
  }

  lemma DecodeJoin(c: Scalar, rest: Bytes)
    ensures Decode(Encode(c) + rest) == [c] + Decode(rest)
  {
    OneRoundTrip(c, rest);
    assert (Encode(c) + rest)[|Encode(c)|..] == rest;
  }

  /** Whole characters come through whatever follows them. */
  lemma {:induction false} DecodePrefix(t: Text, rest: Bytes)
    ensures Decode(EncodeAll(t) + rest) == t + Decode(rest)
  {
    if t == [] {
      assert EncodeAll(t) + rest == rest;
    } else {
      DecodePrefix(t[1..], rest);
      DecodeStep(t[0], EncodeAll(t[1..]) + rest, t[1..], Decode(rest));
      EncodeFirst(t, rest);
      assert [t[0]] + t[1..] == t;
    }
  }

  lemma DecodeStep(c: Scalar, tail: Bytes, u: Text, v: Text)
    requires Decode(tail) == u + v
    ensures Decode(Encode(c) + tail) == [c] + u + v
  {
    DecodeJoin(c, tail);
    assert [c] + (u + v) == [c] + u + v;
  }

  lemma EncodeFirst(t: Text, rest: Bytes)
    requires t != []
    ensures EncodeAll(t) + rest == Encode(t[0]) + (EncodeAll(t[1..]) + rest)
  {
  }

  /** Nothing is made up: whatever is decoded stands encoded in the bytes it took, or is the replacement. */
  lemma OneSound(b: Bytes)
    requires b != []
    ensures var (c, n) := DecodeOne(b); c == REPLACEMENT || Encode(c) == b[..n]
  {
    var (c, n) := DecodeOne(b);
    if c != REPLACEMENT {
      if n == 3 {
        ThreeSound(b[0] as int - 0xE0, b[1] as int - 0x80, b[2] as int - 0x80);
      } else if n == 4 {
        FourSound(b[0] as int - 0xF0, b[1] as int - 0x80, b[2] as int - 0x80, b[3] as int - 0x80);
      }
    }
  }

  lemma ThreeSound(x: nat, y: nat, z: nat)
    requires y < 64 && z < 64
    ensures var n := x * 4096 + y * 64 + z; n / 4096 == x && n / 64 % 64 == y && n % 64 == z
  {
    var n := x * 4096 + y * 64 + z;
    assert n / 64 == x * 64 + y;
  }

  lemma FourSound(w: nat, x: nat, y: nat, z: nat)
    requires x < 64 && y < 64 && z < 64
    ensures var n := w * 262144 + x * 4096 + y * 64 + z;
      n / 262144 == w && n / 4096 % 64 == x && n / 64 % 64 == y && n % 64 == z
  {
    var n := w * 262144 + x * 4096 + y * 64 + z;
    assert n / 64 == w * 4096 + x * 64 + y;
    assert n / 4096 == w * 64 + x;
  }

  lemma EncodeJoin(c: Scalar, t: Text)
    ensures EncodeAll([c] + t) == Encode(c) + EncodeAll(t)
  {
    assert ([c] + t)[1..] == t;
  }

  lemma HoldsAfterFirst(t: Text, k: nat, n: nat)
    requires t != [] && |Encode(t[0])| <= k && Holds(t[1..], k - |Encode(t[0])|, n)
    ensures Holds(t, k, n + 1) && Shown(t, k, n + 1) == [t[0]] + Shown(t[1..], k - |Encode(t[0])|, n)
  {
    EncodeJoin(t[0], t[1..][..n]);
    assert t[..n + 1] == [t[0]] + t[1..][..n];
  }

  lemma DecodeAfterFirst(t: Text, k: nat)
    requires t != [] && |Encode(t[0])| <= k <= |EncodeAll(t)|
    ensures Decode(EncodeAll(t)[..k]) == [t[0]] + Decode(EncodeAll(t[1..])[..k - |Encode(t[0])|])
  {
    var rest := EncodeAll(t[1..])[..k - |Encode(t[0])|];
    DecodeJoin(t[0], rest);
    assert EncodeAll(t)[..k] == Encode(t[0]) + rest;
  }

  /** Decoding any prefix of an encoding. */
  lemma {:induction false} DecodeCut(t: Text, k: nat)
    requires k <= |EncodeAll(t)|
    ensures Holds(t, k, Whole(t, k)) && Decode(EncodeAll(t)[..k]) == Shown(t, k, Whole(t, k))
  {
    if t != [] {
      if k < |Encode(t[0])| {
        CutInFirst(t, k);
      } else {
        DecodeCut(t[1..], k - |Encode(t[0])|);
        HoldsAfterFirst(t, k, Whole(t[1..], k - |Encode(t[0])|));
        DecodeAfterFirst(t, k);
      }
    }
  }

  lemma {:induction false} RoundTrip(t: Text)
    ensures Decode(EncodeAll(t)) == t
  {
    DecodeCut(t, |EncodeAll(t)|);
    var n := Whole(t, |EncodeAll(t)|);
    if n < |t| { PrefixLonger(t, n); }
    assert EncodeAll(t)[..|EncodeAll(t)|] == EncodeAll(t) && t[..n] == t;
  }

  lemma {:induction false} PrefixLonger(t: Text, n: nat)
    requires n < |t|
    ensures |EncodeAll(t[..n + 1])| == |EncodeAll(t[..n])| + |Encode(t[n])|
    ensures |EncodeAll(t[..n + 1])| <= |EncodeAll(t)|
  {
    if n > 0 {
      PrefixLonger(t[1..], n - 1);
      assert t[..n + 1][1..] == t[1..][..n] && t[..n][1..] == t[1..][..n - 1];
    }
  }

  lemma {:induction false} PrefixesGrow(t: Text, m: nat, n: nat)
    requires m < n <= |t|
    ensures |EncodeAll(t[..m])| < |EncodeAll(t[..n])|
  {
    PrefixLonger(t, n - 1);
    if m < n - 1 { PrefixesGrow(t, m, n - 1); }
  }

  /** The longest prefix of `all` that fits in `max` bytes. */
  ghost predicate Longest(all: Text, max: nat, t: Text) {
    && t <= all && |EncodeAll(t)| <= max
    && forall n :: |t| < n <= |all| ==> |EncodeAll(all[..n])| > max
  }

  /** For any bytes whatever: the longest part of their decoding that fits. */
  method FitBytes(raw: Bytes, max: nat) returns (text: Text)
    ensures Longest(Decode(raw), max, text)
  {
    text := Decode(raw);
    var encoded := EncodeAll(text);
    assert Decode(raw)[..|text|] == text;
    while |encoded| > max && text != []
      invariant text == Decode(raw)[..|text|] && encoded == EncodeAll(text) && |text| <= |Decode(raw)|
      invariant forall n :: |text| < n <= |Decode(raw)| ==> |EncodeAll(Decode(raw)[..n])| > max
      decreases |text|
    {
      text := text[..|text| - 1];
      encoded := EncodeAll(text);
    }
  }

  /** `shown` is the characters that fit and one more that does not. */
  ghost predicate OneTooMany(t: Text, max: nat, shown: Text, fit: nat) {
    && fit < |t| && |shown| == fit + 1 && shown[..fit] == t[..fit] && |EncodeAll(shown)| > max
    && |EncodeAll(t[..fit])| <= max < |EncodeAll(t[..fit + 1])|
  }

  lemma CutBetween(t: Text, max: nat, n: nat)
    requires n <= |t| && |EncodeAll(t[..n])| == max + 1
    ensures n > 0 && OneTooMany(t, max, t[..n], n - 1)
  {
    assert t[..0] == [];
    PrefixLonger(t, n - 1);
  }

  lemma CutInside(t: Text, max: nat, n: nat)
    requires n < |t| && Holds(t, max + 1, n) && |EncodeAll(t[..n])| <= max
    ensures OneTooMany(t, max, t[..n] + [REPLACEMENT], n)
  {
    PrefixLonger(t, n);
    ReplacementLast(t[..n]);
  }

  /** What the first `max + 1` bytes decode to: the characters that fit and one more that does not. */
  lemma {:induction false} CutShown(t: Text, max: nat) returns (fit: nat)
    requires |EncodeAll(t)| > max
    ensures OneTooMany(t, max, Decode(EncodeAll(t)[..max + 1]), fit)
  {
    var n := Whole(t, max + 1);
    DecodeCut(t, max + 1);
    if n == |t| { assert t[..n] == t; }
    if |EncodeAll(t[..n])| == max + 1 {
      fit := n - 1;
      CutBetween(t, max, n);
      assert Shown(t, max + 1, n) == t[..n];
    } else {
      fit := n;
      CutInside(t, max, n);
    }
  }

  lemma ReplacementLast(t: Text)
    ensures |EncodeAll(t + [REPLACEMENT])| == |EncodeAll(t)| + 3
  {
    var all := t + [REPLACEMENT];
    PrefixLonger(all, |t|);
    assert all[..|t|] == t && all[..|t| + 1] == all;
  }

  /** Fitting one byte more than the limit loses nothing: the cut character is always dropped again. */
  lemma {:induction false} CutThenFit(t: Text, max: nat, text: Text)
    requires |EncodeAll(t)| > max && Longest(Decode(EncodeAll(t)[..max + 1]), max, text)
    ensures Longest(t, max, text) && text != t
  {
    var shown := Decode(EncodeAll(t)[..max + 1]);
    var fit := CutShown(t, max);
    assert text == shown[..|text|] && shown[..fit + 1] == shown;
    assert |EncodeAll(shown[..fit])| <= max;
    assert |text| == fit;
    forall m | fit < m <= |t| ensures |EncodeAll(t[..m])| > max {
      if fit + 1 < m { PrefixesGrow(t, fit + 1, m); }
    }
    assert t[..|t|] == t;
  }

  function Concat(chunks: seq<Bytes>): Bytes {
    if chunks == [] then [] else Concat(chunks[..|chunks| - 1]) + chunks[|chunks| - 1]
  }

  function Prefix(b: Bytes, n: nat): Bytes {
    if |b| <= n then b else b[..n]
  }

  /** Reads a stream chunk by chunk, keeps one byte more than `cap` and discards the rest. */
  method Pump(chunks: seq<Bytes>, cap: nat) returns (buf: Bytes)
    ensures buf == Prefix(Concat(chunks), cap + 1)
  {
    buf := [];
    for i := 0 to |chunks|
      invariant buf == Prefix(Concat(chunks[..i]), cap + 1)
    {
      assert chunks[..i + 1][..i] == chunks[..i];
      var room := cap + 1 - |buf|;
      if room > 0 {
        buf := buf + Prefix(chunks[i], room);
      }
    }
    assert chunks[..|chunks|] == chunks;
  }

  /**
   Exact truncation: of valid UTF-8 output the longest run of whole characters that fits, with no
   replacement character of its own, and `truncated` exactly when something was dropped. Of any
   other output at most `max` bytes.
   */
  method CappedRead(chunks: seq<Bytes>, max: int) returns (ok: bool, text: Text, truncated: bool)
    ensures ok <==> max >= 0
    ensures ok ==> |EncodeAll(text)| <= max && (truncated <==> |Concat(chunks)| > max)
    ensures ok ==> Longest(Decode(Prefix(Concat(chunks), max + 1)), max, text)
    ensures ok ==> forall t :: Concat(chunks) == EncodeAll(t) ==> Longest(t, max, text) && (truncated <==> text != t)
  {
    ok, text, truncated := max >= 0, [], false;
    if !ok {
      return;
    }
    var raw := Pump(chunks, max);
    truncated := |raw| > max;
    text := FitBytes(raw, max);
    forall t | Concat(chunks) == EncodeAll(t) ensures Longest(t, max, text) && (truncated <==> text != t) {
      if truncated {
        assert raw == EncodeAll(t)[..max + 1];
        CutThenFit(t, max, text);
      } else {
        RoundTrip(t);
        assert t[..|t|] == t;
      }
    }
  }
}
