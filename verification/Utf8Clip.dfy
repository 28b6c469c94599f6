/**
 clip_utf8 (app/channels/instagram.py): cut the encoding at a byte limit and
 decode what is left, dropping a broken character.  The encoding is that of
 section 3 of RFC 3629; the decoder skips, as Python's `ignore` handler does, the
 longest run of bytes that could have begun a character.
 */
module Utf8Clip {
  type Byte = int

  predicate IsScalar(c: int) {
    0 <= c < 0xD800 || 0xE000 <= c < 0x110000
  }

  type Scalar = c: int | IsScalar(c) witness 0

  function EncodeOne(c: Scalar): seq<Byte> {
    if c < 0x80 then [c]
    else if c < 0x800 then [0xC0 + c / 64, 0x80 + c % 64]
    else if c < 0x10000 then [0xE0 + c / 4096, 0x80 + c / 64 % 64, 0x80 + c % 64]
    else [0xF0 + c / 262144, 0x80 + c / 4096 % 64, 0x80 + c / 64 % 64, 0x80 + c % 64]
  }

  function Encode(text: seq<Scalar>): seq<Byte> {
    if text == [] then [] else EncodeOne(text[0]) + Encode(text[1..])
  }

  // ---- decoding arbitrary bytes ------------------------------------------------------------

  /** How long a character that starts with this byte is; 0 for a byte that starts none. */
  function Length(lead: Byte): nat {
    if 0 <= lead < 0x80 then 1
    else if 0xC2 <= lead < 0xE0 then 2
    else if 0xE0 <= lead < 0xF0 then 3
    else if 0xF0 <= lead < 0xF5 then 4
    else 0
  }

  /** Byte i of a character started by `lead`: no overlong form, no surrogate, nothing past U+10FFFF. */
  predicate Continues(lead: Byte, i: nat, b: Byte) {
    && 0x80 <= b < 0xC0
    && (i == 1 ==>
          && (lead == 0xE0 ==> 0xA0 <= b) && (lead == 0xED ==> b < 0xA0)
          && (lead == 0xF0 ==> 0x90 <= b) && (lead == 0xF4 ==> b < 0x90))
  }

  /** How many of the bytes from the first on belong together. */
  function Run(bytes: seq<Byte>, i: nat): nat
    requires 1 <= i <= |bytes|
    ensures i <= Run(bytes, i) <= |bytes|
    decreases |bytes| - i
  {
    if i < |bytes| && i < Length(bytes[0]) && Continues(bytes[0], i, bytes[i]) then Run(bytes, i + 1) else i
  }

  function DecodeOne(bytes: seq<Byte>): int
    requires |bytes| >= 1 && Length(bytes[0]) == |bytes|
  {
    match |bytes|
    case 1 => bytes[0]
    case 2 => (bytes[0] - 0xC0) * 64 + (bytes[1] - 0x80)
    case 3 => (bytes[0] - 0xE0) * 4096 + (bytes[1] - 0x80) * 64 + (bytes[2] - 0x80)
    case _ => (bytes[0] - 0xF0) * 262144 + (bytes[1] - 0x80) * 4096 + (bytes[2] - 0x80) * 64 + (bytes[3] - 0x80)
  }

  /** bytes.decode("utf-8", "ignore") */
  function DecodeIgnore(bytes: seq<Byte>): seq<int> {
    if bytes == [] then []
    else
      var n := Run(bytes, 1);
      if Length(bytes[0]) == n then [DecodeOne(bytes[..n])] + DecodeIgnore(bytes[n..]) else DecodeIgnore(bytes[n..])
  }

  // ---- a character, whole or cut ---------------------------------------------------------------

  /** Splitting off six bits twice is splitting off twelve. */
  lemma SixBits(c: nat)
    ensures c / 64 / 64 == c / 4096 && c / 4096 / 64 == c / 262144
    ensures c == c / 4096 * 4096 + c / 64 % 64 * 64 + c % 64
    ensures c == c / 262144 * 262144 + c / 4096 % 64 * 4096 + c / 64 % 64 * 64 + c % 64
  {
  }

  lemma ThreeBytes(c: Scalar)
    requires 0x800 <= c < 0x10000
    ensures var e := EncodeOne(c);
      Length(e[0]) == 3 == |e| && DecodeOne(e) == c && Continues(e[0], 1, e[1]) && Continues(e[0], 2, e[2])
  {
    SixBits(c);
    var q := c / 64;
    assert q % 64 == q - q / 64 * 64;
    assert IsScalar(c);
    assert c / 4096 == 13 ==> c < 0xD800;
    assert 64 * q <= c < 64 * q + 64;
  }

  lemma FourBytes(c: Scalar)
    requires 0x10000 <= c
    ensures var e := EncodeOne(c);
      && Length(e[0]) == 4 == |e| && DecodeOne(e) == c
      && Continues(e[0], 1, e[1]) && Continues(e[0], 2, e[2]) && Continues(e[0], 3, e[3])
  {
    SixBits(c);
    var q := c / 4096;
    assert q % 64 == q - q / 64 * 64;
    assert IsScalar(c);
    assert 4096 * q <= c < 4096 * q + 4096;
  }

  lemma EncodedContinues(c: Scalar)
    ensures var e := EncodeOne(c);
      |e| >= 1 && Length(e[0]) == |e| && DecodeOne(e) == c && forall i :: 1 <= i < |e| ==> Continues(e[0], i, e[i])
  {
    assert IsScalar(c);
    if 0x80 <= c < 0x800 {
      assert c == c / 64 * 64 + c % 64;
    } else if 0x800 <= c < 0x10000 {
      ThreeBytes(c);
    } else if 0x10000 <= c {
      FourBytes(c);
    }
  }

  lemma {:induction false} RunReaches(bytes: seq<Byte>, i: nat, m: nat)
    requires 1 <= i <= m <= |bytes| && m <= Length(bytes[0]) && (m == |bytes| || m == Length(bytes[0]))
    requires forall j :: i <= j < m ==> Continues(bytes[0], j, bytes[j])
    ensures Run(bytes, i) == m
    decreases m - i
  {
    if i < m {
      RunReaches(bytes, i + 1, m);
    }
  }

  /** The run starting at a character's first byte is the whole character, whatever follows, or all that is left of it. */
  lemma RunOfOne(c: Scalar, bytes: seq<Byte>, m: nat)
    requires var e := EncodeOne(c); 1 <= m <= |e| && m <= |bytes| && bytes[..m] == e[..m] && (m == |bytes| || m == |e|)
    ensures Length(bytes[0]) == |EncodeOne(c)| && Run(bytes, 1) == m
  {
    hide EncodeOne;
    var e := EncodeOne(c);
    EncodedContinues(c);
    assert forall j :: 0 <= j < m ==> bytes[j] == bytes[..m][j] == e[j];
    RunReaches(bytes, 1, m);
  }

  lemma WholeCharacter(c: Scalar, rest: seq<Byte>)
    ensures DecodeIgnore(EncodeOne(c) + rest) == [c] + DecodeIgnore(rest)
  {
    hide EncodeOne, DecodeOne;
    var e := EncodeOne(c);
    var bytes := e + rest;
    EncodedContinues(c);
    assert bytes[..|e|] == e == e[..|e|] && bytes[|e|..] == rest;
    RunOfOne(c, bytes, |e|);
  }

  lemma CutCharacter(c: Scalar, k: nat)
    requires k < |EncodeOne(c)|
    ensures DecodeIgnore(EncodeOne(c)[..k]) == []
  {
    if k > 0 {
      RunOfOne(c, EncodeOne(c)[..k], k);
    }
  }

  // ---- clipping -----------------------------------------------------------------------------------

  /** The longest prefix that fits in k bytes. */
  function Fitting(text: seq<Scalar>, k: int): seq<Scalar> {
    if text == [] || |EncodeOne(text[0])| > k then [] else [text[0]] + Fitting(text[1..], k - |EncodeOne(text[0])|)
  }

  lemma {:induction false} DecodedCutIsFitting(text: seq<Scalar>, k: nat)
    requires k <= |Encode(text)|
    ensures DecodeIgnore(Encode(text)[..k]) == Fitting(text, k)
  {
    if text != [] {
      var e, rest := EncodeOne(text[0]), Encode(text[1..]);
      if k < |e| {
        assert Encode(text)[..k] == e[..k];
        CutCharacter(text[0], k);
      } else {
        assert Encode(text)[..k] == e + rest[..k - |e|];
        WholeCharacter(text[0], rest[..k - |e|]);
        DecodedCutIsFitting(text[1..], k - |e|);
      }
    }
  }

  /** Fitting is what its name says: a prefix, within the limit, and one character more would not be. */
  lemma {:induction false} FittingIsLongest(text: seq<Scalar>, k: int)
    requires k >= 0
    ensures var r := Fitting(text, k);
      && r <= text && |Encode(r)| <= k
      && (|r| < |text| ==> |Encode(text[..|r| + 1])| > k)
  {
    if text != [] && |EncodeOne(text[0])| <= k {
      var r := Fitting(text[1..], k - |EncodeOne(text[0])|);
      FittingIsLongest(text[1..], k - |EncodeOne(text[0])|);
      assert Fitting(text, k)[1..] == r;
      if |r| + 1 < |text| {
        assert text[..|r| + 2][1..] == text[1..][..|r| + 1];
      }
    }
  }

  /** Python's encoded[:max_bytes]: a negative bound counts from the end. */
  function Bound(length: nat, maxBytes: int): (k: nat)
    ensures k <= length
  {
    if maxBytes >= length then length
    else if maxBytes >= 0 then maxBytes
    else if length + maxBytes >= 0 then length + maxBytes else 0
  }

  method ClipUtf8(text: seq<Scalar>, maxBytes: int) returns (clipped: seq<int>)
    ensures var k := Bound(|Encode(text)|, maxBytes);
      clipped == Fitting(text, k) && |Encode(Fitting(text, k))| <= k
    ensures clipped <= text
    ensures maxBytes >= 0 && |clipped| < |text| ==> |Encode(text[..|clipped| + 1])| > maxBytes
    ensures maxBytes < 0 ==>
      && (clipped == [] || |Encode(text[..|clipped|])| <= |Encode(text)| + maxBytes)
      && (|clipped| < |text| ==> |Encode(text[..|clipped| + 1])| > |Encode(text)| + maxBytes)
    ensures maxBytes >= 0 ==> |Encode(text[..|clipped|])| <= maxBytes
  {
    var encoded := Encode(text);
    var k := Bound(|encoded|, maxBytes);
    FittingIsLongest(text, k);
    DecodedCutIsFitting(text, k);
    if |encoded| <= maxBytes {
      WholeFits(text);
      assert text[..|text|] == text;
      return text;
    }
    clipped := DecodeIgnore(encoded[..k]);
    assert text[..|clipped|] == clipped == Fitting(text, k);
    hide Encode, Fitting;
  }

  lemma {:induction false} WholeFits(text: seq<Scalar>)
    ensures Fitting(text, |Encode(text)|) == text
  {
    if text != [] {
      WholeFits(text[1..]);
    }
  }

  /** In particular decoding undoes encoding. */
  lemma RoundTrip(text: seq<Scalar>)
    ensures DecodeIgnore(Encode(text)) == text
  {
    WholeFits(text);
    DecodedCutIsFitting(text, |Encode(text)|);
    assert Encode(text)[..|Encode(text)|] == Encode(text);
  }
}
