/**
 The hand-written hexadecimal codec (internal/lightning/lnd_client.go), base16 as in section 8 of
 RFC 4648. Bytes are integers below 256; shifting and masking by four bits divide by 16.
 */
module HexCodec {
  import opened Options

  type Byte = b: int | 0 <= b < 256

  const HEX: string := "0123456789abcdef"

  function Digit(n: int): char
    requires 0 <= n < 16
  {
    HEX[n]
  }

  function Nibble(c: char): Option<int> {
    if '0' <= c <= '9' then Some(c as int - '0' as int)
    else if 'a' <= c <= 'f' then Some(c as int - 'a' as int + 10)
    else if 'A' <= c <= 'F' then Some(c as int - 'A' as int + 10)
    else None
  }

  predicate IsHex(s: string) {
    forall i :: 0 <= i < |s| ==> Nibble(s[i]).Some?
  }

  function Half(b: Byte, k: int): int {
    if k % 2 == 0 then b / 16 else b % 16
  }

  /** Two digits a byte, high nibble first. */
  function Encode(b: seq<Byte>): (s: string)
    ensures |s| == 2 * |b|
    ensures forall k :: 0 <= k < |s| ==> s[k] == Digit(Half(b[k / 2], k))
  {
    seq(2 * |b|, k requires 0 <= k < 2 * |b| => Digit(Half(b[k / 2], k)))
  }

  function Pair(s: string, i: int): Byte
    requires IsHex(s) && 0 <= 2 * i && 2 * i + 1 < |s|
  {
    NibbleRange(s[2 * i]);
    NibbleRange(s[2 * i + 1]);
    Nibble(s[2 * i]).value * 16 + Nibble(s[2 * i + 1]).value
  }

  lemma BarIsForeign()
    ensures Nibble('|').None?
  {
  }

  lemma NibbleRange(c: char)
    ensures Nibble(c).Some? ==> 0 <= Nibble(c).value < 16
  {
  }

  /** Text of odd length or with a foreign character has no decoding. */
  function Decode(s: string): Option<seq<Byte>> {
    if |s| % 2 != 0 || !IsHex(s) then None
    else Some(seq(|s| / 2, i requires 0 <= i < |s| / 2 => Pair(s, i)))
  }

  function LowerChar(c: char): char {
    if 'A' <= c <= 'Z' then (c as int + 32) as char else c
  }

  function Lower(s: string): (r: string)
    ensures |r| == |s| && forall i :: 0 <= i < |s| ==> r[i] == LowerChar(s[i])
  {
    seq(|s|, i requires 0 <= i < |s| => LowerChar(s[i]))
  }

  /** The character is the digit of value n, in either case. */
  ghost predicate Stands(c: char, n: int) {
    0 <= n < 16 && (c == "0123456789abcdef"[n] || c == "0123456789ABCDEF"[n])
  }

  /** Every character is a digit. */
  ghost predicate AllDigits(s: string) {
    forall k :: 0 <= k < |s| ==> IsDigit(s[k])
  }

  ghost predicate IsDigit(c: char) {
    exists n :: Stands(c, n)
  }

  lemma NibbleStands(c: char)
    ensures forall n :: Stands(c, n) <==> Nibble(c) == Some(n)
    ensures Nibble(c).Some? <==> IsDigit(c)
  {
    if Nibble(c).Some? {
      assert Stands(c, Nibble(c).value);
    }
  }

  lemma EncodedDigits(b: seq<Byte>)
    ensures forall i :: 0 <= i < |b| ==>
      Encode(b)[2 * i] == "0123456789abcdef"[b[i] / 16] && Encode(b)[2 * i + 1] == "0123456789abcdef"[b[i] % 16]
  {
    forall i | 0 <= i < |b|
      ensures Encode(b)[2 * i] == "0123456789abcdef"[b[i] / 16] && Encode(b)[2 * i + 1] == "0123456789abcdef"[b[i] % 16]
    {
      assert (2 * i) / 2 == i && (2 * i) % 2 == 0 && (2 * i + 1) / 2 == i && (2 * i + 1) % 2 == 1;
    }
  }

  lemma HexIsDigits(s: string)
    ensures IsHex(s) <==> AllDigits(s)
  {
    hide Nibble, Stands, IsDigit;
    forall k | 0 <= k < |s|
      ensures Nibble(s[k]).Some? <==> IsDigit(s[k])
    {
      NibbleStands(s[k]);
    }
  }

  lemma DecodedDigits(s: string)
    ensures Decode(s).Some? <==> |s| % 2 == 0 && AllDigits(s)
    ensures Decode(s).Some? ==>
      forall i :: 0 <= i < |Decode(s).value| ==> Stands(s[2 * i], Decode(s).value[i] / 16) && Stands(s[2 * i + 1], Decode(s).value[i] % 16)
  {
    hide Nibble, Stands;
    HexIsDigits(s);
    if Decode(s).Some? {
      forall i | 0 <= i < |s| / 2
        ensures Stands(s[2 * i], Pair(s, i) / 16) && Stands(s[2 * i + 1], Pair(s, i) % 16)
      {
        NibbleStands(s[2 * i]);
        NibbleStands(s[2 * i + 1]);
        NibbleRange(s[2 * i]);
        NibbleRange(s[2 * i + 1]);
      }
    }
  }

  // ------------------------------------------------ the source's loops

  method HexEncodeMacaroon(b: seq<Byte>) returns (s: string)
    ensures s == Encode(b)
    ensures |s| == 2 * |b|
    ensures forall i :: 0 <= i < |b| ==> s[2 * i] == "0123456789abcdef"[b[i] / 16] && s[2 * i + 1] == "0123456789abcdef"[b[i] % 16]
  {
    var out := new char[|b| * 2](_ => '0');
    for i := 0 to |b|
      invariant forall k :: 0 <= k < 2 * i ==> out[k] == Digit(Half(b[k / 2], k))
    {
      out[i * 2] := HEX[b[i] / 16];
      out[i * 2 + 1] := HEX[b[i] % 16];
    }
    s := out[..];
    assert s == Encode(b);
    EncodedDigits(b);
  }

  method DecodeHex(s: string) returns (r: Option<seq<Byte>>)
    ensures r == Decode(s)
    ensures r.Some? <==> |s| % 2 == 0 && AllDigits(s)
    ensures r.Some? ==> |r.value| == |s| / 2
    ensures r.Some? ==> forall i :: 0 <= i < |r.value| ==> Stands(s[2 * i], r.value[i] / 16) && Stands(s[2 * i + 1], r.value[i] % 16)
  {
    hide AllDigits, Stands, IsDigit;
    DecodedDigits(s);
    if |s| % 2 != 0 {
      return None;
    }
    var out := new Byte[|s| / 2](_ => 0);
    var i := 0;
    while i < |s|
      invariant 0 <= i <= |s| && i % 2 == 0
      invariant forall k :: 0 <= k < i ==> Nibble(s[k]).Some?
      invariant forall k :: 0 <= k < i / 2 ==> out[k] == Nibble(s[2 * k]).value * 16 + Nibble(s[2 * k + 1]).value
    {
      var a, b := Nibble(s[i]), Nibble(s[i + 1]);
      if a.None? || b.None? {
        return None;
      }
      NibbleRange(s[i]);
      NibbleRange(s[i + 1]);
      out[i / 2] := a.value * 16 + b.value;
      i := i + 2;
    }
    assert out[..] == Decode(s).value;
    r := Some(out[..]);
  }

  // ------------------------------------------------ the codec is lossless

  lemma DigitNibble(n: int)
    requires 0 <= n < 16
    ensures Nibble(Digit(n)) == Some(n)
  {
  }

  lemma NibbleDigit(c: char)
    requires Nibble(c).Some?
    ensures 0 <= Nibble(c).value < 16 && Digit(Nibble(c).value) == LowerChar(c)
  {
  }

  lemma EncodedNibble(b: seq<Byte>, k: int)
    requires 0 <= k < 2 * |b|
    ensures Nibble(Encode(b)[k]) == Some(Half(b[k / 2], k))
  {
    DigitNibble(Half(b[k / 2], k));
  }

  lemma EncodedPair(b: seq<Byte>, i: int)
    requires 0 <= i < |b| && IsHex(Encode(b))
    ensures Pair(Encode(b), i) == b[i]
  {
    hide Nibble, Encode;
    EncodedNibble(b, 2 * i);
    EncodedNibble(b, 2 * i + 1);
    assert (2 * i) / 2 == i && (2 * i + 1) / 2 == i;
  }

  /** Decoding inverts encoding, for every byte string. */
  lemma DecodeEncode(b: seq<Byte>)
    ensures Decode(Encode(b)) == Some(b)
  {
    hide Nibble, Half, Pair;
    var s := Encode(b);
    forall k | 0 <= k < |s|
      ensures Nibble(s[k]).Some?
    {
      EncodedNibble(b, k);
    }
    forall i | 0 <= i < |b|
      ensures Pair(s, i) == b[i]
    {
      EncodedPair(b, i);
    }
    assert Decode(s).value == b;
  }

  /** Exactly the even-length hexadecimal texts are accepted, and re-encoding one gives its lowercase. */
  lemma EncodeDecode(s: string)
    ensures Decode(s).Some? <==> |s| % 2 == 0 && forall i :: 0 <= i < |s| ==> Nibble(s[i]).Some?
    ensures Decode(s).Some? ==> Encode(Decode(s).value) == Lower(s)
  {
    if Decode(s).Some? {
      var b := Decode(s).value;
      forall k | 0 <= k < |s|
        ensures Encode(b)[k] == LowerChar(s[k])
      {
        var i := k / 2;
        assert b[i] == Pair(s, i);
        NibbleDigit(s[2 * i]);
        NibbleDigit(s[2 * i + 1]);
        assert b[i] / 16 == Nibble(s[2 * i]).value && b[i] % 16 == Nibble(s[2 * i + 1]).value;
        assert k == 2 * i || k == 2 * i + 1;
      }
    }
  }
}
