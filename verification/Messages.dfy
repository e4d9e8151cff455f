/**
 The canonical byte strings that nodes sign (internal/registry/registry.go and
 internal/rpc/server.go): fields joined by bars.
 */
module Messages {
  import HexCodec

  const DIGITS: string := "0123456789"

  function NatText(n: nat): string {
    if n < 10 then [DIGITS[n]] else NatText(n / 10) + [DIGITS[n % 10]]
  }

  /** The %d verb. */
  function Decimal(n: int): string {
    if n < 0 then "-" + NatText(-n) else NatText(n)
  }

  function RegisterMessage(key: string, uri: string, tier: string, ts: int): string {
    "owm-register|" + (key + "|" + (((uri + "|" + tier) + "|") + Decimal(ts)))
  }

  function TaskResultMessage(taskId: string, outputHash: string): string {
    "owm-task-result|" + (taskId + "|" + outputHash)
  }

  predicate IsTier(tier: string) {
    tier == "t1" || tier == "t2" || tier == "t3"
  }

  /** The register message: prefix, key, URI, tier and timestamp, in this order, with a bar between any two. */
  lemma RegisterFormat(key: string, uri: string, tier: string, ts: int)
    ensures RegisterMessage(key, uri, tier, ts) == "owm-register" + "|" + key + "|" + uri + "|" + tier + "|" + Decimal(ts)
  {
  }

  lemma TaskResultFormat(id: string, hash: seq<HexCodec.Byte>)
    ensures TaskResultMessage(id, HexCodec.Encode(hash)) == "owm-task-result" + "|" + id + "|" + HexCodec.Encode(hash)
  {
  }

  // ------------------------------------------------ splitting at bars

  /** Text before the first bar is determined. */
  lemma SplitFirst(a: string, b: string, c: string, d: string)
    requires '|' !in a && '|' !in c && a + "|" + b == c + "|" + d
    ensures a == c && b == d
  {
    var s, t := a + "|" + b, c + "|" + d;
    assert s[|a|] == '|' && t[|c|] == '|';
    assert |a| == |c|;
    assert s[..|a|] == a && t[..|c|] == c;
    assert s[|a| + 1..] == b && t[|c| + 1..] == d;
  }

  /** Text after the last bar is determined. */
  lemma SplitLast(a: string, b: string, c: string, d: string)
    requires '|' !in b && '|' !in d && a + "|" + b == c + "|" + d
    ensures a == c && b == d
  {
    var s, t := a + "|" + b, c + "|" + d;
    assert s[|a|] == '|' && t[|c|] == '|';
    assert |a| == |c|;
    assert s[..|a|] == a && t[..|c|] == c;
    assert s[|a| + 1..] == b && t[|c| + 1..] == d;
  }

  // ------------------------------------------------ decimal text

  predicate IsDigit(c: char) {
    '0' <= c <= '9'
  }

  lemma {:induction false} NatTextDigits(n: nat)
    ensures NatText(n) != [] && forall i :: 0 <= i < |NatText(n)| ==> IsDigit(NatText(n)[i])
    decreases n
  {
    if n >= 10 {
      NatTextDigits(n / 10);
    }
  }

  /** The number a text of digits stands for. */
  function ReadNat(s: string): int {
    if s == "" then 0 else 10 * ReadNat(s[..|s| - 1]) + (s[|s| - 1] as int - '0' as int)
  }

  function ReadInt(s: string): int {
    if s != "" && s[0] == '-' then -ReadNat(s[1..]) else ReadNat(s)
  }

  lemma {:induction false} NatTextReads(n: nat)
    ensures ReadNat(NatText(n)) == n
    ensures n > 0 ==> NatText(n)[0] != '0'
    decreases n
  {
    if n >= 10 {
      NatTextReads(n / 10);
      NatTextDigits(n / 10);
      var s := NatText(n);
      assert s[..|s| - 1] == NatText(n / 10) && s[0] == NatText(n / 10)[0];
    } else {
      assert NatText(n)[..0] == "";
      assert ReadNat("") == 0;
    }
  }

  /** The decimal text of a number reads back as that number, and does not begin with a zero unless it is one. */
  lemma DecimalReads(n: int)
    ensures ReadInt(Decimal(n)) == n
    ensures n > 0 ==> Decimal(n)[0] != '0'
    ensures n < 0 ==> Decimal(n)[0] == '-' && Decimal(n)[1..] == Decimal(-n)
  {
    NatTextReads(if n < 0 then -n else n);
    NatTextDigits(if n < 0 then -n else n);
    if n < 0 {
      assert Decimal(n)[1..] == NatText(-n);
    }
  }

  lemma DecimalInjective(n: int, m: int)
    requires Decimal(n) == Decimal(m)
    ensures n == m
  {
    DecimalReads(n);
    DecimalReads(m);
  }

  lemma DecimalBarFree(n: int)
    ensures '|' !in Decimal(n)
  {
    NatTextDigits(if n < 0 then -n else n);
  }

  // ------------------------------------------------ one message, one meaning

  /** A register message determines its fields: the key has no bar and the tier is a listed one; the URI
      may hold anything. */
  lemma RegisterInjective(k: string, u: string, t: string, ts: int, k': string, u': string, t': string, ts': int)
    requires '|' !in k && '|' !in k' && IsTier(t) && IsTier(t')
    requires RegisterMessage(k, u, t, ts) == RegisterMessage(k', u', t', ts')
    ensures k == k' && u == u' && t == t' && ts == ts'
  {
    hide Decimal;
    var p := "owm-register|";
    var rest, rest' := ((u + "|" + t) + "|") + Decimal(ts), ((u' + "|" + t') + "|") + Decimal(ts');
    var m, m' := k + "|" + rest, k' + "|" + rest';
    assert (p + m)[|p|..] == m && (p + m')[|p|..] == m';
    SplitFirst(k, rest, k', rest');
    DecimalBarFree(ts);
    DecimalBarFree(ts');
    SplitLast(u + "|" + t, Decimal(ts), u' + "|" + t', Decimal(ts'));
    SplitLast(u, t, u', t');
    DecimalInjective(ts, ts');
  }

  /** With a bar allowed in the key, two registrations would share a message. */
  lemma BarMakesRegisterAmbiguous()
    ensures RegisterMessage("a|b", "c", "t1", 0) == RegisterMessage("a", "b|c", "t1", 0)
  {
    var ts := Decimal(0);
    assert "a|b" + "|" + ((("c" + "|" + "t1") + "|") + ts) == "a" + "|" + ((("b|c" + "|" + "t1") + "|") + ts);
  }

  lemma HexBarFree(b: seq<HexCodec.Byte>)
    ensures '|' !in HexCodec.Encode(b)
  {
    hide HexCodec.Encode, HexCodec.Nibble;
    var s := HexCodec.Encode(b);
    assert HexCodec.Nibble('|').None? by { HexCodec.BarIsForeign(); }
    forall k | 0 <= k < |s|
      ensures s[k] != '|'
    {
      HexCodec.EncodedNibble(b, k);
    }
  }

  /** A task-result message determines its task id and the bytes of the output hash, which it carries in
      hexadecimal; the id may be any text. */
  lemma TaskResultInjective(id: string, hash: seq<HexCodec.Byte>, id': string, hash': seq<HexCodec.Byte>)
    requires TaskResultMessage(id, HexCodec.Encode(hash)) == TaskResultMessage(id', HexCodec.Encode(hash'))
    ensures id == id' && hash == hash'
  {
    hide HexCodec.Encode, HexCodec.Decode;
    var p, h, h' := "owm-task-result|", HexCodec.Encode(hash), HexCodec.Encode(hash');
    var m, m' := id + "|" + h, id' + "|" + h';
    assert (p + m)[|p|..] == m && (p + m')[|p|..] == m';
    HexBarFree(hash);
    HexBarFree(hash');
    SplitLast(id, h, id', h');
    HexCodec.DecodeEncode(hash);
    HexCodec.DecodeEncode(hash');
  }

  /** No signature over one kind of message serves for the other. */
  lemma MessagesDistinct(k: string, u: string, t: string, ts: int, id: string, hash: string)
    ensures RegisterMessage(k, u, t, ts) != TaskResultMessage(id, hash)
  {
    assert RegisterMessage(k, u, t, ts)[4] == 'r';
    assert TaskResultMessage(id, hash)[4] == 't';
  }
}
