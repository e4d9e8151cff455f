/**
 The canonical JSON of a payment receipt (internal/observer/receipt.go): keys sorted, strings quoted as
 in section 7 of RFC 8259 with the escapes of Go's encoder. Strings are sequences of Unicode scalar
 values, that is, valid UTF-8; ordering by bytes and by scalar values then agree.
 */
module Receipts {
  import opened Options
  import opened HexCodec

  // ------------------------------------------------ quoting

  /** Characters the encoder writes as a six-character escape. */
  predicate NeedsCode(c: char) {
    c < ' ' || c == '<' || c == '>' || c == '&' || c as int == 0x2028 || c as int == 0x2029
  }

  function Hex4(n: int): string
    requires 0 <= n < 0x10000
  {
    [Digit(n / 4096), Digit(n / 256 % 16), Digit(n / 16 % 16), Digit(n % 16)]
  }

  /** The letter that follows the backslash in a two-character escape. */
  function ShortEscape(c: char): Option<char> {
    if c == '\"' then Some('\"')
    else if c == '\\' then Some('\\')
    else if c as int == 8 then Some('b')
    else if c as int == 12 then Some('f')
    else if c == '\n' then Some('n')
    else if c == '\r' then Some('r')
    else if c == '\t' then Some('t')
    else None
  }

  function Escape(c: char): string {
    if ShortEscape(c).Some? then ['\\', ShortEscape(c).value]
    else if NeedsCode(c) then "\\u" + Hex4(c as int)
    else [c]
  }

  function EscapeAll(s: string): string {
    if s == "" then "" else Escape(s[0]) + EscapeAll(s[1..])
  }

  function Quote(s: string): string {
    "\"" + EscapeAll(s) + "\""
  }

  /** What each kind of character becomes: a short escape, a code, or itself. */
  lemma ShortEscapesAre()
    ensures Escape('\"') == ['\\', '\"'] && Escape('\\') == ['\\', '\\'] && Escape('\n') == ['\\', 'n']
    ensures Escape('\r') == ['\\', 'r'] && Escape('\t') == ['\\', 't'] && Escape(8 as char) == ['\\', 'b'] && Escape(12 as char) == ['\\', 'f']
  {
    hide Hex4;
  }

  lemma CodesAre()
    ensures Hex4(1) == "0001" && Hex4(0x26) == "0026" && Hex4(0x3c) == "003c" && Hex4(0x3e) == "003e" && Hex4(0x2029) == "2029"
  {
  }

  lemma EscapesAre(c: char)
    ensures c < ' ' && ShortEscape(c).None? ==> Escape(c) == "\\u" + Hex4(c as int)
    ensures c == '<' || c == '>' || c == '&' || c as int == 0x2028 || c as int == 0x2029 ==> Escape(c) == "\\u" + Hex4(c as int)
    ensures c >= ' ' && c != '\"' && c != '\\' && c != '<' && c != '>' && c != '&' && c as int != 0x2028 && c as int != 0x2029 ==> Escape(c) == [c]
  {
    hide Hex4;
  }

  // ------------------------------------------------ quoted text delimits itself

  lemma Hex4Injective(n: int, m: int)
    requires 0 <= n < 0x10000 && 0 <= m < 0x10000 && Hex4(n) == Hex4(m)
    ensures n == m
  {
    hide Nibble, Digit;
    var s, t := Hex4(n), Hex4(m);
    DigitsDetermine(n / 4096, m / 4096, s[0], t[0]);
    DigitsDetermine(n / 256 % 16, m / 256 % 16, s[1], t[1]);
    DigitsDetermine(n / 16 % 16, m / 16 % 16, s[2], t[2]);
    DigitsDetermine(n % 16, m % 16, s[3], t[3]);
    Hex4Value(n);
    Hex4Value(m);
  }

  lemma Hex4Value(n: int)
    requires 0 <= n < 0x10000
    ensures n == 4096 * (n / 4096) + 256 * (n / 256 % 16) + 16 * (n / 16 % 16) + n % 16
  {
    var a, b := n / 16, n / 256;
    assert a / 16 == b && b / 16 == n / 4096;
    assert n == 16 * a + n % 16;
    assert a == 16 * b + a % 16;
    assert b == 16 * (b / 16) + b % 16;
  }

  lemma DigitsDetermine(a: int, b: int, c: char, d: char)
    requires 0 <= a < 16 && 0 <= b < 16 && c == Digit(a) && d == Digit(b) && c == d
    ensures a == b
  {
    DigitNibble(a);
    DigitNibble(b);
  }

  lemma ShortEscapeInjective(c: char, d: char)
    requires ShortEscape(c).Some? && ShortEscape(c) == ShortEscape(d)
    ensures c == d && ShortEscape(c).value != 'u'
  {
  }

  /** The first escape of a text is determined, whatever follows. */
  lemma EscapeDelimits(c: char, x: string, d: char, y: string)
    requires Escape(c) + x == Escape(d) + y
    ensures c == d && x == y
  {
    hide Hex4;
    var s, t := Escape(c) + x, Escape(d) + y;
    assert s[0] == t[0] && s[0] == Escape(c)[0] && t[0] == Escape(d)[0];
    if s[0] == '\\' {
      assert s[1] == t[1] && s[1] == Escape(c)[1] && t[1] == Escape(d)[1];
      if ShortEscape(c).Some? || ShortEscape(d).Some? {
        if ShortEscape(c).Some? {
          ShortEscapeInjective(c, if ShortEscape(c) == ShortEscape(d) then d else c);
        } else {
          ShortEscapeInjective(d, d);
        }
      } else {
        CodeDelimits(c, x, d, y);
      }
    }
    assert |Escape(c)| == |Escape(d)|;
    assert s[|Escape(c)|..] == x && t[|Escape(d)|..] == y;
  }

  lemma CodeDelimits(c: char, x: string, d: char, y: string)
    requires ShortEscape(c).None? && ShortEscape(d).None? && NeedsCode(c) && NeedsCode(d)
    requires Escape(c) + x == Escape(d) + y
    ensures c == d
  {
    var s, t := Escape(c) + x, Escape(d) + y;
    assert s[2..6] == Hex4(c as int) && t[2..6] == Hex4(d as int);
    Hex4Injective(c as int, d as int);
  }

  lemma EscapeNotQuote(c: char)
    ensures Escape(c) != "" && Escape(c)[0] != '\"'
  {
  }

  lemma EscapedStart(a: string, x: string)
    ensures (EscapeAll(a) + "\"" + x)[0] == '\"' <==> a == ""
  {
    if a != "" {
      EscapeNotQuote(a[0]);
      assert (EscapeAll(a) + "\"" + x)[0] == Escape(a[0])[0];
    }
  }

  lemma {:induction false} EscapeAllDelimits(a: string, x: string, b: string, y: string)
    requires EscapeAll(a) + "\"" + x == EscapeAll(b) + "\"" + y
    ensures a == b && x == y
    decreases |a|
  {
    hide Escape;
    var s, t := EscapeAll(a) + "\"" + x, EscapeAll(b) + "\"" + y;
    EscapedStart(a, x);
    EscapedStart(b, y);
    if a == "" {
      assert s[1..] == x && t[1..] == y;
    } else {
      var p, q := EscapeAll(a[1..]) + "\"" + x, EscapeAll(b[1..]) + "\"" + y;
      assert s == Escape(a[0]) + p && t == Escape(b[0]) + q;
      EscapeDelimits(a[0], p, b[0], q);
      EscapeAllDelimits(a[1..], x, b[1..], y);
      assert a == [a[0]] + a[1..] && b == [b[0]] + b[1..];
    }
  }

  /** A quoted string and the text after it are both determined. */
  lemma QuoteDelimits(a: string, x: string, b: string, y: string)
    requires Quote(a) + x == Quote(b) + y
    ensures a == b && x == y
  {
    var s, t := Quote(a) + x, Quote(b) + y;
    assert s[1..] == EscapeAll(a) + "\"" + x && t[1..] == EscapeAll(b) + "\"" + y;
    EscapeAllDelimits(a, x, b, y);
  }

  // ------------------------------------------------ objects

  /** A string, or another value with the text the JSON encoder gives it. */
  datatype Value = Text(s: string) | Other(json: string)

  function ValueText(v: Value): string {
    match v
    case Text(s) => Quote(s)
    case Other(json) => json
  }

  type Entry = (string, Value)

  ghost predicate AllText(es: seq<Entry>) {
    forall i :: 0 <= i < |es| ==> es[i].1.Text?
  }

  function Item(e: Entry, rest: string): string {
    Quote(e.0) + (":" + (ValueText(e.1) + rest))
  }

  /** What follows an entry. */
  function Tail(es: seq<Entry>): string {
    if es == [] then "}" else "," + Item(es[0], Tail(es[1..]))
  }

  function Render(es: seq<Entry>): string {
    if es == [] then "{}" else "{" + Item(es[0], Tail(es[1..]))
  }

  lemma ItemDelimits(e: Entry, x: string, f: Entry, y: string)
    requires Item(e, x) == Item(f, y) && e.1.Text? && f.1.Text?
    ensures e == f && x == y
  {
    hide Quote;
    var p, q := ":" + (Quote(e.1.s) + x), ":" + (Quote(f.1.s) + y);
    QuoteDelimits(e.0, p, f.0, q);
    assert p[1..] == Quote(e.1.s) + x && q[1..] == Quote(f.1.s) + y;
    QuoteDelimits(e.1.s, x, f.1.s, y);
  }

  lemma TailStart(es: seq<Entry>)
    ensures Tail(es)[0] == '}' <==> es == []
  {
  }

  lemma {:induction false} TailInjective(es: seq<Entry>, fs: seq<Entry>)
    requires Tail(es) == Tail(fs) && AllText(es) && AllText(fs)
    ensures es == fs
    decreases |es|
  {
    hide Item;
    TailStart(es);
    TailStart(fs);
    if es != [] {
      var p, q := Item(es[0], Tail(es[1..])), Item(fs[0], Tail(fs[1..]));
      assert ("," + p)[1..] == p && ("," + q)[1..] == q;
      ItemDelimits(es[0], Tail(es[1..]), fs[0], Tail(fs[1..]));
      TailInjective(es[1..], fs[1..]);
      assert es == [es[0]] + es[1..] && fs == [fs[0]] + fs[1..];
    }
  }

  lemma RenderStart(es: seq<Entry>)
    ensures Render(es)[1] == '}' <==> es == []
  {
    if es != [] {
      assert Item(es[0], Tail(es[1..]))[0] == '\"';
    }
  }

  /** The text of an object of strings determines its entries. */
  lemma RenderInjective(es: seq<Entry>, fs: seq<Entry>)
    requires Render(es) == Render(fs) && AllText(es) && AllText(fs)
    ensures es == fs
  {
    hide Item;
    RenderStart(es);
    RenderStart(fs);
    if es != [] {
      var p, q := Item(es[0], Tail(es[1..])), Item(fs[0], Tail(fs[1..]));
      assert ("{" + p)[1..] == p && ("{" + q)[1..] == q;
      ItemDelimits(es[0], Tail(es[1..]), fs[0], Tail(fs[1..]));
      TailInjective(es[1..], fs[1..]);
      assert es == [es[0]] + es[1..] && fs == [fs[0]] + fs[1..];
    }
  }

  /** Two strings under two keys, as they are written. */
  lemma RenderedPair(k: string, v: string, l: string, w: string)
    ensures Render([(k, Text(v)), (l, Text(w))]) == "{" + Quote(k) + ":" + Quote(v) + "," + Quote(l) + ":" + Quote(w) + "}"
  {
    hide Quote;
    var e, f := (k, Text(v)), (l, Text(w));
    assert [e, f][1..] == [f] && [f][1..] == [];
    assert Tail([f]) == "," + Item(f, "}");
    Regrouped(Quote(k), Quote(v), Quote(l), Quote(w));
  }

  lemma Regrouped(k: string, v: string, l: string, w: string)
    ensures "{" + (k + (":" + (v + ("," + (l + (":" + (w + "}"))))))) == "{" + k + ":" + v + "," + l + ":" + w + "}"
  {
  }

  // ------------------------------------------------ sorted keys

  predicate Less(a: string, b: string) {
    if b == "" then false
    else if a == "" then true
    else a[0] < b[0] || (a[0] == b[0] && Less(a[1..], b[1..]))
  }

  /** The texts agree before position i, where a ends and b goes on, or both go on and a has the lesser character. */
  ghost predicate DiffersAt(a: string, b: string, i: int) {
    && 0 <= i <= |a| && i < |b| && a[..i] == b[..i]
    && (i == |a| || a[i] < b[i])
  }

  /** The order of keys is the lexicographic one. */
  lemma {:induction false} LessIsLexicographic(a: string, b: string)
    ensures Less(a, b) <==> exists i :: DiffersAt(a, b, i)
    decreases |a|
  {
    if b != "" && a == "" {
      assert DiffersAt(a, b, 0);
    } else if b != "" && a[0] != b[0] {
      if a[0] < b[0] {
        assert DiffersAt(a, b, 0);
      }
      assert forall i :: i > 0 && DiffersAt(a, b, i) ==> a[..i][0] == b[..i][0];
    } else if b != "" {
      LessIsLexicographic(a[1..], b[1..]);
      assert a == [a[0]] + a[1..] && b == [b[0]] + b[1..];
      if i :| DiffersAt(a[1..], b[1..], i) {
        assert a[..i + 1] == [a[0]] + a[1..][..i] && b[..i + 1] == [b[0]] + b[1..][..i];
        assert DiffersAt(a, b, i + 1);
      }
      if i :| DiffersAt(a, b, i) {
        assert i > 0;
        assert a[1..][..i - 1] == a[..i][1..] && b[1..][..i - 1] == b[..i][1..];
        assert DiffersAt(a[1..], b[1..], i - 1);
      }
    }
  }

  lemma {:induction false} LessTotal(a: string, b: string)
    ensures Less(a, b) || a == b || Less(b, a)
    decreases |a|
  {
    if a != "" && b != "" && a[0] == b[0] {
      LessTotal(a[1..], b[1..]);
      assert a == [a[0]] + a[1..] && b == [b[0]] + b[1..];
    }
  }

  lemma {:induction false} LessTransitive(a: string, b: string, c: string)
    requires Less(a, b) && Less(b, c)
    ensures Less(a, c)
    decreases |a|
  {
    if a != "" && a[0] == b[0] && b[0] == c[0] {
      LessTransitive(a[1..], b[1..], c[1..]);
    }
  }

  lemma {:induction false} LessIrreflexive(a: string)
    ensures !Less(a, a)
    decreases |a|
  {
    if a != "" {
      LessIrreflexive(a[1..]);
    }
  }

  ghost predicate Ascending(ks: seq<string>) {
    forall i, j :: 0 <= i < j < |ks| ==> Less(ks[i], ks[j])
  }

  ghost predicate SortedListing(ks: seq<string>, S: set<string>) {
    Ascending(ks) && forall k :: k in ks <==> k in S
  }

  /** A set of keys has only one sorted listing. */
  lemma {:induction false} ListingUnique(ks: seq<string>, ls: seq<string>, S: set<string>)
    requires SortedListing(ks, S) && SortedListing(ls, S)
    ensures ks == ls
    decreases |ks|
  {
    EmptyListing(ks, S);
    EmptyListing(ls, S);
    if ks != [] {
      SameFirst(ks, ls, S);
      DropFirst(ks, S);
      DropFirst(ls, S);
      ListingUnique(ks[1..], ls[1..], S - {ks[0]});
    }
  }

  lemma EmptyListing(ks: seq<string>, S: set<string>)
    requires SortedListing(ks, S)
    ensures ks == [] <==> S == {}
  {
    if ks != [] {
      assert ks[0] in ks;
    }
  }

  lemma SameFirst(ks: seq<string>, ls: seq<string>, S: set<string>)
    requires SortedListing(ks, S) && SortedListing(ls, S) && ks != [] && ls != []
    ensures ks[0] == ls[0]
  {
    assert ks[0] in ks && ls[0] in ls;
    assert ks[0] in ls && ls[0] in ks;
    var i :| 0 <= i < |ls| && ls[i] == ks[0];
    var j :| 0 <= j < |ks| && ks[j] == ls[0];
    if i > 0 && j > 0 {
      LessTransitive(ks[0], ls[0], ks[0]);
      LessIrreflexive(ks[0]);
    }
  }

  lemma DropFirst(ks: seq<string>, S: set<string>)
    requires SortedListing(ks, S) && ks != []
    ensures SortedListing(ks[1..], S - {ks[0]})
  {
    LessIrreflexive(ks[0]);
    assert ks == [ks[0]] + ks[1..];
    forall k | k in ks[1..]
      ensures k != ks[0]
    {
      var i :| 0 <= i < |ks[1..]| && ks[1..][i] == k;
      assert Less(ks[0], ks[i + 1]);
    }
  }

  function InsertKey(ks: seq<string>, k: string): seq<string> {
    if ks == [] then [k]
    else if Less(k, ks[0]) then [k] + ks
    else [ks[0]] + InsertKey(ks[1..], k)
  }

  lemma {:induction false} InsertKeySorts(ks: seq<string>, S: set<string>, k: string)
    requires SortedListing(ks, S) && k !in S
    ensures SortedListing(InsertKey(ks, k), S + {k})
    decreases |ks|
  {
    if ks == [] {
    } else if Less(k, ks[0]) {
      PrependKey(ks, S, k);
    } else {
      assert ks[0] in S;
      LessTotal(k, ks[0]);
      DropFirst(ks, S);
      var T := S - {ks[0]};
      InsertKeySorts(ks[1..], T, k);
      var r := InsertKey(ks[1..], k);
      forall i | 0 <= i < |r|
        ensures Less(ks[0], r[i])
      {
        assert r[i] in T + {k};
        if r[i] != k {
          assert r[i] in ks[1..];
          var j :| 0 <= j < |ks[1..]| && ks[1..][j] == r[i];
          assert Less(ks[0], ks[j + 1]);
        }
      }
      assert S + {k} == T + {k} + {ks[0]};
    }
  }

  lemma PrependKey(ks: seq<string>, S: set<string>, k: string)
    requires SortedListing(ks, S) && ks != [] && Less(k, ks[0])
    ensures SortedListing([k] + ks, S + {k})
  {
    forall i | 0 <= i < |ks|
      ensures Less(k, ks[i])
    {
      if i > 0 {
        LessTransitive(k, ks[0], ks[i]);
      }
    }
  }

  // ------------------------------------------------ the canonical encoding

  function Entries(m: map<string, Value>, ks: seq<string>): (es: seq<Entry>)
    requires forall k :: k in ks ==> k in m
    ensures |es| == |ks| && forall i :: 0 <= i < |ks| ==> es[i] == (ks[i], m[ks[i]])
  {
    seq(|ks|, i requires 0 <= i < |ks| => (ks[i], m[ks[i]]))
  }

  /** The text of a map: its entries in key order. */
  ghost predicate IsCanonical(text: string, m: map<string, Value>) {
    exists ks :: SortedListing(ks, m.Keys) && text == Render(Entries(m, ks))
  }

  /** Collects the keys in any order, sorted. */
  method SortedKeys(m: map<string, Value>) returns (keys: seq<string>)
    ensures SortedListing(keys, m.Keys)
  {
    hide Less;
    keys := [];
    var todo := m.Keys;
    while todo != {}
      invariant todo <= m.Keys && SortedListing(keys, m.Keys - todo)
      decreases todo
    {
      var k :| k in todo;
      InsertKeySorts(keys, m.Keys - todo, k);
      assert m.Keys - todo + {k} == m.Keys - (todo - {k});
      keys := InsertKey(keys, k);
      todo := todo - {k};
    }
    assert m.Keys - {} == m.Keys;
  }

  /** What the builder still has to write once the first i entries are out. */
  function Remaining(es: seq<Entry>, i: nat): string
    requires i <= |es|
  {
    if i == 0 && es != [] then Item(es[0], Tail(es[1..])) else Tail(es[i..])
  }

  method MarshalMapSorted(m: map<string, Value>) returns (b: string)
    ensures IsCanonical(b, m)
  {
    hide Quote, Less;
    var keys := SortedKeys(m);
    ghost var es := Entries(m, keys);
    b := "{";
    for i := 0 to |keys|
      invariant b + Remaining(es, i) == Render(es)
    {
      ghost var was, done := b, Remaining(es, i);
      if i > 0 {
        b := b + ",";
      }
      b := b + Quote(keys[i]);
      b := b + ":";
      match m[keys[i]] {
        case Text(v) => b := b + Quote(v);
        case Other(json) => b := b + json;
      }
      WroteEntry(es, i, was, b);
    }
    b := b + "}";
  }

  lemma WroteEntry(es: seq<Entry>, i: nat, was: string, b: string)
    requires i < |es|
    requires b == was + (if i > 0 then "," else "") + Quote(es[i].0) + ":" + ValueText(es[i].1)
    ensures b + Remaining(es, i + 1) == was + Remaining(es, i)
  {
    hide Quote, ValueText;
    assert es[i..][1..] == es[i + 1..];
    var comma, rest := if i > 0 then "," else "", Tail(es[i + 1..]);
    assert Remaining(es, i) == comma + (Quote(es[i].0) + (":" + (ValueText(es[i].1) + rest)));
    Regroup(was, comma, Quote(es[i].0), ValueText(es[i].1), rest);
  }

  lemma Regroup(was: string, comma: string, k: string, v: string, rest: string)
    ensures was + comma + k + ":" + v + rest == was + (comma + (k + (":" + (v + rest))))
  {
  }

  /** Whatever order the map's keys were visited in, the text is the same. */
  lemma CanonicalIsDeterministic(a: string, b: string, m: map<string, Value>)
    requires IsCanonical(a, m) && IsCanonical(b, m)
    ensures a == b
  {
    var ks :| SortedListing(ks, m.Keys) && a == Render(Entries(m, ks));
    var ls :| SortedListing(ls, m.Keys) && b == Render(Entries(m, ls));
    ListingUnique(ks, ls, m.Keys);
  }

  ghost predicate Strings(m: map<string, Value>) {
    forall k :: k in m ==> m[k].Text?
  }

  /** The text of a map of strings determines the map. */
  lemma CanonicalIsInjective(text: string, m: map<string, Value>, n: map<string, Value>)
    requires IsCanonical(text, m) && IsCanonical(text, n) && Strings(m) && Strings(n)
    ensures m == n
  {
    hide Render;
    var ks :| SortedListing(ks, m.Keys) && text == Render(Entries(m, ks));
    var ls :| SortedListing(ls, n.Keys) && text == Render(Entries(n, ls));
    var es, fs := Entries(m, ks), Entries(n, ls);
    assert AllText(es) && AllText(fs);
    RenderInjective(es, fs);
    assert forall i :: 0 <= i < |ks| ==> ks[i] == es[i].0 && ls[i] == fs[i].0;
    assert ks == ls;
    assert m.Keys == n.Keys;
    forall k | k in m
      ensures m[k] == n[k]
    {
      assert k in ks;
      var i :| 0 <= i < |ks| && ks[i] == k;
      assert es[i] == (k, m[k]) && fs[i] == (k, n[k]);
    }
  }

  /** The fields a receipt's hash covers. */
  datatype Receipt = Receipt(rail: string, reference: string, sender: string, receiver: string, bucket: string)

  function Fields(r: Receipt): map<string, Value> {
    map["payment_rail" := Text(r.rail), "settlement_reference" := Text(r.reference),
        "sender_public_key_hash" := Text(r.sender), "receiver_public_key_hash" := Text(r.receiver),
        "amount_bucket" := Text(r.bucket)]
  }

  /** Two receipts with the same canonical text agree on every hashed field. */
  lemma ReceiptTextIsInjective(text: string, r: Receipt, q: Receipt)
    requires IsCanonical(text, Fields(r)) && IsCanonical(text, Fields(q))
    ensures r == q
  {
    hide IsCanonical;
    CanonicalIsInjective(text, Fields(r), Fields(q));
    var f, g := Fields(r), Fields(q);
    assert f["payment_rail"] == g["payment_rail"] && f["settlement_reference"] == g["settlement_reference"];
    assert f["sender_public_key_hash"] == g["sender_public_key_hash"];
    assert f["receiver_public_key_hash"] == g["receiver_public_key_hash"] && f["amount_bucket"] == g["amount_bucket"];
  }
}
