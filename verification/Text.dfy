// Numbers and keys as the text that travels to Redis.
module Text {
  import opened Wrappers
  import opened Seid
  import opened Flow

  // --- decimal numbers: "%lu" and strtoull ---

  function DigitChar(d: nat): char
    requires d < 10
  {
    '0' + d as char
  }

  function Decimal(n: nat): string {
    if n < 10 then [DigitChar(n)] else Decimal(n / 10) + [DigitChar(n % 10)]
  }

  predicate IsDigit(c: char) { '0' <= c <= '9' }

  // The digits at the front, and the number they write.
  function Leading(s: string): (ds: string)
    ensures AllDigits(ds)
  {
    if s == [] || !IsDigit(s[0]) then [] else [s[0]] + Leading(s[1..])
  }

  function Value(ds: string): nat
    requires AllDigits(ds)
  {
    if ds == [] then 0 else 10 * Value(ds[..|ds| - 1]) + (ds[|ds| - 1] as int - '0' as int)
  }

  // strtoull in base 10: what follows the leading digits is not read.
  function Number(s: string): nat { Value(Leading(s)) }

  lemma {:induction false} DigitsLead(s: string)
    requires AllDigits(s)
    ensures Leading(s) == s
  {
    if s != [] {
      DigitsLead(s[1..]);
    }
  }

  predicate AllDigits(s: string) { forall i :: 0 <= i < |s| ==> IsDigit(s[i]) }

  lemma {:induction false} DecimalIsDigits(n: nat)
    ensures AllDigits(Decimal(n)) && |Decimal(n)| > 0
    ensures Decimal(n)[0] == '0' <==> n == 0
  {
    if n >= 10 {
      DecimalIsDigits(n / 10);
    }
  }

  // Reading back what was written.
  lemma NumberOfDecimal(n: nat)
    ensures Number(Decimal(n)) == n
  {
    DecimalIsDigits(n);
    DigitsLead(Decimal(n));
    ValueOfDecimal(n);
  }

  lemma {:induction false} ValueOfDecimal(n: nat)
    ensures AllDigits(Decimal(n)) && Value(Decimal(n)) == n
  {
    DecimalIsDigits(n);
    if n >= 10 {
      ValueOfDecimal(n / 10);
      assert Decimal(n)[..|Decimal(n)| - 1] == Decimal(n / 10);
    }
  }

  // A number is read up to the first character that is no digit.
  lemma {:induction false} NumberStops(n: nat, rest: string)
    requires rest == [] || !IsDigit(rest[0])
    ensures Number(Decimal(n) + rest) == n
  {
    DecimalIsDigits(n);
    LeadingStops(Decimal(n), rest);
    ValueOfDecimal(n);
  }

  lemma {:induction false} LeadingStops(ds: string, rest: string)
    requires AllDigits(ds) && (rest == [] || !IsDigit(rest[0]))
    ensures Leading(ds + rest) == ds
  {
    if ds == [] {
      assert ds + rest == rest;
    } else {
      assert (ds + rest)[1..] == ds[1..] + rest;
      LeadingStops(ds[1..], rest);
    }
  }

  // Comparing texts compares numbers, and only version 0 is written "0".
  lemma SameTextSameNumber(a: nat, b: nat)
    ensures Decimal(a) == Decimal(b) <==> a == b
    ensures Decimal(a) == "0" <==> a == 0
  {
    NumberOfDecimal(a);
    NumberOfDecimal(b);
    NumberOfDecimal(0);
  }

  function Pow10(k: nat): nat { if k == 0 then 1 else 10 * Pow10(k - 1) }

  lemma {:induction false} DecimalLength(n: nat, k: nat)
    requires k > 0 && n < Pow10(k)
    ensures |Decimal(n)| <= k
  {
    if n >= 10 {
      DecimalLength(n / 10, k - 1);
    }
  }

  // 64-bit numbers take at most 20 digits, 32-bit ones 10: no version buffer of
  // 24 bytes cuts one short.
  lemma WordLengths(n: nat)
    ensures n < U64 ==> |Decimal(n)| <= 20 < 24
    ensures n < U32 ==> |Decimal(n)| <= 10
    ensures n < NUM_PARTS ==> |Decimal(n)| <= 4
  {
    assert Pow10(20) == 100_0000_0000_0000_0000_00 by { assert Pow10(10) == 10_000_000_000; PowSum(10, 10); }
    assert Pow10(10) == 10_000_000_000 && Pow10(4) == 10_000;
    if n < U64 { DecimalLength(n, 20); }
    if n < U32 { DecimalLength(n, 10); }
    if n < NUM_PARTS { DecimalLength(n, 4); }
  }

  lemma {:induction false} PowSum(a: nat, b: nat)
    ensures Pow10(a + b) == Pow10(a) * Pow10(b)
  {
    if a > 0 {
      PowSum(a - 1, b);
    }
  }

  // --- keys ---

  // "pdu_%u:%lu"
  function SessKey(k: Key): string { "pdu_" + Decimal(k.part) + ":" + Decimal(k.seid) }

  // "txn_%u:%lu:%u"
  function RetransKey(part: nat, smf: nat, sn: nat): string {
    "txn_" + Decimal(part) + ":" + Decimal(smf) + ":" + Decimal(sn)
  }

  function IdKey(head: string, part: nat, tail: string): string { head + Decimal(part) + ":" + tail }

  // "vpe:teid:%u:free", "vpe:teid:%u:next" and "vpe:seid:%u:next"
  function FreeKey(part: nat): string { IdKey("vpe:teid:", part, "free") }

  function NextKey(part: nat): string { IdKey("vpe:teid:", part, "next") }

  function SeidNextKey(part: nat): string { IdKey("vpe:seid:", part, "next") }

  lemma SplitOnce(a: string, b: string, c: string, d: string)
    requires AllDigits(a) && AllDigits(c) && a + ":" + b == c + ":" + d
    ensures a == c && b == d
  {
    var x := a + ":" + b;
    assert x[|a|] == ':' && x[|c|] == ':';
    assert |a| == |c|;
    assert a == x[..|a|] == c;
    assert b == x[|a| + 1..] == d;
  }

  // Two sessions never share a key, and no key is cut off by its 64-byte buffer.
  lemma SessKeysAreApart(k1: Key, k2: Key)
    ensures SessKey(k1) == SessKey(k2) <==> k1 == k2
    ensures k1.part < NUM_PARTS && k1.seid < U64 ==> |SessKey(k1)| < 64
  {
    DecimalIsDigits(k1.part);
    DecimalIsDigits(k2.part);
    if SessKey(k1) == SessKey(k2) {
      assert SessKey(k1)[4..] == Decimal(k1.part) + ":" + Decimal(k1.seid);
      assert SessKey(k2)[4..] == Decimal(k2.part) + ":" + Decimal(k2.seid);
      SplitOnce(Decimal(k1.part), Decimal(k1.seid), Decimal(k2.part), Decimal(k2.seid));
      SameTextSameNumber(k1.part, k2.part);
      SameTextSameNumber(k1.seid, k2.seid);
    }
    WordLengths(k1.part);
    WordLengths(k1.seid);
  }

  // Nor do two requests share a cache key, nor a request and a session.
  lemma RetransKeysAreApart(p1: nat, m1: nat, n1: nat, p2: nat, m2: nat, n2: nat)
    ensures RetransKey(p1, m1, n1) == RetransKey(p2, m2, n2) <==> p1 == p2 && m1 == m2 && n1 == n2
    ensures p1 < NUM_PARTS && m1 < U64 && n1 < U32 ==> |RetransKey(p1, m1, n1)| < 64
    ensures forall k :: SessKey(k) != RetransKey(p1, m1, n1)
  {
    DecimalIsDigits(p1);
    DecimalIsDigits(p2);
    DecimalIsDigits(m1);
    DecimalIsDigits(m2);
    if RetransKey(p1, m1, n1) == RetransKey(p2, m2, n2) {
      TailOf(p1, m1, n1);
      TailOf(p2, m2, n2);
      SplitOnce(Decimal(p1), Decimal(m1) + ":" + Decimal(n1), Decimal(p2), Decimal(m2) + ":" + Decimal(n2));
      SplitOnce(Decimal(m1), Decimal(n1), Decimal(m2), Decimal(n2));
      SameTextSameNumber(p1, p2);
      SameTextSameNumber(m1, m2);
      SameTextSameNumber(n1, n2);
    }
    WordLengths(p1);
    WordLengths(m1);
    WordLengths(n1);
    forall k ensures SessKey(k) != RetransKey(p1, m1, n1) {
      assert SessKey(k)[0] == 'p' && RetransKey(p1, m1, n1)[0] == 't';
    }
  }

  lemma TailOf(p: nat, m: nat, n: nat)
    ensures RetransKey(p, m, n)[4..] == Decimal(p) + ":" + (Decimal(m) + ":" + Decimal(n))
  {
  }

  lemma SplitIdKey(p1: nat, t1: string, p2: nat, t2: string)
    requires Decimal(p1) + ":" + t1 == Decimal(p2) + ":" + t2
    ensures p1 == p2 && t1 == t2
  {
    DecimalIsDigits(p1);
    DecimalIsDigits(p2);
    SplitOnce(Decimal(p1), t1, Decimal(p2), t2);
    SameTextSameNumber(p1, p2);
  }

  // The free list and the two counters of each partition have keys of their own,
  // and none is the key of a session or of a cached response.
  lemma IdKeysAreApart(p1: nat, p2: nat)
    ensures FreeKey(p1) == FreeKey(p2) <==> p1 == p2
    ensures NextKey(p1) == NextKey(p2) <==> p1 == p2
    ensures SeidNextKey(p1) == SeidNextKey(p2) <==> p1 == p2
    ensures FreeKey(p1) != NextKey(p2) && FreeKey(p1) != SeidNextKey(p2) && NextKey(p1) != SeidNextKey(p2)
    ensures p1 < NUM_PARTS ==> |FreeKey(p1)| < 32 && |NextKey(p1)| < 32 && |SeidNextKey(p1)| < 32
  {
    assert "free"[0] != "next"[0];
    if FreeKey(p1) == FreeKey(p2) { IdKeyTail("vpe:teid:", p1, "free", p2, "free"); }
    if NextKey(p1) == NextKey(p2) { IdKeyTail("vpe:teid:", p1, "next", p2, "next"); }
    if SeidNextKey(p1) == SeidNextKey(p2) { IdKeyTail("vpe:seid:", p1, "next", p2, "next"); }
    if FreeKey(p1) == NextKey(p2) { IdKeyTail("vpe:teid:", p1, "free", p2, "next"); }
    assert FreeKey(p1)[4] == 't' && NextKey(p1)[4] == 't' && SeidNextKey(p2)[4] == 's';
    WordLengths(p1);
  }

  lemma IdKeyTail(head: string, p1: nat, t1: string, p2: nat, t2: string)
    requires IdKey(head, p1, t1) == IdKey(head, p2, t2)
    ensures p1 == p2 && t1 == t2
  {
    var n := |head|;
    assert IdKey(head, p1, t1)[n..] == Decimal(p1) + ":" + t1;
    assert IdKey(head, p2, t2)[n..] == Decimal(p2) + ":" + t2;
    SplitIdKey(p1, t1, p2, t2);
  }

  lemma IdKeysAreNoRecords(p: nat, k: Key, part: nat, smf: nat, sn: nat)
    ensures var ids := {FreeKey(p), NextKey(p), SeidNextKey(p)};
            SessKey(k) !in ids && RetransKey(part, smf, sn) !in ids
  {
    assert FreeKey(p)[0] == 'v' && NextKey(p)[0] == 'v' && SeidNextKey(p)[0] == 'v';
    assert SessKey(k)[0] == 'p' && RetransKey(part, smf, sn)[0] == 't';
  }

  // --- the partition of a retransmission key ---

  const FNV_BASIS: nat := 2166136261
  const FNV_PRIME: nat := 16777619

  function Xor(a: nat, b: nat): nat
    requires a < U32 && b < U32
  {
    (a as bv32 ^ b as bv32) as nat
  }

  // FNV-1a over the low n bytes.
  function Fnv(x: nat, n: nat): (h: nat)
    ensures h < U32
  {
    if n == 0 then FNV_BASIS
    else Xor(Fnv(x, n - 1), ByteOf(x, n - 1)) * FNV_PRIME % U32
  }

  function ByteOf(x: nat, i: nat): (b: nat)
    ensures b < 256
  {
    if i == 0 then x % 256 else ByteOf(x / 256, i - 1)
  }

  // v_retrans_part: the same request gets the same key on every pod.
  method RetransPart(smf: nat) returns (part: nat)
    requires smf < U64
    ensures part == Fnv(smf, 8) % NUM_PARTS && part < NUM_PARTS
  {
    var h := FNV_BASIS;
    for i := 0 to 8
      invariant h == Fnv(smf, i)
    {
      h := Xor(h, ByteOf(smf, i)) * FNV_PRIME % U32;
    }
    part := h % NUM_PARTS;
  }

  // The key a request's response is cached under.
  function CacheKey(smf: nat, sn: nat): string { RetransKey(Fnv(smf, 8) % NUM_PARTS, smf, sn) }

  lemma CacheKeysAreApart(smf: nat, sn: nat)
    ensures forall m: nat, n: nat :: CacheKey(m, n) == CacheKey(smf, sn) <==> m == smf && n == sn
  {
    forall m: nat, n: nat ensures CacheKey(m, n) == CacheKey(smf, sn) <==> m == smf && n == sn {
      RetransKeysAreApart(Fnv(m, 8) % NUM_PARTS, m, n, Fnv(smf, 8) % NUM_PARTS, smf, sn);
    }
  }
}
