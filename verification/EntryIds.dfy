/**
  The packed 64-bit ids of the boolean indexer (components/boolean_indexer/id_generator.cc). Words
  are natural numbers; a shift is a multiplication or division by a power of two, a mask is a
  remainder, and `|` is defined bit by bit, so a field that is too wide spills as it does there.
*/
module EntryIds {
  import opened Numbers

  const P4: nat := 0x10
  const P43: nat := 0x800_0000_0000
  const P44: nat := 0x1000_0000_0000
  const P52: nat := 0x10_0000_0000_0000
  const P60: nat := 0x1000_0000_0000_0000
  const P63: int := 0x8000_0000_0000_0000
  const NULLENTRY: nat := 0xFFFF_FFFF_FFFF_FFFF

  function Or(a: nat, b: nat): nat {
    if a == 0 then b else if b == 0 then a
    else 2 * Or(a / 2, b / 2) + (if a % 2 == 1 || b % 2 == 1 then 1 else 0)
  }

  /** From the low end: 43 bits of the document's magnitude, its sign, then 8 bits each of index and size. */
  function GenConjID(doc: int, idx: nat, size: nat): nat
    requires -P63 < doc < P63 && idx < 256 && size < 256
  {
    var word := if doc < 0 then Or(P43, -doc) else doc;
    Or(Or(size * P52, idx * P44), word)
  }

  function GetDocumentID(conj: nat): int {
    var doc := conj % P43;
    if conj / P43 % 2 == 1 then -doc else doc
  }

  function GetIndexInDoc(conj: nat): nat { conj / P44 % 256 }

  function GetConjunctionSize(conj: nat): nat { conj / P52 % 256 }

  /** The conjunction id above four bits of which the lowest says that the entry includes. */
  function GenEntryID(conj: nat, exclude: bool): nat {
    if exclude then conj * P4 % (NULLENTRY + 1) else Or(conj * P4 % (NULLENTRY + 1), 1)
  }

  predicate IsInclude(e: nat) { e % 2 == 1 }

  function GetConjunctionId(e: nat): nat { e / P4 }

  function GetDocID(e: nat): int { GetDocumentID(GetConjunctionId(e)) }

  // ---------------------------------------------------------------------------

  predicate IsPow2(m: nat) { m == 1 || (m > 0 && m % 2 == 0 && IsPow2(m / 2)) }

  /** Fields that do not overlap add up. */
  lemma {:induction false} OrDisjoint(hi: nat, lo: nat, m: nat)
    requires IsPow2(m) && lo < m
    ensures Or(hi * m, lo) == hi * m + lo
    decreases m
  {
    if m > 1 && hi > 0 && lo > 0 {
      var h := m / 2;
      assert hi * m == 2 * (hi * h);
      OrDisjoint(hi, lo / 2, h);
    }
  }

  lemma {:induction false} Pow2Mul(a: nat, b: nat)
    requires IsPow2(a) && IsPow2(b)
    ensures IsPow2(a * b)
    decreases b
  {
    if b > 1 {
      Pow2Mul(a, b / 2);
      assert a * b == 2 * (a * (b / 2)) && a * b / 2 == a * (b / 2);
      assert a > 0 && a * b > 0;
    }
  }

  lemma Powers()
    ensures IsPow2(P4) && IsPow2(256) && IsPow2(P43) && IsPow2(P44) && IsPow2(P52)
  {
    assert IsPow2(2) && IsPow2(4) && IsPow2(8) && IsPow2(16);
    Pow2Mul(16, 16);
    Pow2Mul(256, 8);
    Pow2Mul(256, 256);
    Pow2Mul(0x1_0000, 0x1_0000);
    Pow2Mul(0x1_0000_0000, 2048);
    Pow2Mul(0x800_0000_0000, 2);
    Pow2Mul(0x1000_0000_0000, 256);
  }

  /** The document number as it sits in the low 44 bits: sign, then magnitude. */
  function DocBits(doc: int): nat { (if doc < 0 then P43 else 0) + Abs(doc) }

  predicate FieldsFit(doc: int, idx: nat, size: nat) { Abs(doc) < P43 && idx < 256 && size < 256 }

  lemma GenConjIDAdds(doc: int, idx: nat, size: nat)
    requires FieldsFit(doc, idx, size)
    ensures GenConjID(doc, idx, size) == size * P52 + idx * P44 + DocBits(doc)
    ensures GenConjID(doc, idx, size) < P60
  {
    DocWordAdds(doc);
    HighFieldsAdd(idx, size);
    DocFieldAdds(size * 256 + idx, DocBits(doc));
  }

  lemma DocFieldAdds(high: nat, word: nat)
    requires word < P44
    ensures Or(high * P44, word) == high * P44 + word
  {
    Powers();
    OrDisjoint(high, word, P44);
  }

  lemma DocWordAdds(doc: int)
    requires Abs(doc) < P43
    ensures (if doc < 0 then Or(P43, -doc) else doc) == DocBits(doc) < P44
  {
    Powers();
    OrDisjoint(1, Abs(doc), P43);
  }

  lemma HighFieldsAdd(idx: nat, size: nat)
    requires idx < 256 && size < 256
    ensures Or(size * P52, idx * P44) == (size * 256 + idx) * P44 == size * P52 + idx * P44
  {
    Powers();
    OrDisjoint(size, idx * P44, P52);
  }

  /** Taking a sum of fields apart again. */
  lemma Unpack(doc: int, idx: nat, size: nat, conj: nat)
    requires FieldsFit(doc, idx, size) && conj == size * P52 + idx * P44 + DocBits(doc)
    ensures GetDocumentID(conj) == doc && GetIndexInDoc(conj) == idx && GetConjunctionSize(conj) == size
  {
    var sign := if doc < 0 then 1 else 0;
    assert conj == ((size * 256 + idx) * 2 + sign) * P43 + Abs(doc);
    assert conj / P43 == (size * 256 + idx) * 2 + sign;
    assert conj / P44 == size * 256 + idx;
    assert conj / P52 == size;
  }

  lemma DocumentIDIsShort(conj: nat)
    ensures Abs(GetDocumentID(conj)) < P43
  {
  }

  function Shifted(a: nat, m: nat): nat
    requires m > 0
  {
    a / m
  }

  function Masked(a: nat, m: nat): nat
    requires m > 0
  {
    a % m
  }

  lemma ShiftedTwice(a: nat, h: nat)
    requires h > 0
    ensures Shifted(a / 2, h) == Shifted(a, 2 * h)
    ensures Masked(a, 2 * h) == 2 * Masked(a / 2, h) + a % 2
  {
    var q, y := Shifted(a / 2, h), Masked(a / 2, h);
    assert a / 2 == h * q + y && a == 2 * (h * q + y) + a % 2;
    assert 2 * (h * q) == (2 * h) * q;
    Quotient(a, 2 * h, q, 2 * y + a % 2);
  }

  lemma Quotient(a: nat, m: nat, q: nat, r: nat)
    requires r < m && a == m * q + r
    ensures Shifted(a, m) == q && Masked(a, m) == r
  {
    var d := a / m - q;
    assert a == m * (a / m) + a % m;
    assert m * d == m * (a / m) - m * q == r - a % m;
    Far(m, d);
  }

  lemma Far(m: nat, d: int)
    ensures d >= 1 ==> m * d >= m
    ensures d <= -1 ==> m * d <= -(m as int)
  {
  }

  /** Bitwise or goes through shifts and masks. */
  lemma {:induction false} OrShift(a: nat, b: nat, m: nat)
    requires m > 0 && IsPow2(m)
    ensures Shifted(Or(a, b), m) == Or(Shifted(a, m), Shifted(b, m))
    ensures Masked(Or(a, b), m) == Or(Masked(a, m), Masked(b, m))
    decreases m
  {
    if m > 1 {
      var h := m / 2;
      assert m == 2 * h;
      OrShift(a / 2, b / 2, h);
      ShiftedTwice(a, h);
      ShiftedTwice(b, h);
      ShiftedTwice(Or(a, b), h);
      OrHalves(a, b);
      OrHalves(Masked(a, m), Masked(b, m));
    }
  }

  lemma OrHalves(a: nat, b: nat)
    ensures Or(a, b) / 2 == Or(a / 2, b / 2) && Or(a, b) % 2 == if a % 2 == 1 || b % 2 == 1 then 1 else 0
  {
  }

  /** A field of eight bits above the power m. */
  lemma OrField(a: nat, b: nat, m: nat)
    requires m > 0 && IsPow2(m)
    ensures Masked(Shifted(Or(a, b), m), 256) == Or(Masked(Shifted(a, m), 256), Masked(Shifted(b, m), 256))
  {
    assert IsPow2(256) by { Powers(); }
    OrShift(a, b, m);
    OrShift(Shifted(a, m), Shifted(b, m), 256);
  }

  lemma OrFields(a: nat, b: nat)
    ensures Or(a, b) / P44 % 256 == Or(a / P44 % 256, b / P44 % 256)
    ensures Or(a, b) / P52 % 256 == Or(a / P52 % 256, b / P52 % 256)
  {
    Powers();
    OrField(a, b, P44);
    OrField(a, b, P52);
  }

  lemma FieldsApart(idx: nat, size: nat)
    requires idx < 256 && size < 256
    ensures var high := (size * 256 + idx) * P44; high / P44 % 256 == idx && high / P52 % 256 == size
    ensures P43 / P44 % 256 == 0 && P43 / P52 % 256 == 0
  {
    var high := (size * 256 + idx) * P44;
    assert high / P44 == size * 256 + idx;
    assert high / P52 == size;
  }

  /** What the index and size fields hold for any document: its bits beyond the lowest 44 spill into them. */
  lemma ConjIDFields(doc: int, idx: nat, size: nat)
    requires -P63 < doc < P63 && idx < 256 && size < 256
    ensures GetIndexInDoc(GenConjID(doc, idx, size)) == Or(idx, Abs(doc) / P44 % 256)
    ensures GetConjunctionSize(GenConjID(doc, idx, size)) == Or(size, Abs(doc) / P52 % 256)
  {
    var word := if doc < 0 then Or(P43, -doc) else doc;
    FieldsApart(idx, size);
    OrFields(P43, Abs(doc));
    HighFieldsAdd(idx, size);
    OrFields((size * 256 + idx) * P44, word);
  }

  /**
    The document comes back exactly when its magnitude has at most 43 bits; index and size exactly
    when they hold the bits that spill into them, which is always so up to 44 bits.
  */
  lemma ConjIDRoundTrip(doc: int, idx: nat, size: nat)
    requires -P63 < doc < P63 && idx < 256 && size < 256
    ensures GetDocumentID(GenConjID(doc, idx, size)) == doc <==> Abs(doc) < P43
    ensures GetIndexInDoc(GenConjID(doc, idx, size)) == idx <==> Or(idx, Abs(doc) / P44 % 256) == idx
    ensures GetConjunctionSize(GenConjID(doc, idx, size)) == size <==> Or(size, Abs(doc) / P52 % 256) == size
    ensures Abs(doc) < P44 ==>
      GetIndexInDoc(GenConjID(doc, idx, size)) == idx && GetConjunctionSize(GenConjID(doc, idx, size)) == size
  {
    ConjIDFields(doc, idx, size);
    DocumentRoundTrip(doc, idx, size);
    if Abs(doc) < P44 { NothingSpills(Abs(doc)); }
  }

  lemma DocumentRoundTrip(doc: int, idx: nat, size: nat)
    requires -P63 < doc < P63 && idx < 256 && size < 256
    ensures GetDocumentID(GenConjID(doc, idx, size)) == doc <==> Abs(doc) < P43
  {
    DocumentIDIsShort(GenConjID(doc, idx, size));
    if Abs(doc) < P43 {
      GenConjIDAdds(doc, idx, size);
      Unpack(doc, idx, size, GenConjID(doc, idx, size));
    }
  }

  lemma NothingSpills(a: nat)
    requires a < P44
    ensures a / P44 % 256 == 0 && a / P52 % 256 == 0
  {
  }

  /** Ids order by size, then index, then sign and magnitude of the document. */
  lemma ConjIDOrder(d1: int, i1: nat, s1: nat, d2: int, i2: nat, s2: nat)
    requires FieldsFit(d1, i1, s1) && FieldsFit(d2, i2, s2)
    ensures GenConjID(d1, i1, s1) < GenConjID(d2, i2, s2) <==>
      s1 < s2 || (s1 == s2 && (i1 < i2 || (i1 == i2 && DocBits(d1) < DocBits(d2))))
    ensures GenConjID(d1, i1, s1) == GenConjID(d2, i2, s2) <==> d1 == d2 && i1 == i2 && s1 == s2
  {
    GenConjIDAdds(d1, i1, s1);
    GenConjIDAdds(d2, i2, s2);
  }

  /** The include entry of a conjunction. */
  function Inc(c: nat): nat { c * P4 + 1 }

  /** The exclude entry of a conjunction. */
  function Exc(c: nat): nat { c * P4 }

  /** Entries order by conjunction, exclude before include, and none is the null entry. */
  lemma EntryIDOrder(conj: nat, exclude: bool)
    requires conj < P60
    ensures GenEntryID(conj, exclude) == if exclude then Exc(conj) else Inc(conj)
    ensures GetConjunctionId(GenEntryID(conj, exclude)) == conj
    ensures IsInclude(GenEntryID(conj, exclude)) <==> !exclude
    ensures GenEntryID(conj, exclude) < NULLENTRY
    ensures forall c: nat, x :: conj < c < P60 ==> GenEntryID(conj, exclude) < GenEntryID(c, x)
    ensures GenEntryID(conj, true) < GenEntryID(conj, false)
  {
    EntryIs(conj);
    forall c: nat, x | conj < c < P60 ensures GenEntryID(conj, exclude) < GenEntryID(c, x) {
      EntryIs(c);
    }
  }

  lemma EntryIs(c: nat)
    requires c < P60
    ensures GenEntryID(c, true) == Exc(c) && GenEntryID(c, false) == Inc(c)
  {
    Powers();
    OrDisjoint(c, 1, P4);
  }
}
