/**
  The merge of components/boolean_indexer/index_scanner.cc on values: what one round of the loop
  does to the entry ids that are still ahead in each field, and what a whole scan finds.

  `AsWritten` is the source. `Variant` differs in one word: the conjunction compared with the
  first one is that of the k-th cursor, not that of the first cursor again.
*/
module ScanSpec {
  import opened EntryIds

  datatype Mode = AsWritten | Variant

  /** Remaining entry ids, one set per field. */
  type Fields = seq<set<nat>>

  ghost function Min(s: set<nat>): (m: nat)
    requires s != {}
    ensures m in s && forall e :: e in s ==> m <= e
  {
    var x :| x in s;
    if s == {x} then x
    else
      var m := Min(s - {x});
      assert forall e :: e in s ==> e == x || e in s - {x};
      if x < m then x else m
  }

  /** Every id is the include or exclude entry of a conjunction. */
  ghost predicate WellFormed(r: Fields) {
    forall i, e :: 0 <= i < |r| && e in r[i] ==> e % P4 <= 1 && e < NULLENTRY
  }

  /** A conjunction has at most one expression per field, so a field includes or excludes it, not both. */
  ghost predicate Separated(r: Fields) {
    forall i, c: nat :: 0 <= i < |r| && Inc(c) in r[i] ==> Exc(c) !in r[i]
  }

  // ---------------------------------------------------------------------------
  // What a scan should find
  // ---------------------------------------------------------------------------

  /** How many fields a conjunction needs: its includes, or the wildcard field when it has none. */
  function Need(c: nat): nat { if GetConjunctionSize(c) == 0 then 1 else GetConjunctionSize(c) }

  ghost function HitFields(r: Fields, c: nat): set<nat> {
    set i | 0 <= i < |r| && Inc(c) in r[i]
  }

  ghost predicate Excluded(r: Fields, c: nat) {
    exists i :: 0 <= i < |r| && Exc(c) in r[i]
  }

  /** The conjunction is satisfied: enough fields include it and none excludes it. */
  ghost predicate Match(r: Fields, c: nat) {
    |HitFields(r, c)| >= Need(c) && !Excluded(r, c)
  }

  // ---------------------------------------------------------------------------
  // What a scan does
  // ---------------------------------------------------------------------------

  /** A sorted vector of the field cursors that have not reached their end. */
  ghost predicate IsOrder(r: Fields, order: seq<nat>) {
    && (forall j :: 0 <= j < |order| ==> order[j] < |r| && r[order[j]] != {})
    && (forall j, k :: 0 <= j < k < |order| ==> order[j] != order[k])
    && (forall i :: 0 <= i < |r| && r[i] != {} ==> i in order)
    && (forall j, k :: 0 <= j < k < |order| ==> Cur(r, order, j) <= Cur(r, order, k))
  }

  ghost function Cur(r: Fields, order: seq<nat>, j: nat): nat
    requires j < |order| && order[j] < |r| && r[order[j]] != {}
  {
    Min(r[order[j]])
  }

  /** `k` in the source. */
  ghost function Width(r: Fields, order: seq<nat>): (k: nat)
    requires IsOrder(r, order) && order != []
    ensures k > 0
  {
    Need(GetConjunctionId(Cur(r, order, 0)))
  }

  ghost predicate CanStep(r: Fields, order: seq<nat>) {
    IsOrder(r, order) && order != [] && Width(r, order) <= |order|
  }

  /** The guard that compares the first and the k-th cursor's conjunctions. */
  ghost predicate Guard(r: Fields, order: seq<nat>, mode: Mode)
    requires CanStep(r, order)
  {
    mode == AsWritten ||
    GetConjunctionId(Cur(r, order, Width(r, order) - 1)) == GetConjunctionId(Cur(r, order, 0))
  }

  /** `next_eid`. */
  ghost function NextId(r: Fields, order: seq<nat>, mode: Mode): nat
    requires CanStep(r, order)
  {
    var last := Cur(r, order, Width(r, order) - 1);
    if Guard(r, order, mode) then last + 1 else Exc(GetConjunctionId(last))
  }

  /** The conjunctions reported in this round. */
  ghost function Emitted(r: Fields, order: seq<nat>, mode: Mode): seq<nat>
    requires CanStep(r, order)
  {
    var first := Cur(r, order, 0);
    if Guard(r, order, mode) && IsInclude(first) then [GetConjunctionId(first)] else []
  }

  /** What is left of one field: the first k skip to the next id, others on the excluded conjunction skip past it. */
  ghost function AdvanceField(r: Fields, order: seq<nat>, mode: Mode, i: nat): set<nat>
    requires CanStep(r, order) && i < |r|
  {
    var k, first, next := Width(r, order), Cur(r, order, 0), NextId(r, order, mode);
    if i in order[..k] then set e | e in r[i] && e >= next
    else if Guard(r, order, mode) && !IsInclude(first) && r[i] != {}
         && GetConjunctionId(Min(r[i])) == GetConjunctionId(first)
    then set e | e in r[i] && e > next
    else r[i]
  }

  ghost function Advance(r: Fields, order: seq<nat>, mode: Mode): (r': Fields)
    requires CanStep(r, order)
    ensures |r'| == |r|
  {
    seq(|r|, i requires 0 <= i < |r| => AdvanceField(r, order, mode, i))
  }

  ghost function Pairs(r: Fields): set<(nat, nat)> {
    set i, e | 0 <= i < |r| && e in r[i] :: (i, e)
  }

  /** Every round takes at least the first entry away, on every index and query. */
  lemma AdvanceShrinks(r: Fields, order: seq<nat>, mode: Mode)
    requires CanStep(r, order)
    ensures Pairs(Advance(r, order, mode)) < Pairs(r)
  {
    var r', k, first := Advance(r, order, mode), Width(r, order), Cur(r, order, 0);
    var last := Cur(r, order, k - 1);
    assert forall i :: 0 <= i < |r| ==> r'[i] <= r[i];
    assert order[0] in order[..k];
    assert first <= last;
    if !Guard(r, order, mode) {
      assert GetConjunctionId(first) < GetConjunctionId(last);
    }
    assert (order[0], first) in Pairs(r) && (order[0], first) !in Pairs(r');
  }

  /** A complete scan reports the conjunctions `found`; ties in the sort may be broken either way. */
  ghost predicate Scan(r: Fields, found: seq<nat>, mode: Mode)
    decreases Pairs(r), 1
  {
    exists order :: IsOrder(r, order) && ScanFrom(r, order, found, mode)
  }

  ghost predicate ScanFrom(r: Fields, order: seq<nat>, found: seq<nat>, mode: Mode)
    requires IsOrder(r, order)
    decreases Pairs(r), 0
  {
    if !CanStep(r, order) then found == []
    else
      AdvanceShrinks(r, order, mode);
      var emitted := Emitted(r, order, mode);
      emitted <= found && Scan(Advance(r, order, mode), found[|emitted|..], mode)
  }

  // ---------------------------------------------------------------------------
  // When a scan finds exactly the satisfied conjunctions
  // ---------------------------------------------------------------------------

  /** The first and k-th cursors are on the same conjunction whenever the guard says so. */
  ghost predicate Honest(r: Fields, order: seq<nat>, mode: Mode)
    requires CanStep(r, order)
  {
    mode == Variant || Width(r, order) == 1
  }

  lemma ConjOf(e: nat)
    requires e % P4 <= 1
    ensures e == if IsInclude(e) then Inc(GetConjunctionId(e)) else Exc(GetConjunctionId(e))
  {
    var q, m := e / P4, e % P4;
    assert e == P4 * q + m;
    Parity(8 * q, m);
  }

  lemma Parity(half: nat, m: nat)
    requires m <= 1
    ensures (2 * half + m) % 2 == m
  {
  }

  lemma ConjOfEntry(c: nat)
    ensures GetConjunctionId(Inc(c)) == c && GetConjunctionId(Exc(c)) == c
  {
  }

  /** Entry ids order by conjunction. */
  lemma ConjMonotone(a: nat, b: nat)
    requires a <= b
    ensures GetConjunctionId(a) <= GetConjunctionId(b)
    ensures b < NULLENTRY + 1 ==> Need(GetConjunctionId(a)) <= Need(GetConjunctionId(b))
  {
    if b < NULLENTRY + 1 {
      assert GetConjunctionId(b) < P60;
    }
  }

  /** Nothing lies ahead of the first cursor's entry. */
  lemma FirstIsLeast(r: Fields, order: seq<nat>, i: nat, e: nat)
    requires IsOrder(r, order) && order != [] && i < |r| && e in r[i]
    ensures Cur(r, order, 0) <= Min(r[i]) <= e
  {
    var j :| 0 <= j < |order| && order[j] == i;
    assert Cur(r, order, j) == Min(r[i]);
  }

  /** A field outside the first k starts no earlier than the k-th cursor. */
  lemma OthersAreLater(r: Fields, order: seq<nat>, i: nat)
    requires CanStep(r, order) && i < |r| && r[i] != {}
    ensures i in order[..Width(r, order)] ==> Min(r[i]) <= Cur(r, order, Width(r, order) - 1)
    ensures i !in order[..Width(r, order)] ==> Cur(r, order, Width(r, order) - 1) <= Min(r[i])
  {
    var k := Width(r, order);
    var j :| 0 <= j < |order| && order[j] == i;
    assert Cur(r, order, j) == Min(r[i]);
    if j < k {
      assert order[..k][j] == i;
    }
    if i in order[..k] {
      var j' :| 0 <= j' < k && order[..k][j'] == i;
      assert order[j'] == i;
    }
  }

  /** The same fields include and exclude c. */
  ghost predicate Same(r: Fields, r': Fields, c: nat) {
    |r'| == |r| && forall i :: 0 <= i < |r| ==>
      (Inc(c) in r[i] <==> Inc(c) in r'[i]) && (Exc(c) in r[i] <==> Exc(c) in r'[i])
  }

  lemma SameMatch(r: Fields, r': Fields, c: nat)
    requires Same(r, r', c)
    ensures Match(r, c) <==> Match(r', c)
  {
    assert HitFields(r, c) == HitFields(r', c);
  }

  /** When first and k-th agree, only their conjunction is touched. */
  lemma AgreeTouchesOne(r: Fields, order: seq<nat>, mode: Mode, c: nat)
    requires WellFormed(r) && CanStep(r, order) && Guard(r, order, mode)
    requires GetConjunctionId(Cur(r, order, Width(r, order) - 1)) == GetConjunctionId(Cur(r, order, 0)) != c
    ensures Same(r, Advance(r, order, mode), c)
  {
    var r', k := Advance(r, order, mode), Width(r, order);
    var first, last := Cur(r, order, 0), Cur(r, order, k - 1);
    assert last in r[order[k - 1]];
    forall i, e | 0 <= i < |r| && e in r[i] && (e == Inc(c) || e == Exc(c)) ensures e in r'[i] {
      FirstIsLeast(r, order, i, e);
      ConjOfEntry(c);
      ConjMonotone(first, e);
      assert GetConjunctionId(e) > GetConjunctionId(last);
    }
  }

  /** First and k-th agree on an included conjunction: it is satisfied. */
  lemma AgreeIncluded(r: Fields, order: seq<nat>)
    requires WellFormed(r) && CanStep(r, order)
    requires GetConjunctionId(Cur(r, order, Width(r, order) - 1)) == GetConjunctionId(Cur(r, order, 0))
    requires IsInclude(Cur(r, order, 0))
    ensures Match(r, GetConjunctionId(Cur(r, order, 0)))
  {
    var k, first := Width(r, order), Cur(r, order, 0);
    var c := GetConjunctionId(first);
    assert first in r[order[0]] && Cur(r, order, k - 1) in r[order[k - 1]];
    ConjOf(first);
    forall j | 0 <= j < k ensures order[j] in HitFields(r, c) {
      assert first <= Cur(r, order, j) <= Cur(r, order, k - 1) && Cur(r, order, j) in r[order[j]];
      ConjOf(Cur(r, order, k - 1));
      assert Cur(r, order, j) == Inc(c);
    }
    DistinctCount(order[..k], HitFields(r, c));
    if i :| 0 <= i < |r| && Exc(c) in r[i] {
      FirstIsLeast(r, order, i, Exc(c));
      assert false;
    }
  }

  lemma {:induction false} DistinctCount(xs: seq<nat>, s: set<nat>)
    requires forall i, j :: 0 <= i < j < |xs| ==> xs[i] != xs[j]
    requires forall i :: 0 <= i < |xs| ==> xs[i] in s
    ensures |xs| <= |s|
  {
    if xs != [] {
      DistinctCount(xs[1..], s - {xs[0]});
    }
  }

  lemma {:induction false} CoverCount(s: set<nat>, xs: seq<nat>)
    requires forall x :: x in s ==> x in xs
    ensures |s| <= |xs|
  {
    if xs != [] {
      forall x | x in s - {xs[0]} ensures x in xs[1..] {
        assert xs == [xs[0]] + xs[1..];
      }
      CoverCount(s - {xs[0]}, xs[1..]);
    } else {
      assert s == {};
    }
  }

  /** First and k-th agree on an excluded conjunction: it is not satisfied, and is gone afterwards. */
  lemma AgreeExcluded(r: Fields, order: seq<nat>, mode: Mode)
    requires WellFormed(r) && Separated(r) && CanStep(r, order) && Guard(r, order, mode)
    requires GetConjunctionId(Cur(r, order, Width(r, order) - 1)) == GetConjunctionId(Cur(r, order, 0))
    requires !IsInclude(Cur(r, order, 0))
    ensures !Match(r, GetConjunctionId(Cur(r, order, 0)))
    ensures !Match(Advance(r, order, mode), GetConjunctionId(Cur(r, order, 0)))
  {
    var r', k, first := Advance(r, order, mode), Width(r, order), Cur(r, order, 0);
    var c, last := GetConjunctionId(first), Cur(r, order, k - 1);
    assert first in r[order[0]] && last in r[order[k - 1]];
    ConjOf(first);
    ConjOf(last);
    forall i | 0 <= i < |r| ensures Inc(c) !in r'[i] {
      if Inc(c) in r[i] {
        OthersAreLater(r, order, i);
        FirstIsLeast(r, order, i, Inc(c));
        ConjMonotone(first, Min(r[i]));
        ConjMonotone(Min(r[i]), Inc(c));
      }
    }
    assert HitFields(r', c) == {};
  }

  /** First and k-th disagree: no conjunction before the k-th's has enough fields left. */
  lemma DisagreeBefore(r: Fields, order: seq<nat>, r': Fields, c: nat)
    requires WellFormed(r) && CanStep(r, order) && |r'| == |r| && forall i :: 0 <= i < |r| ==> r'[i] <= r[i]
    requires c < GetConjunctionId(Cur(r, order, Width(r, order) - 1))
    ensures !Match(r', c)
  {
    var k, first := Width(r, order), Cur(r, order, 0);
    var last := Cur(r, order, k - 1);
    ConjOfEntry(c);
    if i :| i in HitFields(r', c) {
      FirstIsLeast(r, order, i, Inc(c));
      assert Inc(c) in r[i];
      ConjMonotone(first, Inc(c));
      forall i' | i' in HitFields(r', c) ensures i' in order[..k - 1] {
        var e := Inc(c);
        assert e in r[i'];
        FirstIsLeast(r, order, i', e);
        var j :| 0 <= j < |order| && order[j] == i';
        assert Cur(r, order, j) <= e;
        assert e < last;
        assert j < k - 1;
        assert order[..k - 1][j] == i';
      }
      CoverCount(HitFields(r', c), order[..k - 1]);
    } else {
      assert HitFields(r', c) == {};
    }
  }

  lemma DisagreeAfter(r: Fields, order: seq<nat>, mode: Mode, c: nat)
    requires WellFormed(r) && CanStep(r, order) && !Guard(r, order, mode)
    requires c >= GetConjunctionId(Cur(r, order, Width(r, order) - 1))
    ensures Same(r, Advance(r, order, mode), c)
  {
  }

  lemma AdvanceSubset(r: Fields, order: seq<nat>, mode: Mode)
    requires CanStep(r, order)
    ensures forall i :: 0 <= i < |r| ==> Advance(r, order, mode)[i] <= r[i]
    ensures WellFormed(r) ==> WellFormed(Advance(r, order, mode))
    ensures Separated(r) ==> Separated(Advance(r, order, mode))
  {
  }

  /** One round reports a satisfied conjunction or none, and loses none. */
  lemma StepExact(r: Fields, order: seq<nat>, mode: Mode, c: nat)
    requires WellFormed(r) && Separated(r) && CanStep(r, order) && Honest(r, order, mode)
    ensures Match(r, c) <==> c in Emitted(r, order, mode) || Match(Advance(r, order, mode), c)
  {
    var r', k, first := Advance(r, order, mode), Width(r, order), Cur(r, order, 0);
    var last := Cur(r, order, k - 1);
    AdvanceSubset(r, order, mode);
    if !Guard(r, order, mode) {
      if c < GetConjunctionId(last) {
        DisagreeBefore(r, order, r, c);
        DisagreeBefore(r, order, r', c);
      } else {
        DisagreeAfter(r, order, mode, c);
        SameMatch(r, r', c);
      }
    } else if c != GetConjunctionId(first) {
      AgreeTouchesOne(r, order, mode, c);
      SameMatch(r, r', c);
    } else if IsInclude(first) {
      AgreeIncluded(r, order);
    } else {
      AgreeExcluded(r, order, mode);
    }
  }

  /** Nothing is satisfied once the scan stops. */
  lemma StopExact(r: Fields, order: seq<nat>, c: nat)
    requires WellFormed(r) && IsOrder(r, order) && !CanStep(r, order)
    ensures !Match(r, c)
  {
    forall i | i in HitFields(r, c) ensures i in order {
    }
    CoverCount(HitFields(r, c), order);
    if i :| i in HitFields(r, c) {
      assert Inc(c) in r[i];
      FirstIsLeast(r, order, i, Inc(c));
      ConjOfEntry(c);
      ConjMonotone(Cur(r, order, 0), Inc(c));
    } else {
      assert HitFields(r, c) == {};
    }
  }

  /** Every indexed conjunction has at most n includes. */
  ghost predicate SizesAtMost(r: Fields, n: nat) {
    forall i, e :: 0 <= i < |r| && e in r[i] ==> GetConjunctionSize(GetConjunctionId(e)) <= n
  }

  /**
    A scan reports exactly the satisfied conjunctions: with the guard as in the variant always,
    with the guard as written when no conjunction has more than one include.
  */
  lemma {:induction false} ScanExact(r: Fields, found: seq<nat>, mode: Mode, c: nat)
    requires WellFormed(r) && Separated(r) && Scan(r, found, mode)
    requires mode == Variant || SizesAtMost(r, 1)
    ensures c in found <==> Match(r, c)
    decreases Pairs(r)
  {
    var order :| IsOrder(r, order) && ScanFrom(r, order, found, mode);
    if !CanStep(r, order) {
      StopExact(r, order, c);
    } else {
      StepExact(r, order, mode, c);
      var rest := ScanRest(r, order, found, mode);
      ScanExact(Advance(r, order, mode), rest, mode, c);
    }
  }

  /** What a scan that goes on finds: what the round emits, then what a scan of the rest finds. */
  lemma ScanRest(r: Fields, order: seq<nat>, found: seq<nat>, mode: Mode) returns (rest: seq<nat>)
    requires WellFormed(r) && IsOrder(r, order) && CanStep(r, order) && ScanFrom(r, order, found, mode)
    ensures found == Emitted(r, order, mode) + rest
    ensures var r' := Advance(r, order, mode);
      && WellFormed(r') && Scan(r', rest, mode) && Pairs(r') < Pairs(r)
      && (Separated(r) ==> Separated(r')) && (forall n :: SizesAtMost(r, n) ==> SizesAtMost(r', n))
  {
    var emitted := Emitted(r, order, mode);
    rest := found[|emitted|..];
    assert Cur(r, order, 0) in r[order[0]];
    AdvanceShrinks(r, order, mode);
    AdvanceSubset(r, order, mode);
  }

  /** Whatever the guard, a scan reports only conjunctions that some field includes. */
  lemma {:induction false} ScanSound(r: Fields, found: seq<nat>, mode: Mode, c: nat)
    requires WellFormed(r) && Scan(r, found, mode) && c in found
    ensures HitFields(r, c) != {}
    decreases Pairs(r)
  {
    var order :| IsOrder(r, order) && ScanFrom(r, order, found, mode);
    var rest := ScanRest(r, order, found, mode);
    if c in Emitted(r, order, mode) {
      EmittedIsHit(r, order, mode, c);
    } else {
      ScanSound(Advance(r, order, mode), rest, mode, c);
      AdvanceSubset(r, order, mode);
      var i :| i in HitFields(Advance(r, order, mode), c);
      assert i in HitFields(r, c);
    }
  }

  lemma EmittedIsHit(r: Fields, order: seq<nat>, mode: Mode, c: nat)
    requires WellFormed(r) && CanStep(r, order) && c in Emitted(r, order, mode)
    ensures HitFields(r, c) != {}
  {
    ConjOf(Cur(r, order, 0));
    assert order[0] in HitFields(r, c);
  }

  /** The code as written is exact on every query that meets only conjunctions of at most n includes. */
  ghost predicate AsWrittenExact(n: nat) {
    forall r: Fields, found, c ::
      WellFormed(r) && Separated(r) && SizesAtMost(r, n) && Scan(r, found, AsWritten) ==> (c in found <==> Match(r, c))
  }

  ghost predicate IsPair(c: nat, d: nat) {
    c < d < P60 && GetConjunctionSize(c) == GetConjunctionSize(d) == 2
  }

  /** The only round on two fields with one entry each. */
  lemma PairStep(c: nat, d: nat)
    requires IsPair(c, d)
    ensures var r: Fields := [{Inc(c)}, {Inc(d)}];
      && CanStep(r, [0, 1]) && Width(r, [0, 1]) == 2
      && Emitted(r, [0, 1], AsWritten) == [c] && NextId(r, [0, 1], AsWritten) == Inc(d) + 1
  {
    PairOrder(c, d);
    PairRound([{Inc(c)}, {Inc(d)}], [0, 1], c, d);
  }

  lemma PairRound(r: Fields, order: seq<nat>, c: nat, d: nat)
    requires IsPair(c, d) && IsOrder(r, order) && |order| == 2
    requires Cur(r, order, 0) == Inc(c) && Cur(r, order, 1) == Inc(d)
    ensures CanStep(r, order) && Width(r, order) == 2
    ensures Emitted(r, order, AsWritten) == [c] && NextId(r, order, AsWritten) == Inc(d) + 1
  {
    ConjOfEntry(c);
    ConjOfEntry(d);
    Parity(8 * c, 1);
  }

  lemma PairOrder(c: nat, d: nat)
    requires c < d
    ensures var r: Fields := [{Inc(c)}, {Inc(d)}];
      IsOrder(r, [0, 1]) && Cur(r, [0, 1], 0) == Inc(c) && Cur(r, [0, 1], 1) == Inc(d)
  {
    var r: Fields := [{Inc(c)}, {Inc(d)}];
    assert Min(r[0]) == Inc(c) && Min(r[1]) == Inc(d);
  }

  lemma PairAdvance(c: nat, d: nat)
    requires IsPair(c, d)
    ensures CanStep([{Inc(c)}, {Inc(d)}], [0, 1])
    ensures Advance([{Inc(c)}, {Inc(d)}], [0, 1], AsWritten) == [{}, {}]
  {
    var r: Fields := [{Inc(c)}, {Inc(d)}];
    PairStep(c, d);
    assert [0, 1][..2] == [0, 1];
    forall i | 0 <= i < 2 ensures AdvanceField(r, [0, 1], AsWritten, i) == {} {
    }
  }

  /** Two conjunctions of two includes each, hit in one field each: the code as written reports the first. */
  lemma TwoIncludesMisreported(c: nat, d: nat)
    requires IsPair(c, d)
    ensures Scan([{Inc(c)}, {Inc(d)}], [c], AsWritten) && !Match([{Inc(c)}, {Inc(d)}], c)
  {
    var r: Fields := [{Inc(c)}, {Inc(d)}];
    PairStep(c, d);
    PairAdvance(c, d);
    assert IsOrder([{}, {}], []) && ScanFrom([{}, {}], [], [], AsWritten);
    assert [c][1..] == [];
    assert ScanFrom(r, [0, 1], [c], AsWritten);
    assert HitFields(r, c) == {0};
  }

  /** An exclude entry in one field takes the include entry of the same conjunction in another with it. */
  lemma ExcludeHides(c: nat)
    requires c < P60 && GetConjunctionSize(c) == 0
    ensures Scan([{Exc(c)}, {Inc(c)}], [], AsWritten)
  {
    var r: Fields := [{Exc(c)}, {Inc(c)}];
    ConjOfEntry(c);
    ExcludeOrder(c);
    ExcludeAdvance(c);
    assert IsOrder([{}, {}], []) && ScanFrom([{}, {}], [], [], AsWritten);
    var none: seq<nat> := [];
    assert none[0..] == none;
    assert ScanFrom(r, [0, 1], none, AsWritten);
  }

  lemma ExcludeOrder(c: nat)
    ensures var r: Fields := [{Exc(c)}, {Inc(c)}];
      IsOrder(r, [0, 1]) && Cur(r, [0, 1], 0) == Exc(c) && Cur(r, [0, 1], 1) == Inc(c)
  {
    var r: Fields := [{Exc(c)}, {Inc(c)}];
    assert Min(r[0]) == Exc(c) && Min(r[1]) == Inc(c);
  }

  lemma ExcludeAdvance(c: nat)
    requires c < P60 && GetConjunctionSize(c) == 0
    ensures var r: Fields := [{Exc(c)}, {Inc(c)}];
      && CanStep(r, [0, 1]) && Emitted(r, [0, 1], AsWritten) == []
      && Advance(r, [0, 1], AsWritten) == [{}, {}]
  {
    var r: Fields := [{Exc(c)}, {Inc(c)}];
    ConjOfEntry(c);
    ExcludeOrder(c);
    assert [0, 1][..1] == [0];
    forall i | 0 <= i < 2 ensures AdvanceField(r, [0, 1], AsWritten, i) == {} {
    }
  }

  /** The code as written is exact exactly for conjunctions of at most one include. */
  lemma AsWrittenExactIff(n: nat)
    ensures AsWrittenExact(n) <==> n <= 1
  {
    if n <= 1 {
      forall r: Fields, found, c
        | WellFormed(r) && Separated(r) && SizesAtMost(r, n) && Scan(r, found, AsWritten)
        ensures c in found <==> Match(r, c)
      {
        ScanExact(r, found, AsWritten, c);
      }
    } else {
      var c, d := 2 * P52 + 1, 2 * P52 + 2;
      TwoIncludesMisreported(c, d);
      var r: Fields := [{Inc(c)}, {Inc(d)}];
      ConjOfEntry(c);
      ConjOfEntry(d);
      assert WellFormed(r) && Separated(r) && SizesAtMost(r, n);
      assert c in [c];
    }
  }
}
