/** The merge loop `IndexScanner::Retrieve` (components/boolean_indexer/index_scanner.cc). */
module IndexScanner {
  import opened EntryIds
  import opened Cursors
  import opened ScanSpec
  import opened Sequences
  import Sorting

  /** The entry ids ahead of each cursor. */
  ghost function Ahead(cursors: seq<FieldCursor>): (r: Fields)
    reads cursors
    ensures |r| == |cursors| && forall i :: 0 <= i < |r| ==> r[i] == cursors[i].Remaining()
  {
    seq(|cursors|, i requires 0 <= i < |cursors| reads cursors => cursors[i].Remaining())
  }

  ghost predicate AllCursorsValid(cursors: seq<FieldCursor>)
    reads cursors
  {
    forall i :: 0 <= i < |cursors| ==> cursors[i].Valid()
  }

  predicate SortedByCurrent(v: seq<FieldCursor>)
    reads v
  {
    forall i, j :: 0 <= i < j < |v| ==> v[i].currentId <= v[j].currentId
  }

  function Docs(found: seq<nat>): seq<int> {
    seq(|found|, i requires 0 <= i < |found| => GetDocumentID(found[i]))
  }

  /** Some sort by current id; nothing is promised about the order of equals. */
  method Sort(v: seq<FieldCursor>) returns (s: seq<FieldCursor>)
    ensures multiset(s) == multiset(v) && SortedByCurrent(s)
  {
    s := Sorting.Sort(v, map c | c in v :: c.currentId);
    assert forall i :: 0 <= i < |s| ==> s[i] in multiset(v);
  }

  /** What one cursor has left after a skip that applies to it or not. */
  ghost function After(before: set<nat>, skips: bool, id: nat, past: bool): set<nat> {
    if skips then set e | e in before && !Passes(e, id, past) else before
  }

  ghost function Currents(live: seq<FieldCursor>): (curs: seq<nat>)
    reads live
    ensures |curs| == |live| && forall i :: 0 <= i < |live| ==> curs[i] == live[i].currentId
  {
    seq(|live|, i requires 0 <= i < |live| reads live => live[i].currentId)
  }

  /** Behind the first cursor on a later conjunction there is none on this one. */
  lemma LaterConjs(curs: seq<nat>, j: nat, conj: nat)
    requires forall a, b :: 0 <= a < b < |curs| ==> curs[a] <= curs[b]
    requires forall i :: 0 <= i < |curs| ==> GetConjunctionId(curs[i]) >= conj
    requires j < |curs| ==> GetConjunctionId(curs[j]) != conj
    ensures forall i :: j <= i < |curs| ==> GetConjunctionId(curs[i]) != conj
  {
    forall i | j <= i < |curs| ensures GetConjunctionId(curs[i]) != conj {
      ConjMonotone(curs[j], curs[i]);
    }
  }

  method SkipRange(live: seq<FieldCursor>, lo: nat, hi: nat, id: nat, past: bool)
    requires NoRepeats(live) && AllCursorsValid(live) && lo <= hi <= |live|
    modifies live
    ensures AllCursorsValid(live)
    ensures forall i :: 0 <= i < |live| ==>
      live[i].Remaining() == After(old(live[i].Remaining()), lo <= i < hi, id, past)
  {
    for j := lo to hi
      invariant AllCursorsValid(live)
      invariant forall i :: 0 <= i < |live| ==>
        live[i].Remaining() == After(old(live[i].Remaining()), lo <= i < j, id, past)
    {
      live[j].Skip(id, past);
    }
  }

  /** How far, from k on, the cursors stand on the conjunction. */
  method SameConjEnd(live: seq<FieldCursor>, k: nat, conj: nat) returns (m: nat)
    requires SortedByCurrent(live) && k <= |live|
    requires forall i :: 0 <= i < |live| ==> GetConjunctionId(live[i].currentId) >= conj
    ensures k <= m <= |live|
    ensures forall i :: k <= i < |live| ==> (GetConjunctionId(Currents(live)[i]) == conj <==> i < m)
  {
    m := k;
    while m < |live| && GetConjunctionId(live[m].currentId) == conj
      invariant k <= m <= |live|
      invariant forall i :: k <= i < m ==> GetConjunctionId(Currents(live)[i]) == conj
    {
      m := m + 1;
    }
    LaterConjs(Currents(live), m, conj);
  }

  /** Where each live cursor stands in the original vector. */
  ghost function Positions(cursors: seq<FieldCursor>, live: seq<FieldCursor>): (order: seq<nat>)
    requires forall i :: 0 <= i < |live| ==> live[i] in cursors
    ensures |order| == |live| && forall j :: 0 <= j < |live| ==> order[j] < |cursors| && cursors[order[j]] == live[j]
  {
    seq(|live|, j requires 0 <= j < |live| =>
      assert live[j] in cursors; var i: nat :| i < |cursors| && cursors[i] == live[j]; i)
  }

  /** The live cursors are the ones not yet known to be at their end. */
  ghost predicate IsLive(cursors: seq<FieldCursor>, live: seq<FieldCursor>)
    reads cursors
  {
    && NoRepeats(live)
    && (forall i :: 0 <= i < |live| ==> live[i] in cursors)
    && (forall i :: 0 <= i < |cursors| && cursors[i].Remaining() != {} ==> cursors[i] in live)
  }

  lemma SortKeepsLive(cursors: seq<FieldCursor>, live: seq<FieldCursor>, s: seq<FieldCursor>)
    requires IsLive(cursors, live) && multiset(s) == multiset(live)
    ensures IsLive(cursors, s)
  {
    forall x ensures x in s <==> x in live {
      assert x in multiset(s) <==> x in multiset(live);
    }
    forall i | 0 <= i < |s| ensures s[i] in cursors {
      assert s[i] in live;
    }
    forall i, j | 0 <= i < j < |s| ensures s[i] != s[j] {
      if s[i] == s[j] {
        TwiceInMultiset(s, i, j);
        OnceInMultiset(live, s[i]);
      }
    }
  }

  lemma TwiceInMultiset<T>(s: seq<T>, i: nat, j: nat)
    requires i < j < |s| && s[i] == s[j]
    ensures multiset(s)[s[i]] >= 2
  {
    assert s == s[..i] + [s[i]] + s[i + 1..j] + [s[j]] + s[j + 1..];
  }

  lemma {:induction false} OnceInMultiset<T>(s: seq<T>, x: T)
    requires NoRepeats(s)
    ensures multiset(s)[x] <= 1
  {
    if s != [] {
      assert s == [s[0]] + s[1..];
      OnceInMultiset(s[1..], x);
      if x == s[0] {
        assert x !in s[1..];
        assert x !in multiset(s[1..]);
      }
    }
  }

  lemma CurIsCurrent(cursors: seq<FieldCursor>, live: seq<FieldCursor>, j: nat)
    requires NoRepeats(cursors) && IsLive(cursors, live) && AllCursorsValid(cursors)
    requires j < |live| && !live[j].ReachEnd()
    ensures var r, order := Ahead(cursors), Positions(cursors, live);
      j < |order| && order[j] < |r| && r[order[j]] != {} && Min(r[order[j]]) == live[j].currentId < NULLENTRY
  {
    live[j].CurrentIsMin();
  }

  /** With the ended cursors popped, the sorted vector is an order of the scan. */
  lemma LiveIsOrder(cursors: seq<FieldCursor>, live: seq<FieldCursor>)
    requires NoRepeats(cursors) && IsLive(cursors, live) && AllCursorsValid(cursors) && SortedByCurrent(live)
    requires forall i :: 0 <= i < |live| ==> !live[i].ReachEnd()
    ensures IsOrder(Ahead(cursors), Positions(cursors, live))
    ensures forall j :: 0 <= j < |live| ==>
      Cur(Ahead(cursors), Positions(cursors, live), j) == live[j].currentId < NULLENTRY
  {
    var r, order := Ahead(cursors), Positions(cursors, live);
    forall j | 0 <= j < |live| ensures r[order[j]] != {} && Min(r[order[j]]) == live[j].currentId < NULLENTRY {
      CurIsCurrent(cursors, live, j);
    }
    forall i | 0 <= i < |r| && r[i] != {} ensures i in order {
      LiveCovers(cursors, live, i);
    }
  }

  lemma LiveCovers(cursors: seq<FieldCursor>, live: seq<FieldCursor>, i: nat)
    requires NoRepeats(cursors) && IsLive(cursors, live) && i < |cursors| && cursors[i].Remaining() != {}
    ensures i in Positions(cursors, live)
  {
    var j :| 0 <= j < |live| && live[j] == cursors[i];
    assert Positions(cursors, live)[j] == i;
  }

  /** The vector before a round: sorted, ended cursors popped, and wide enough. */
  ghost predicate AtRound(cursors: seq<FieldCursor>, live: seq<FieldCursor>)
    reads cursors, live
  {
    && NoRepeats(cursors) && AllCursorsValid(cursors)
    && IsLive(cursors, live) && SortedByCurrent(live) && live != []
    && (forall i :: 0 <= i < |live| ==> !live[i].ReachEnd())
  }

  lemma InFirst(order: seq<nat>, k: nat, j: nat)
    requires NoRepeats(order) && k <= |order| && j < |order|
    ensures order[j] in order[..k] <==> j < k
  {
    if j < k {
      assert order[..k][j] == order[j];
    }
  }

  /** What is left of one cursor's entries after a round. */
  ghost function Left(before: set<nat>, first: bool, excluded: bool, next: nat): set<nat> {
    if first then set e | e in before && e >= next
    else if excluded then set e | e in before && e > next
    else before
  }

  lemma AfterIsLeft(before: set<nat>, next: nat)
    ensures After(before, true, next, true) == Left(before, false, true, next)
    ensures After(before, true, next, false) == Left(before, true, false, next)
  {
  }

  /** The skips of a round. */
  method Move(live: seq<FieldCursor>, k: nat, conj: nat, next: nat, excluded: bool)
    requires NoRepeats(live) && AllCursorsValid(live) && SortedByCurrent(live) && k <= |live|
    requires forall i :: 0 <= i < |live| ==> GetConjunctionId(live[i].currentId) >= conj
    modifies live
    ensures AllCursorsValid(live)
    ensures forall j :: 0 <= j < |live| ==>
      live[j].Remaining() ==
      Left(old(live[j].Remaining()), j < k, excluded && GetConjunctionId(old(Currents(live)[j])) == conj, next)
  {
    ghost var curs := Currents(live);
    var m := k;
    if excluded {
      m := SameConjEnd(live, k, conj);
      assert Currents(live) == curs;
      SkipRange(live, k, m, next, true);
    }
    label between:
    assert forall j :: 0 <= j < |live| ==>
      live[j].Remaining() == After(old(live[j].Remaining()), k <= j < m, next, true);
    SkipRange(live, 0, k, next, false);
    forall j | 0 <= j < |live|
      ensures live[j].Remaining() ==
        Left(old(live[j].Remaining()), j < k, excluded && GetConjunctionId(curs[j]) == conj, next)
    {
      AfterIsLeft(old(live[j].Remaining()), next);
      assert live[j].Remaining() == After(old@between(live[j].Remaining()), 0 <= j < k, next, false);
    }
  }

  lemma LeftIsAdvance(r: Fields, order: seq<nat>, mode: Mode, j: nat)
    requires CanStep(r, order) && j < |order|
    ensures AdvanceField(r, order, mode, order[j]) ==
      Left(r[order[j]], j < Width(r, order),
           Guard(r, order, mode) && !IsInclude(Cur(r, order, 0))
           && GetConjunctionId(Cur(r, order, j)) == GetConjunctionId(Cur(r, order, 0)),
           NextId(r, order, mode))
  {
    InFirst(order, Width(r, order), j);
  }

  lemma EndedStays(r: Fields, order: seq<nat>, mode: Mode, i: nat)
    requires CanStep(r, order) && i < |r| && r[i] == {}
    ensures AdvanceField(r, order, mode, i) == {}
  {
  }

  /** What a round reports and where it goes on, from the first and the k-th id. */
  predicate Decides(eid: nat, endEid: nat, mode: Mode, next: nat, excluded: bool, emitted: seq<int>) {
    var hit := mode == AsWritten || GetConjunctionId(endEid) == GetConjunctionId(eid);
    && next == (if hit then endEid + 1 else Exc(GetConjunctionId(endEid)))
    && (excluded <==> hit && !IsInclude(eid))
    && emitted == Docs(if hit && IsInclude(eid) then [GetConjunctionId(eid)] else [])
  }

  /** The branch of a round, from the first and the k-th cursor's entries. */
  method Decide(eid: nat, endEid: nat, mode: Mode) returns (next: nat, excluded: bool, emitted: seq<int>)
    requires endEid < NULLENTRY
    ensures Decides(eid, endEid, mode, next, excluded, emitted)
  {
    var conj := GetConjunctionId(eid);
    // the source reads the first cursor's entry again where the variant reads the k-th's
    var endConj := GetConjunctionId(if mode == AsWritten then eid else endEid);
    next := GenEntryID(GetConjunctionId(endEid), true);
    excluded, emitted := false, [];
    if endConj == conj {
      next := endEid + 1;
      if IsInclude(eid) {
        emitted := [GetDocID(eid)];
      } else {
        excluded := true;
      }
    }
  }

  /** `Decide` on the first and the k-th id ahead says what the specified round does. */
  lemma DecidesRound(r: Fields, order: seq<nat>, mode: Mode, next: nat, excluded: bool, emitted: seq<int>)
    requires CanStep(r, order)
    requires Decides(Cur(r, order, 0), Cur(r, order, Width(r, order) - 1), mode, next, excluded, emitted)
    ensures next == NextId(r, order, mode) && emitted == Docs(Emitted(r, order, mode))
    ensures excluded <==> Guard(r, order, mode) && !IsInclude(Cur(r, order, 0))
  {
  }

  /** The reading half of a round: k, the conjunction, the next id, and what is reported. */
  method Plan(live: seq<FieldCursor>, ghost r: Fields, ghost order: seq<nat>, mode: Mode)
    returns (k: nat, conj: nat, next: nat, excluded: bool, emitted: seq<int>)
    requires live != [] && |order| == |live| && IsOrder(r, order)
    requires forall j :: 0 <= j < |live| ==> live[j].currentId == Cur(r, order, j) < NULLENTRY
    requires Need(GetConjunctionId(live[0].currentId)) <= |live|
    ensures CanStep(r, order) && k == Width(r, order) && next == NextId(r, order, mode)
    ensures conj == GetConjunctionId(Cur(r, order, 0)) && emitted == Docs(Emitted(r, order, mode))
    ensures excluded <==> Guard(r, order, mode) && !IsInclude(Cur(r, order, 0))
  {
    var eid := live[0].currentId;
    conj := GetConjunctionId(eid);
    k := GetConjunctionSize(conj);
    if k == 0 {
      k := 1;
    }
    next, excluded, emitted := Decide(eid, live[k - 1].currentId, mode);
    DecidesRound(r, order, mode, next, excluded, emitted);
  }

  /** The moving half of a round. */
  method Carry(cursors: seq<FieldCursor>, live: seq<FieldCursor>, ghost r: Fields, ghost order: seq<nat>,
               ghost mode: Mode, k: nat, conj: nat, next: nat, excluded: bool)
    requires AtRound(cursors, live) && order == Positions(cursors, live) && r == Ahead(cursors) && CanStep(r, order)
    requires forall j :: 0 <= j < |live| ==> live[j].currentId == Cur(r, order, j)
    requires k == Width(r, order) && next == NextId(r, order, mode) && conj == GetConjunctionId(Cur(r, order, 0))
    requires excluded <==> Guard(r, order, mode) && !IsInclude(Cur(r, order, 0))
    modifies cursors
    ensures AllCursorsValid(cursors) && Ahead(cursors) == Advance(r, order, mode)
  {
    FirstConjLeast(live, conj);
    forall j | 0 <= j < |live| ensures live[j].Remaining() == r[order[j]] {
    }
    Move(live, k, conj, next, excluded);
    MovedIsAdvance(cursors, live, r, order, mode);
  }

  /** One round of the loop. */
  method Round(cursors: seq<FieldCursor>, live: seq<FieldCursor>, mode: Mode) returns (emitted: seq<int>)
    requires AtRound(cursors, live) && Need(GetConjunctionId(live[0].currentId)) <= |live|
    modifies cursors
    ensures AllCursorsValid(cursors)
    ensures CanStep(old(Ahead(cursors)), Positions(cursors, live))
    ensures Ahead(cursors) == Advance(old(Ahead(cursors)), Positions(cursors, live), mode)
    ensures emitted == Docs(Emitted(old(Ahead(cursors)), Positions(cursors, live), mode))
  {
    ghost var r, order := Ahead(cursors), Positions(cursors, live);
    var k, conj, next, excluded;
    LiveIsOrder(cursors, live);
    k, conj, next, excluded, emitted := Plan(live, r, order, mode);
    Carry(cursors, live, r, order, mode, k, conj, next, excluded);
  }

  /** Cursor by cursor, the moves of a round are the specified advance. */
  lemma MovedIsAdvance(cursors: seq<FieldCursor>, live: seq<FieldCursor>, r: Fields, order: seq<nat>, mode: Mode)
    requires NoRepeats(cursors) && forall i :: 0 <= i < |live| ==> live[i] in cursors
    requires order == Positions(cursors, live) && |r| == |cursors| && CanStep(r, order)
    requires forall j :: 0 <= j < |live| ==> live[j].Valid()
    requires forall j :: 0 <= j < |live| ==>
      live[j].Remaining() == Left(r[order[j]], j < Width(r, order),
        Guard(r, order, mode) && !IsInclude(Cur(r, order, 0))
        && GetConjunctionId(Cur(r, order, j)) == GetConjunctionId(Cur(r, order, 0)), NextId(r, order, mode))
    requires forall i :: 0 <= i < |cursors| && cursors[i] !in live ==>
      cursors[i].Valid() && cursors[i].Remaining() == r[i] == {}
    ensures AllCursorsValid(cursors) && Ahead(cursors) == Advance(r, order, mode)
  {
    forall i | 0 <= i < |cursors|
      ensures cursors[i].Valid() && cursors[i].Remaining() == AdvanceField(r, order, mode, i)
    {
      if cursors[i] in live {
        var j :| 0 <= j < |live| && live[j] == cursors[i];
        assert order[j] == i;
        LeftIsAdvance(r, order, mode, j);
      } else {
        EndedStays(r, order, mode, i);
      }
    }
  }

  lemma FirstConjLeast(live: seq<FieldCursor>, conj: nat)
    requires SortedByCurrent(live) && live != [] && GetConjunctionId(live[0].currentId) == conj
    ensures forall i :: 0 <= i < |live| ==> GetConjunctionId(live[i].currentId) >= conj
  {
    forall i | 0 <= i < |live| ensures GetConjunctionId(live[i].currentId) >= conj {
      ConjMonotone(live[0].currentId, live[i].currentId);
    }
  }

  /** Sort, then pop the cursors that reached their end. */
  lemma PopEnded(cursors: seq<FieldCursor>, s: seq<FieldCursor>)
    requires AllCursorsValid(cursors) && IsLive(cursors, s) && SortedByCurrent(s) && s != [] && s[|s| - 1].ReachEnd()
    ensures IsLive(cursors, s[..|s| - 1]) && SortedByCurrent(s[..|s| - 1])
  {
    s[|s| - 1].CurrentIsMin();
    assert s == s[..|s| - 1] + [s[|s| - 1]];
  }

  method SortAndPop(cursors: seq<FieldCursor>, live: seq<FieldCursor>) returns (s: seq<FieldCursor>)
    requires NoRepeats(cursors) && AllCursorsValid(cursors) && IsLive(cursors, live)
    ensures IsLive(cursors, s) && SortedByCurrent(s)
    ensures forall i :: 0 <= i < |s| ==> !s[i].ReachEnd()
  {
    s := Sort(live);
    SortKeepsLive(cursors, live, s);
    while s != [] && s[|s| - 1].ReachEnd()
      invariant IsLive(cursors, s) && SortedByCurrent(s)
      decreases |s|
    {
      PopEnded(cursors, s);
      s := s[..|s| - 1];
    }
    forall i | 0 <= i < |s| ensures !s[i].ReachEnd() {
      s[i].CurrentIsMin();
    }
  }

  /** Prefixing what was already found keeps the run of a scan together. */
  ghost predicate Continues(r0: Fields, found: seq<nat>, r: Fields, mode: Mode) {
    forall rest :: Scan(r, rest, mode) ==> Scan(r0, found + rest, mode)
  }

  lemma ContinueStart(r: Fields, mode: Mode)
    ensures Continues(r, [], r, mode)
  {
    forall rest | Scan(r, rest, mode) ensures Scan(r, [] + rest, mode) {
      assert [] + rest == rest;
    }
  }

  lemma ContinueRound(r0: Fields, found: seq<nat>, r: Fields, order: seq<nat>, mode: Mode)
    requires Continues(r0, found, r, mode) && CanStep(r, order)
    ensures Continues(r0, found + Emitted(r, order, mode), Advance(r, order, mode), mode)
  {
    var emitted := Emitted(r, order, mode);
    forall rest | Scan(Advance(r, order, mode), rest, mode) ensures Scan(r0, found + emitted + rest, mode) {
      assert (emitted + rest)[|emitted|..] == rest;
      assert ScanFrom(r, order, emitted + rest, mode);
      assert found + emitted + rest == found + (emitted + rest);
    }
  }

  lemma ContinueStop(r0: Fields, found: seq<nat>, r: Fields, order: seq<nat>, mode: Mode)
    requires Continues(r0, found, r, mode) && IsOrder(r, order) && !CanStep(r, order)
    ensures Scan(r0, found, mode)
  {
    assert ScanFrom(r, order, [], mode);
    assert found + [] == found;
  }

  /** Sort and pop: the vector is then an order of the scan. */
  method NextOrder(cursors: seq<FieldCursor>, live: seq<FieldCursor>)
    returns (live': seq<FieldCursor>, ghost order: seq<nat>)
    requires NoRepeats(cursors) && AllCursorsValid(cursors) && IsLive(cursors, live)
    ensures IsLive(cursors, live') && SortedByCurrent(live') && (forall i :: 0 <= i < |live'| ==> !live'[i].ReachEnd())
    ensures order == Positions(cursors, live') && IsOrder(Ahead(cursors), order)
    ensures forall j :: 0 <= j < |live'| ==> Cur(Ahead(cursors), order, j) == live'[j].currentId
  {
    live' := SortAndPop(cursors, live);
    order := Positions(cursors, live');
    LiveIsOrder(cursors, live');
  }

  /** One turn of the loop: sort, pop, and either leave the loop or do a round. */
  method Turn(cursors: seq<FieldCursor>, live: seq<FieldCursor>, mode: Mode)
    returns (more: bool, live': seq<FieldCursor>, emitted: seq<int>, ghost order: seq<nat>)
    requires NoRepeats(cursors) && AllCursorsValid(cursors) && IsLive(cursors, live)
    modifies cursors
    ensures AllCursorsValid(cursors)
    ensures IsOrder(old(Ahead(cursors)), order)
    ensures more <==> CanStep(old(Ahead(cursors)), order)
    ensures more ==> IsLive(cursors, live') && Ahead(cursors) == Advance(old(Ahead(cursors)), order, mode)
    ensures more ==> emitted == Docs(Emitted(old(Ahead(cursors)), order, mode))
  {
    live', order := NextOrder(cursors, live);
    ghost var r := Ahead(cursors);
    emitted := [];
    more := live' != [] && Need(GetConjunctionId(live'[0].currentId)) <= |live'|;
    assert more <==> CanStep(r, order);
    if more {
      emitted := Round(cursors, live', mode);
      AdvanceSubset(r, order, mode);
    }
  }

  lemma DocsConcat(a: seq<nat>, b: seq<nat>)
    ensures Docs(a + b) == Docs(a) + Docs(b)
  {
  }

  /**
    `Retrieve`, from the field cursors on. It comes to an end on every index and query, and its
    result lists the documents of a scan; ScanSpec says what a scan finds.
  */
  method Retrieve(cursors: seq<FieldCursor>, mode: Mode) returns (result: seq<int>)
    requires NoRepeats(cursors) && AllCursorsValid(cursors)
    modifies cursors
    ensures exists found :: Scan(old(Ahead(cursors)), found, mode) && result == Docs(found)
  {
    ghost var r0, found := Ahead(cursors), [];
    ContinueStart(r0, mode);
    var live := cursors;
    result := [];
    while true
      invariant AllCursorsValid(cursors) && IsLive(cursors, live)
      invariant result == Docs(found) && Continues(r0, found, Ahead(cursors), mode)
      decreases Pairs(Ahead(cursors))
    {
      ghost var r := Ahead(cursors);
      var more, live', emitted, order := Turn(cursors, live, mode);
      if !more {
        ContinueStop(r0, found, r, order, mode);
        return;
      }
      AdvanceShrinks(r, order, mode);
      ContinueRound(r0, found, r, order, mode);
      DocsConcat(found, Emitted(r, order, mode));
      found := found + Emitted(r, order, mode);
      result := result + emitted;
      live := live';
    }
  }
}
