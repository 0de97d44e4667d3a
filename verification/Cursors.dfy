/** Cursors over sorted posting lists (components/boolean_indexer/scanner_cursor.h and .cc). */
module Cursors {
  import opened EntryIds

  const LINEAR_SKIP_DISTANCE: nat := 64

  /** What a skip runs over: `Skip` passes the id itself (`past`), `SkipTo` stops at it. */
  predicate Passes(e: nat, id: nat, past: bool) { if past then e <= id else e < id }

  predicate Sorted(ids: seq<nat>) { forall i, j :: 0 <= i < j < |ids| ==> ids[i] <= ids[j] }

  predicate IsPosting(ids: seq<nat>) { Sorted(ids) && forall i :: 0 <= i < |ids| ==> ids[i] < NULLENTRY }

  /** A cursor lives by value in its field cursor's vector, so its operations return the moved cursor. */
  datatype EntriesCursor = EntriesCursor(ids: seq<nat>, index: nat) {
    predicate Valid() { IsPosting(ids) && index <= |ids| }

    predicate ReachEnd() { |ids| <= index }

    function GetCurEntryID(): nat { if index < |ids| then ids[index] else NULLENTRY }
  }

  /** The linear scan, entry by entry: where `LinearSkip` and `LinearSkipTo` stop. */
  function Landing(ids: seq<nat>, index: nat, id: nat, past: bool): (r: nat)
    ensures index <= r && (index <= |ids| ==> r <= |ids|)
    decreases |ids| - index
  {
    if index < |ids| && Passes(ids[index], id, past) then Landing(ids, index + 1, id, past) else index
  }

  lemma {:induction false} LandingIs(ids: seq<nat>, index: nat, id: nat, past: bool, r: nat)
    requires index <= r <= |ids|
    requires forall j :: index <= j < r ==> Passes(ids[j], id, past)
    requires r < |ids| ==> !Passes(ids[r], id, past)
    ensures Landing(ids, index, id, past) == r
    decreases r - index
  {
    if index < r {
      LandingIs(ids, index + 1, id, past, r);
    }
  }

  lemma {:induction false} LandingPasses(ids: seq<nat>, index: nat, id: nat, past: bool)
    requires index <= |ids|
    ensures var r := Landing(ids, index, id, past);
      && (forall j :: index <= j < r ==> Passes(ids[j], id, past))
      && (r < |ids| ==> !Passes(ids[r], id, past))
    decreases |ids| - index
  {
    if index < |ids| && Passes(ids[index], id, past) {
      LandingPasses(ids, index + 1, id, past);
    }
  }

  /** `LinearSkip` and `LinearSkipTo`. */
  method SkipLinearly(c: EntriesCursor, id: nat, past: bool) returns (c': EntriesCursor)
    requires c.index <= |c.ids|
    ensures c' == c.(index := Landing(c.ids, c.index, id, past))
  {
    var index := c.index;
    while index < |c.ids| && Passes(c.ids[index], id, past)
      invariant c.index <= index <= |c.ids|
      invariant forall j :: c.index <= j < index ==> Passes(c.ids[j], id, past)
    {
      index := index + 1;
    }
    LandingIs(c.ids, c.index, id, past, index);
    c' := c.(index := index);
  }

  /**
    `EntriesCursor::Skip` and `SkipTo`: binary search while the range is wide, linear below.
    On every sorted list, with duplicates, it stops exactly where the linear scan stops.
  */
  method SkipCursor(c: EntriesCursor, id: nat, past: bool) returns (c': EntriesCursor)
    requires c.Valid()
    ensures c' == c.(index := Landing(c.ids, c.index, id, past))
  {
    var index, right := c.index, |c.ids|;
    while index < right
      invariant c.index <= index <= right <= |c.ids|
      invariant forall j :: c.index <= j < index ==> Passes(c.ids[j], id, past)
      invariant forall j :: right <= j < |c.ids| ==> !Passes(c.ids[j], id, past)
      decreases right - index
    {
      if right - index < LINEAR_SKIP_DISTANCE {
        c' := SkipLinearly(c.(index := index), id, past);
        LandingPasses(c.ids, index, id, past);
        LandingIs(c.ids, c.index, id, past, c'.index);
        return;
      }
      var mid := (index + right) / 2;
      if Passes(c.ids[mid], id, past) {
        index := mid + 1;
      } else {
        right := mid;
      }
      if index >= |c.ids| || !Passes(c.ids[index], id, past) {
        break;
      }
    }
    LandingIs(c.ids, c.index, id, past, index);
    c' := c.(index := index);
  }

  /** The entries a cursor has not passed yet. */
  ghost function Rest(c: EntriesCursor): set<nat> {
    set j | c.index <= j < |c.ids| :: c.ids[j]
  }

  lemma SkipRest(c: EntriesCursor, id: nat, past: bool)
    requires c.Valid()
    ensures var c' := c.(index := Landing(c.ids, c.index, id, past));
      c'.Valid() && Rest(c') == set e | e in Rest(c) && !Passes(e, id, past)
  {
    LandingPasses(c.ids, c.index, id, past);
    var c' := c.(index := Landing(c.ids, c.index, id, past));
    forall e | e in Rest(c) && !Passes(e, id, past) ensures e in Rest(c') {
      var j :| c.index <= j < |c.ids| && c.ids[j] == e;
      assert c'.index <= j;
    }
    forall e | e in Rest(c') ensures e in Rest(c) && !Passes(e, id, past) {
      var j :| c'.index <= j < |c.ids| && c.ids[j] == e;
      assert c.ids[c'.index] <= c.ids[j];
    }
  }

  lemma CurIsMin(c: EntriesCursor)
    requires c.Valid()
    ensures c.ReachEnd() <==> Rest(c) == {}
    ensures c.ReachEnd() <==> c.GetCurEntryID() == NULLENTRY
    ensures !c.ReachEnd() ==> c.GetCurEntryID() in Rest(c)
    ensures forall e :: e in Rest(c) ==> c.GetCurEntryID() <= e < NULLENTRY
  {
    if !c.ReachEnd() {
      assert c.ids[c.index] in Rest(c);
    }
  }

  /** The entries of several cursors together. */
  ghost function RestOf(cursors: seq<EntriesCursor>): set<nat> {
    set i, e | 0 <= i < |cursors| && e in Rest(cursors[i]) :: e
  }

  predicate AllValid(cursors: seq<EntriesCursor>) {
    forall i :: 0 <= i < |cursors| ==> cursors[i].Valid()
  }

  lemma SkipRestOf(before: seq<EntriesCursor>, after: seq<EntriesCursor>, id: nat, past: bool)
    requires AllValid(before) && |after| == |before|
    requires forall i :: 0 <= i < |before| ==>
      after[i] == before[i].(index := Landing(before[i].ids, before[i].index, id, past))
    ensures AllValid(after) && RestOf(after) == set e | e in RestOf(before) && !Passes(e, id, past)
  {
    forall i | 0 <= i < |before|
      ensures after[i].Valid() && Rest(after[i]) == set e | e in Rest(before[i]) && !Passes(e, id, past)
    {
      SkipRest(before[i], id, past);
    }
    forall e | e in RestOf(before) && !Passes(e, id, past) ensures e in RestOf(after) {
      var i :| 0 <= i < |before| && e in Rest(before[i]);
      assert e in Rest(after[i]);
    }
  }

  predicate InSome(lists: seq<seq<nat>>, e: nat) { exists i :: 0 <= i < |lists| && e in lists[i] }

  /** All the cursors of one field: the entry ids of any of the field's queried values. */
  class FieldCursor {
    var cursors: seq<EntriesCursor>
    var current: nat
    var currentId: nat

    ghost predicate Valid()
      reads this
    {
      && AllValid(cursors)
      && current < |cursors| && currentId == cursors[current].GetCurEntryID()
      && (forall i :: 0 <= i < |cursors| ==> currentId <= cursors[i].GetCurEntryID())
    }

    /** The entry ids still ahead. */
    ghost function Remaining(): set<nat>
      reads this
    {
      RestOf(cursors)
    }

    predicate ReachEnd()
      reads this
    {
      currentId == NULLENTRY
    }

    /** `AddEntries` for every list, then `Initialize`. */
    constructor (lists: seq<seq<nat>>)
      requires lists != [] && forall i :: 0 <= i < |lists| ==> IsPosting(lists[i])
      ensures Valid()
      ensures forall e :: e in Remaining() <==> InSome(lists, e)
    {
      var cs := [];
      for i := 0 to |lists|
        invariant |cs| == i && forall j :: 0 <= j < i ==> cs[j] == EntriesCursor(lists[j], 0)
      {
        cs := cs + [EntriesCursor(lists[i], 0)];
      }
      var at, id := 0, cs[0].GetCurEntryID();
      for i := 0 to |cs|
        invariant at < |cs| && id == cs[at].GetCurEntryID()
        invariant forall j :: 0 <= j < i ==> id <= cs[j].GetCurEntryID()
      {
        if cs[i].GetCurEntryID() < id {
          at, id := i, cs[i].GetCurEntryID();
        }
      }
      cursors, current, currentId := cs, at, id;
      forall e ensures e in RestOf(cs) <==> InSome(lists, e) {
        if i :| 0 <= i < |lists| && e in lists[i] {
          var j :| 0 <= j < |lists[i]| && lists[i][j] == e;
          assert e in Rest(cs[i]);
        }
      }
    }

    /** `FieldCursor::Skip` and `SkipTo`: move every cursor, keep the least. */
    method Skip(id: nat, past: bool)
      requires Valid()
      modifies this
      ensures Valid()
      ensures |cursors| == |old(cursors)|
      ensures Remaining() == set e | e in old(Remaining()) && !Passes(e, id, past)
    {
      var minId := NULLENTRY;
      ghost var before := cursors;
      for i := 0 to |cursors|
        invariant |cursors| == |before| && current < |cursors|
        invariant forall j :: 0 <= j < i ==>
          cursors[j] == before[j].(index := Landing(before[j].ids, before[j].index, id, past))
        invariant forall j :: i <= j < |cursors| ==> cursors[j] == before[j]
        invariant forall j :: 0 <= j < i ==> minId <= cursors[j].GetCurEntryID()
        invariant minId < NULLENTRY ==> current < i && minId == cursors[current].GetCurEntryID()
        invariant minId <= NULLENTRY
      {
        var c := SkipCursor(cursors[i], id, past);
        cursors := cursors[i := c];
        if c.GetCurEntryID() < minId {
          minId, current := c.GetCurEntryID(), i;
        }
      }
      currentId := cursors[current].GetCurEntryID();
      SkipRestOf(before, cursors, id, past);
    }

    /** The current id is the least entry ahead, and the null entry exactly when there is none. */
    lemma CurrentIsMin()
      requires Valid()
      ensures ReachEnd() <==> Remaining() == {}
      ensures !ReachEnd() ==> currentId in Remaining()
      ensures forall e :: e in Remaining() ==> currentId <= e < NULLENTRY
    {
      forall i | 0 <= i < |cursors|
        ensures forall e :: e in Rest(cursors[i]) ==> currentId <= e < NULLENTRY
      {
        CurIsMin(cursors[i]);
      }
      CurIsMin(cursors[current]);
      if !ReachEnd() {
        assert currentId in Rest(cursors[current]);
      }
    }
  }
}
