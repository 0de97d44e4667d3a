/**
  Building and querying the index: CommonContainer, BooleanIndexer, BeIndexerBuilder and the
  cursor set-up of IndexScanner (components/boolean_indexer).
*/
module BooleanIndexer {
  import opened EntryIds
  import opened Cursors
  import opened ScanSpec
  import opened BooleanQuery
  import opened Numbers
  import opened Sequences
  import IndexScanner
  import Sorting

  /** Some sort of a posting list. */
  method SortIds(v: seq<nat>) returns (s: seq<nat>)
    ensures Sorted(s) && multiset(s) == multiset(v)
  {
    s := Sorting.Sort(v, map e | e in v :: e);
  }

  /** An expression of the conjunction posts e under this field and value. */
  ghost predicate ConjPosts(doc: Document, i: nat, n: nat, f: string, v: int, e: nat)
    requires Abs(doc.id) < P43 && i < |doc.conjs| && n <= |doc.conjs[i].exprs|
  {
    exists x :: 0 <= x < n && doc.conjs[i].exprs[x].field == f && v in doc.conjs[i].exprs[x].values
      && e == EntryOf(doc, i, x)
  }

  lemma CommonOne(x: Expr, f: string, v: int)
    ensures Common(x, Assign(f, [v])) <==> x.field == f && v in x.values
  {
    assert forall u :: u in [v] <==> u == v;
  }

  /** One of the first n conjunctions posts e under this field and value. */
  ghost predicate DocPosts(doc: Document, n: nat, f: string, v: int, e: nat)
    requires Abs(doc.id) < P43 && n <= |doc.conjs|
  {
    exists i :: 0 <= i < n && ConjPosts(doc, i, |doc.conjs[i].exprs|, f, v, e)
  }

  ghost predicate DocOnWildcard(doc: Document, n: nat, e: nat)
    requires Abs(doc.id) < P43 && n <= |doc.conjs|
  {
    exists i :: 0 <= i < n && Size(doc.conjs[i].exprs) == 0 && e == GenEntryID(ConjId(doc, i), false)
  }

  lemma PostedSnoc(docs: seq<Document>, doc: Document, f: string, v: int, e: nat)
    requires Abs(doc.id) < P43
    ensures Posted(docs + [doc], Assign(f, [v]), e) <==>
      Posted(docs, Assign(f, [v]), e) || DocPosts(doc, |doc.conjs|, f, v, e)
  {
    var more, a := docs + [doc], Assign(f, [v]);
    forall p ensures IsPlace(docs, p) ==> IsPlace(more, p) && ExprAt(more, p) == ExprAt(docs, p) {
    }
    if Posted(more, a, e) {
      var p :| IsPlace(more, p) && Common(ExprAt(more, p), a) && e == EntryOf(more[p.d], p.i, p.x);
      CommonOne(ExprAt(more, p), f, v);
      if p.d == |docs| {
        assert ConjPosts(doc, p.i, |doc.conjs[p.i].exprs|, f, v, e);
      } else {
        assert IsPlace(docs, p);
      }
    }
    if DocPosts(doc, |doc.conjs|, f, v, e) {
      var i :| 0 <= i < |doc.conjs| && ConjPosts(doc, i, |doc.conjs[i].exprs|, f, v, e);
      var x :| 0 <= x < |doc.conjs[i].exprs| && doc.conjs[i].exprs[x].field == f
        && v in doc.conjs[i].exprs[x].values && e == EntryOf(doc, i, x);
      CommonOne(doc.conjs[i].exprs[x], f, v);
      assert IsPlace(more, Place(|docs|, i, x));
      assert ExprAt(more, Place(|docs|, i, x)) == doc.conjs[i].exprs[x];
    }
  }

  lemma WildcardSnoc(docs: seq<Document>, doc: Document, e: nat)
    requires Abs(doc.id) < P43
    ensures OnWildcard(docs + [doc], e) <==> OnWildcard(docs, e) || DocOnWildcard(doc, |doc.conjs|, e)
  {
    var more := docs + [doc];
    forall d: nat, i: nat ensures IsConj(docs, d, i) ==> IsConj(more, d, i) && more[d] == docs[d] {
    }
    if i :| 0 <= i < |doc.conjs| && Size(doc.conjs[i].exprs) == 0 && e == GenEntryID(ConjId(doc, i), false) {
      assert IsConj(more, |docs|, i);
    }
    if OnWildcard(more, e) {
      var d: nat, i: nat :| IsConj(more, d, i) && Size(more[d].conjs[i].exprs) == 0
        && e == GenEntryID(ConjId(more[d], i), false);
      if d < |docs| { assert IsConj(docs, d, i); }
    }
  }

  class Indexer {
    var postings: map<(string, int), seq<nat>>
    var wildcard: seq<nat>
    /** History: the documents added so far. */
    ghost var docs: seq<Document>

    function Entries(f: string, v: int): seq<nat>
      reads this
    {
      if (f, v) in postings then postings[(f, v)] else []
    }

    /** The lists hold exactly the entries of the documents. */
    ghost predicate Faithful()
      reads this
    {
      && DocsOk(docs)
      && (forall f, v, e :: e in Entries(f, v) <==> Posted(docs, Assign(f, [v]), e))
      && (forall e :: e in wildcard <==> OnWildcard(docs, e))
    }

    /** Ready for scanning. */
    ghost predicate Complete()
      reads this
    {
      && Faithful() && Sorted(wildcard)
      && forall k :: k in postings ==> Sorted(postings[k])
    }

    constructor ()
      ensures Faithful() && docs == []
    {
      postings, wildcard, docs := map[], [], [];
    }

    method Post(field: string, value: int, eid: nat)
      modifies this`postings
      ensures Entries(field, value) == old(Entries(field, value)) + [eid]
      ensures forall f, v :: f != field || v != value ==> Entries(f, v) == old(Entries(f, v))
    {
      ghost var before := postings;
      postings := postings[(field, value) := Entries(field, value) + [eid]];
      forall f, v | f != field || v != value ensures Entries(f, v) == old(Entries(f, v)) {
        assert (f, v) != (field, value);
        assert (f, v) in postings <==> (f, v) in before;
      }
    }

    /** `CommonContainer::IndexingToken`. */
    method IndexingToken(field: string, eid: nat, values: seq<int>)
      modifies this
      ensures forall f, v, e :: e in Entries(f, v) <==>
        e in old(Entries(f, v)) || (f == field && v in values && e == eid)
      ensures wildcard == old(wildcard) && docs == old(docs)
    {
      for n := 0 to |values|
        invariant forall f, v, e :: e in Entries(f, v) <==>
          e in old(Entries(f, v)) || (f == field && v in values[..n] && e == eid)
        invariant wildcard == old(wildcard) && docs == old(docs)
      {
        assert values[..n + 1] == values[..n] + [values[n]];
        Post(field, values[n], eid);
      }
      assert values[..|values|] == values;
    }

    /** The builder's loop over the expressions of one conjunction. */
    method AddConjunction(doc: Document, i: nat)
      requires Abs(doc.id) < P43 && i < |doc.conjs|
      modifies this
      ensures forall f, v, e :: e in Entries(f, v) <==>
        e in old(Entries(f, v)) || ConjPosts(doc, i, |doc.conjs[i].exprs|, f, v, e)
      ensures forall e :: e in wildcard <==>
        e in old(wildcard) || (Size(doc.conjs[i].exprs) == 0 && e == GenEntryID(ConjId(doc, i), false))
      ensures docs == old(docs)
    {
      var exprs := doc.conjs[i].exprs;
      if Size(exprs) == 0 {
        wildcard := wildcard + [GenEntryID(ConjId(doc, i), false)];
      }
      ghost var w := wildcard;
      for n := 0 to |exprs|
        invariant forall f, v, e :: e in Entries(f, v) <==>
          e in old(Entries(f, v)) || ConjPosts(doc, i, n, f, v, e)
        invariant wildcard == w && docs == old(docs)
      {
        IndexingToken(exprs[n].field, EntryOf(doc, i, n), exprs[n].values);
        forall f, v, e
          ensures ConjPosts(doc, i, n + 1, f, v, e) <==>
            (ConjPosts(doc, i, n, f, v, e) || (exprs[n].field == f && v in exprs[n].values && e == EntryOf(doc, i, n)))
        {
        }
      }
    }

    /** `BeIndexerBuilder::AddDocument`. */
    method AddDocument(doc: Document)
      requires Faithful() && DocOk(doc)
      modifies this
      ensures Faithful() && docs == old(docs) + [doc]
    {
      for n := 0 to |doc.conjs|
        invariant forall f, v, e :: e in Entries(f, v) <==> e in old(Entries(f, v)) || DocPosts(doc, n, f, v, e)
        invariant forall e :: e in wildcard <==> e in old(wildcard) || DocOnWildcard(doc, n, e)
        invariant docs == old(docs)
      {
        AddConjunction(doc, n);
        forall f, v, e
          ensures DocPosts(doc, n + 1, f, v, e) <==>
            (DocPosts(doc, n, f, v, e) || ConjPosts(doc, n, |doc.conjs[n].exprs|, f, v, e))
        {
        }
      }
      docs := docs + [doc];
      forall f, v, e ensures e in Entries(f, v) <==> Posted(docs, Assign(f, [v]), e) {
        PostedSnoc(old(docs), doc, f, v, e);
      }
      forall e ensures e in wildcard <==> OnWildcard(docs, e) {
        WildcardSnoc(old(docs), doc, e);
      }
    }

    /** `CompleteIndex` and `CompileEntries`: sort every list. */
    method CompleteIndex()
      requires Faithful()
      modifies this
      ensures Complete() && docs == old(docs)
    {
      wildcard := SortIds(wildcard);
      SameElements(old(wildcard), wildcard);
      var todo := postings.Keys;
      while todo != {}
        invariant docs == old(docs) && Sorted(wildcard) && forall e :: e in wildcard <==> e in old(wildcard)
        invariant postings.Keys == old(postings.Keys) && todo <= postings.Keys
        invariant forall k :: k in postings && k !in todo ==> Sorted(postings[k])
        invariant forall k, e :: k in postings ==> (e in postings[k] <==> e in old(postings)[k])
        decreases |todo|
      {
        var k :| k in todo;
        var sorted := SortIds(postings[k]);
        SameElements(postings[k], sorted);
        postings := postings[k := sorted];
        todo := todo - {k};
      }
      assert forall f, v, e :: e in Entries(f, v) <==> e in old(Entries(f, v));
    }

    /** The list is posted under one of the queried values. */
    ghost predicate IsListOf(a: Assign, list: seq<nat>)
      reads this
    {
      exists n :: 0 <= n < |a.values| && (a.field, a.values[n]) in postings && list == postings[(a.field, a.values[n])]
    }

    /** `CommonContainer::RetrieveEntries`: the lists there are for the queried values. */
    method RetrieveEntries(a: Assign) returns (lists: seq<seq<nat>>)
      requires Complete()
      ensures forall i :: 0 <= i < |lists| ==> IsPosting(lists[i])
      ensures forall e :: InSome(lists, e) <==> Posted(docs, a, e)
    {
      lists := [];
      for n := 0 to |a.values|
        invariant forall i :: 0 <= i < |lists| ==> IsListOf(a, lists[i])
        invariant forall v :: v in a.values[..n] && (a.field, v) in postings ==> postings[(a.field, v)] in lists
      {
        var attr := (a.field, a.values[n]);
        assert a.values[..n + 1] == a.values[..n] + [a.values[n]];
        if attr in postings {
          assert IsListOf(a, postings[attr]);
          lists := lists + [postings[attr]];
        }
      }
      assert a.values[..|a.values|] == a.values;
      ListsArePosted(a, lists);
    }

    /** A cursor over some lists, unless there are none; `s` is what lies ahead of it. */
    static method MakeCursor(lists: seq<seq<nat>>, cursors: seq<FieldCursor>, ghost full: Fields, ghost kept: seq<nat>)
      returns (cursors': seq<FieldCursor>, ghost s: set<nat>, ghost kept': seq<nat>)
      requires forall i :: 0 <= i < |lists| ==> IsPosting(lists[i])
      requires NoRepeats(cursors) && IndexScanner.AllCursorsValid(cursors)
      requires IsKept(full, kept, IndexScanner.Ahead(cursors))
      ensures
        || cursors' == cursors
        || (|cursors'| == |cursors| + 1 && cursors'[..|cursors|] == cursors && fresh(cursors'[|cursors|]))
      ensures NoRepeats(cursors') && IndexScanner.AllCursorsValid(cursors')
      ensures forall e :: e in s <==> InSome(lists, e)
      ensures IsKept(full + [s], kept', IndexScanner.Ahead(cursors'))
    {
      if lists == [] {
        KeptSkip(full, kept, IndexScanner.Ahead(cursors));
        return cursors, {}, kept;
      }
      ghost var r := IndexScanner.Ahead(cursors);
      var cursor := new FieldCursor(lists);
      cursors', s, kept' := cursors + [cursor], cursor.Remaining(), kept + [|full|];
      KeptAdd(full, kept, r, s);
      assert IndexScanner.Ahead(cursors') == r + [s];
    }

    /** The sets are the posted entries of the assignments, in order. */
    static ghost predicate PostedSets(docs: seq<Document>, query: seq<Assign>, full: Fields) {
      |full| <= |query| && forall a, e :: 0 <= a < |full| ==> (e in full[a] <==> Posted(docs, query[a], e))
    }

    static lemma PostedSetsSnoc(docs: seq<Document>, query: seq<Assign>, full: Fields, s: set<nat>)
      requires PostedSets(docs, query, full) && |full| < |query|
      requires forall e :: e in s <==> Posted(docs, query[|full|], e)
      ensures PostedSets(docs, query, full + [s])
    {
    }

    method AddAssign(query: seq<Assign>, n: nat, cursors: seq<FieldCursor>, ghost full: Fields, ghost kept: seq<nat>)
      returns (cursors': seq<FieldCursor>, ghost full': Fields, ghost kept': seq<nat>)
      requires Complete() && |full| == n < |query| && PostedSets(docs, query, full)
      requires NoRepeats(cursors) && IndexScanner.AllCursorsValid(cursors)
      requires IsKept(full, kept, IndexScanner.Ahead(cursors))
      ensures
        || cursors' == cursors
        || (|cursors'| == |cursors| + 1 && cursors'[..|cursors|] == cursors && fresh(cursors'[|cursors|]))
      ensures NoRepeats(cursors') && IndexScanner.AllCursorsValid(cursors')
      ensures |full'| == |full| + 1 && PostedSets(docs, query, full')
      ensures IsKept(full', kept', IndexScanner.Ahead(cursors'))
    {
      var lists := RetrieveEntries(query[n]);
      ghost var s;
      cursors', s, kept' := MakeCursor(lists, cursors, full, kept);
      PostedSetsSnoc(docs, query, full, s);
      full' := full + [s];
    }

    /** One cursor per assignment with entries. */
    method AssignCursors(query: seq<Assign>)
      returns (cursors: seq<FieldCursor>, ghost full: Fields, ghost kept: seq<nat>)
      requires Complete()
      ensures fresh(cursors)
      ensures NoRepeats(cursors) && IndexScanner.AllCursorsValid(cursors)
      ensures |full| == |query| && PostedSets(docs, query, full)
      ensures IsKept(full, kept, IndexScanner.Ahead(cursors))
    {
      cursors, full, kept := [], [], [];
      for n := 0 to |query|
        invariant fresh(cursors) && NoRepeats(cursors) && IndexScanner.AllCursorsValid(cursors)
        invariant |full| == n && PostedSets(docs, query, full)
        invariant IsKept(full, kept, IndexScanner.Ahead(cursors))
      {
        cursors, full, kept := AddAssign(query, n, cursors, full, kept);
      }
    }

    /** `init_cursors`: one cursor per assignment with entries, and the wildcard cursor. */
    method InitCursors(query: seq<Assign>) returns (cursors: seq<FieldCursor>, ghost full: Fields, ghost kept: seq<nat>)
      requires Complete()
      ensures fresh(cursors)
      ensures NoRepeats(cursors) && IndexScanner.AllCursorsValid(cursors)
      ensures FieldsFor(docs, query, full) && IsKept(full, kept, IndexScanner.Ahead(cursors))
    {
      cursors, full, kept := AssignCursors(query);
      WildcardIsPosting();
      ghost var s: set<nat>;
      var lists := if wildcard == [] then [] else [wildcard];
      OneList(wildcard);
      cursors, s, kept := MakeCursor(lists, cursors, full, kept);
      full := full + [s];
    }

    lemma WildcardIsPosting()
      requires Complete()
      ensures IsPosting(wildcard)
    {
      forall j | 0 <= j < |wildcard| ensures wildcard[j] < NULLENTRY {
        assert wildcard[j] in wildcard;
        var d: nat, i: nat :| IsConj(docs, d, i) && Size(docs[d].conjs[i].exprs) == 0
          && wildcard[j] == GenEntryID(ConjId(docs[d], i), false);
        ConjIdIs(docs[d], i);
        EntryIDOrder(ConjId(docs[d], i), false);
      }
    }

    /**
      `IndexScanner::Retrieve` on a completed index: for the documents added, the answer lists
      exactly the documents that hold for the query.
    */
    method Retrieve(query: seq<Assign>, mode: Mode) returns (result: seq<int>)
      requires Complete()
      ensures Promised(docs, query, mode) ==> forall id :: id in result <==> DocHoldsWith(docs, query, id)
    {
      var cursors, full, kept := InitCursors(query);
      ghost var r := IndexScanner.Ahead(cursors);
      result := IndexScanner.Retrieve(cursors, mode);
      ghost var found :| Scan(r, found, mode) && result == IndexScanner.Docs(found);
      if Promised(docs, query, mode) {
        AnswerIsRight(docs, query, full, kept, r, found, mode);
        forall id ensures id in result <==> DocHoldsWith(docs, query, id) {
          InDocs(found, id);
        }
      }
    }

    lemma ListsArePosted(a: Assign, lists: seq<seq<nat>>)
      requires Complete()
      requires forall i :: 0 <= i < |lists| ==> IsListOf(a, lists[i])
      requires forall v :: v in a.values && (a.field, v) in postings ==> postings[(a.field, v)] in lists
      ensures forall i :: 0 <= i < |lists| ==> IsPosting(lists[i])
      ensures forall e :: InSome(lists, e) <==> Posted(docs, a, e)
    {
      forall i | 0 <= i < |lists|
        ensures IsPosting(lists[i]) && forall e :: e in lists[i] ==> Posted(docs, a, e)
      {
        assert IsListOf(a, lists[i]);
        var n :| 0 <= n < |a.values| && (a.field, a.values[n]) in postings
          && lists[i] == postings[(a.field, a.values[n])];
        var v := a.values[n];
        forall e | e in lists[i] ensures Posted(docs, a, e) && e < NULLENTRY {
          assert e in Entries(a.field, v);
          PostedAny(docs, a, e);
          PostedShort(docs, a, e);
        }
        assert forall j :: 0 <= j < |lists[i]| ==> lists[i][j] in lists[i];
      }
      forall e | Posted(docs, a, e) ensures InSome(lists, e) {
        PostedAny(docs, a, e);
        var v :| v in a.values && Posted(docs, Assign(a.field, [v]), e);
        assert e in Entries(a.field, v);
        assert postings[(a.field, v)] in lists;
      }
    }
  }

  lemma OneList(list: seq<nat>)
    ensures forall e :: e in list <==> InSome(if list == [] then [] else [list], e)
  {
    if list != [] { assert [list][0] == list; }
  }

  lemma PostedAny(docs: seq<Document>, a: Assign, e: nat)
    ensures Posted(docs, a, e) <==> exists v :: v in a.values && Posted(docs, Assign(a.field, [v]), e)
  {
    if p :| IsPlace(docs, p) && Common(ExprAt(docs, p), a) && e == EntryOf(docs[p.d], p.i, p.x) {
      var v :| v in ExprAt(docs, p).values && v in a.values;
      CommonOne(ExprAt(docs, p), a.field, v);
      assert Posted(docs, Assign(a.field, [v]), e);
    }
    if v :| v in a.values && Posted(docs, Assign(a.field, [v]), e) {
      var p :| IsPlace(docs, p) && Common(ExprAt(docs, p), Assign(a.field, [v])) && e == EntryOf(docs[p.d], p.i, p.x);
      CommonOne(ExprAt(docs, p), a.field, v);
      assert Common(ExprAt(docs, p), a);
    }
  }

  lemma PostedShort(docs: seq<Document>, a: Assign, e: nat)
    requires Posted(docs, a, e)
    ensures e < NULLENTRY
  {
    var p :| IsPlace(docs, p) && Common(ExprAt(docs, p), a) && e == EntryOf(docs[p.d], p.i, p.x);
    EntryOfIs(docs, p);
  }

  lemma KeptSkip(full: Fields, kept: seq<nat>, r: Fields)
    requires IsKept(full, kept, r)
    ensures IsKept(full + [{}], kept, r)
  {
  }

  lemma KeptAdd(full: Fields, kept: seq<nat>, r: Fields, s: set<nat>)
    requires IsKept(full, kept, r)
    ensures IsKept(full + [s], kept + [|full|], r + [s])
  {
    var kept' := kept + [|full|];
    forall a | 0 <= a <= |full| && (full + [s])[a] != {} ensures a in kept' {
      if a < |full| {
        assert a in kept;
      } else {
        assert kept'[|kept|] == a;
      }
    }
  }

  lemma InDocs(found: seq<nat>, id: int)
    ensures id in IndexScanner.Docs(found) <==> exists c :: c in found && GetDocumentID(c) == id
  {
    var ids := IndexScanner.Docs(found);
    if id in ids {
      var j :| 0 <= j < |ids| && ids[j] == id;
      assert found[j] in found && GetDocumentID(found[j]) == id;
    }
    if c :| c in found && GetDocumentID(c) == id {
      var j :| 0 <= j < |found| && found[j] == c;
      assert ids[j] == id;
    }
  }

  lemma SameElements(a: seq<nat>, b: seq<nat>)
    requires multiset(a) == multiset(b)
    ensures forall e :: e in a <==> e in b
  {
    forall e ensures e in a <==> e in b {
      assert e in multiset(a) <==> e in multiset(b);
    }
  }
}
