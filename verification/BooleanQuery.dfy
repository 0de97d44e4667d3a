/**
  What the boolean index means: documents as disjunctions of conjunctions of include and exclude
  expressions (components/boolean_indexer/document.h), the entries the builder posts for them
  (builder/be_indexer_builder.cc), and when a scan over those entries answers a query. Values are
  the parser's 64-bit tokens.
*/
module BooleanQuery {
  import opened EntryIds
  import opened Numbers
  import opened ScanSpec

  datatype Expr = Expr(field: string, values: seq<int>, exclude: bool)

  /** One expression per field, as `AddExpression` insists. */
  datatype Conjunction = Conjunction(exprs: seq<Expr>)

  datatype Document = Document(id: int, conjs: seq<Conjunction>)

  datatype Assign = Assign(field: string, values: seq<int>)

  /** The number of include expressions. */
  function Size(exprs: seq<Expr>): nat {
    if exprs == [] then 0 else (if exprs[0].exclude then 0 else 1) + Size(exprs[1..])
  }

  // ---------------------------------------------------------------------------
  // What a query asks for
  // ---------------------------------------------------------------------------

  predicate Common(x: Expr, a: Assign) {
    x.field == a.field && exists v :: v in x.values && v in a.values
  }

  predicate Hit(x: Expr, query: seq<Assign>) {
    exists a :: 0 <= a < |query| && Common(x, query[a])
  }

  /** Every include expression is hit by the query, and no exclude expression is. */
  predicate Holds(conj: Conjunction, query: seq<Assign>) {
    forall i :: 0 <= i < |conj.exprs| ==> (Hit(conj.exprs[i], query) <==> !conj.exprs[i].exclude)
  }

  predicate DocHolds(doc: Document, query: seq<Assign>) {
    exists i :: 0 <= i < |doc.conjs| && Holds(doc.conjs[i], query)
  }

  // ---------------------------------------------------------------------------
  // What the builder posts
  // ---------------------------------------------------------------------------

  predicate ConjOk(conj: Conjunction) {
    forall i, j :: 0 <= i < j < |conj.exprs| ==> conj.exprs[i].field != conj.exprs[j].field
  }

  /** What the source insists on: an id of 32 bits, of which more than 43 would not fit, and a field once. */
  predicate DocOk(doc: Document) { Abs(doc.id) < P43 && forall i :: 0 <= i < |doc.conjs| ==> ConjOk(doc.conjs[i]) }

  predicate DocsOk(docs: seq<Document>) { forall d :: 0 <= d < |docs| ==> DocOk(docs[d]) }

  /** `Document::AddConjunction`: index and size are cut to eight bits. */
  function ConjId(doc: Document, i: nat): nat
    requires Abs(doc.id) < P43 && i < |doc.conjs|
  {
    GenConjID(doc.id, i % 256, Size(doc.conjs[i].exprs) % 256)
  }

  function EntryOf(doc: Document, i: nat, x: nat): nat
    requires Abs(doc.id) < P43 && i < |doc.conjs| && x < |doc.conjs[i].exprs|
  {
    GenEntryID(ConjId(doc, i), doc.conjs[i].exprs[x].exclude)
  }

  /** Where an expression is: document, conjunction, expression. */
  datatype Place = Place(d: nat, i: nat, x: nat)

  predicate IsConj(docs: seq<Document>, d: nat, i: nat) {
    d < |docs| && Abs(docs[d].id) < P43 && i < |docs[d].conjs|
  }

  predicate IsPlace(docs: seq<Document>, p: Place) {
    IsConj(docs, p.d, p.i) && p.x < |docs[p.d].conjs[p.i].exprs|
  }

  function ExprAt(docs: seq<Document>, p: Place): Expr
    requires IsPlace(docs, p)
  {
    docs[p.d].conjs[p.i].exprs[p.x]
  }

  /** No two conjunctions have the same id; `ConjIdSameIff` says which have. */
  ghost predicate IdsApart(docs: seq<Document>) {
    forall d: nat, i: nat, d': nat, i': nat :: IsConj(docs, d, i) && IsConj(docs, d', i') ==>
      (ConjId(docs[d], i) == ConjId(docs[d'], i') ==> d == d' && i == i')
  }

  /** No conjunction has more than n include expressions. */
  predicate IncludesAtMost(docs: seq<Document>, n: nat) {
    forall d, i :: 0 <= d < |docs| && 0 <= i < |docs[d].conjs| ==> Size(docs[d].conjs[i].exprs) <= n
  }

  /** The entry e is posted under the field and one of the values of an assignment. */
  ghost predicate Posted(docs: seq<Document>, a: Assign, e: nat) {
    exists p :: IsPlace(docs, p) && Common(ExprAt(docs, p), a) && e == EntryOf(docs[p.d], p.i, p.x)
  }

  /** Conjunctions without an include expression are posted on the wildcard list. */
  ghost predicate OnWildcard(docs: seq<Document>, e: nat) {
    exists d: nat, i: nat :: IsConj(docs, d, i) && Size(docs[d].conjs[i].exprs) == 0
      && e == GenEntryID(ConjId(docs[d], i), false)
  }

  /** The entries of each queried field, and of the wildcard list last. */
  ghost predicate FieldsFor(docs: seq<Document>, query: seq<Assign>, r: Fields) {
    && |r| == |query| + 1
    && (forall a, e :: 0 <= a < |query| ==> (e in r[a] <==> Posted(docs, query[a], e)))
    && (forall e :: e in r[|query|] <==> OnWildcard(docs, e))
  }

  // ---------------------------------------------------------------------------
  // A scan over these entries answers the query
  // ---------------------------------------------------------------------------

  lemma ConjIdIs(doc: Document, i: nat)
    requires Abs(doc.id) < P43 && i < |doc.conjs|
    ensures ConjId(doc, i) < P60 && GetDocumentID(ConjId(doc, i)) == doc.id
    ensures GetConjunctionSize(ConjId(doc, i)) == Size(doc.conjs[i].exprs) % 256
  {
    var n := Size(doc.conjs[i].exprs) % 256;
    GenConjIDAdds(doc.id, i % 256, n);
    ConjIDRoundTrip(doc.id, i % 256, n);
  }

  /** Two conjunctions share an id if and only if document id, index and size agree, the last two by their low byte. */
  lemma ConjIdSameIff(doc: Document, i: nat, doc': Document, i': nat)
    requires Abs(doc.id) < P43 && i < |doc.conjs| && Abs(doc'.id) < P43 && i' < |doc'.conjs|
    ensures ConjId(doc, i) == ConjId(doc', i') <==>
      doc.id == doc'.id && i % 256 == i' % 256 && Size(doc.conjs[i].exprs) % 256 == Size(doc'.conjs[i'].exprs) % 256
  {
    ConjIDOrder(doc.id, i % 256, Size(doc.conjs[i].exprs) % 256, doc'.id, i' % 256, Size(doc'.conjs[i'].exprs) % 256);
  }

  lemma EntryOfIs(docs: seq<Document>, p: Place)
    requires IsPlace(docs, p)
    ensures EntryOf(docs[p.d], p.i, p.x) ==
      if ExprAt(docs, p).exclude then Exc(ConjId(docs[p.d], p.i)) else Inc(ConjId(docs[p.d], p.i))
    ensures EntryOf(docs[p.d], p.i, p.x) < NULLENTRY
  {
    ConjIdIs(docs[p.d], p.i);
    EntryIDOrder(ConjId(docs[p.d], p.i), ExprAt(docs, p).exclude);
  }

  /** An entry of a conjunction is posted exactly by that conjunction's expressions. */
  lemma PostedBy(docs: seq<Document>, d: nat, i: nat, a: Assign, exclude: bool)
    requires IdsApart(docs) && IsConj(docs, d, i)
    ensures var c, exprs := ConjId(docs[d], i), docs[d].conjs[i].exprs;
      Posted(docs, a, if exclude then Exc(c) else Inc(c)) <==>
      exists x :: 0 <= x < |exprs| && exprs[x].exclude == exclude && Common(exprs[x], a)
  {
    var c, exprs := ConjId(docs[d], i), docs[d].conjs[i].exprs;
    var e := if exclude then Exc(c) else Inc(c);
    if x :| 0 <= x < |exprs| && exprs[x].exclude == exclude && Common(exprs[x], a) {
      EntryOfIs(docs, Place(d, i, x));
      assert Common(ExprAt(docs, Place(d, i, x)), a);
    }
    if Posted(docs, a, e) {
      var p :| IsPlace(docs, p) && Common(ExprAt(docs, p), a) && e == EntryOf(docs[p.d], p.i, p.x);
      EntryOfIs(docs, p);
      ConjOfEntry(c);
      ConjOfEntry(ConjId(docs[p.d], p.i));
      assert IsConj(docs, p.d, p.i);
    }
  }

  lemma WildcardBy(docs: seq<Document>, d: nat, i: nat)
    requires IdsApart(docs) && IsConj(docs, d, i)
    ensures OnWildcard(docs, Inc(ConjId(docs[d], i))) <==> Size(docs[d].conjs[i].exprs) == 0
    ensures !OnWildcard(docs, Exc(ConjId(docs[d], i)))
  {
    var c := ConjId(docs[d], i);
    ConjIdIs(docs[d], i);
    EntryIDOrder(c, false);
    ConjOfEntry(c);
    forall d': nat, i': nat | IsConj(docs, d', i')
      ensures var e := GenEntryID(ConjId(docs[d'], i'), false);
        e != Exc(c) && (e == Inc(c) ==> d' == d && i' == i)
    {
      ConjIdIs(docs[d'], i');
      EntryIDOrder(ConjId(docs[d'], i'), false);
      ConjOfEntry(ConjId(docs[d'], i'));
    }
  }

  /** Every entry of every field is an entry of some conjunction. */
  lemma EntryBelongs(docs: seq<Document>, query: seq<Assign>, r: Fields, a: nat, e: nat) returns (d: nat, i: nat)
    requires FieldsFor(docs, query, r) && a < |r| && e in r[a]
    ensures IsConj(docs, d, i) && (e == Inc(ConjId(docs[d], i)) || e == Exc(ConjId(docs[d], i))) && e < NULLENTRY
  {
    if a < |query| {
      assert Posted(docs, query[a], e);
      var p :| IsPlace(docs, p) && Common(ExprAt(docs, p), query[a]) && e == EntryOf(docs[p.d], p.i, p.x);
      EntryOfIs(docs, p);
      d, i := p.d, p.i;
    } else {
      d, i :| IsConj(docs, d, i) && Size(docs[d].conjs[i].exprs) == 0 && e == GenEntryID(ConjId(docs[d], i), false);
      ConjIdIs(docs[d], i);
      EntryIDOrder(ConjId(docs[d], i), false);
    }
  }

  lemma EntryShape(c: nat)
    ensures Inc(c) % P4 == 1 && Exc(c) % P4 == 0
  {
  }

  lemma FieldsAreWellFormed(docs: seq<Document>, query: seq<Assign>, r: Fields)
    requires FieldsFor(docs, query, r)
    ensures WellFormed(r)
  {
    forall a, e | 0 <= a < |r| && e in r[a] ensures e % P4 <= 1 && e < NULLENTRY {
      var d, i := EntryBelongs(docs, query, r, a, e);
      EntryShape(ConjId(docs[d], i));
    }
  }

  lemma HitBelongs(docs: seq<Document>, query: seq<Assign>, r: Fields, c: nat) returns (d: nat, i: nat)
    requires FieldsFor(docs, query, r) && HitFields(r, c) != {}
    ensures IsConj(docs, d, i) && c == ConjId(docs[d], i)
  {
    var a :| a in HitFields(r, c);
    d, i := EntryBelongs(docs, query, r, a, Inc(c));
    ConjOfEntry(c);
    ConjOfEntry(ConjId(docs[d], i));
  }

  lemma FieldsAreSeparated(docs: seq<Document>, query: seq<Assign>, r: Fields)
    requires DocsOk(docs) && IdsApart(docs) && FieldsFor(docs, query, r)
    ensures Separated(r)
  {
    forall a, c: nat | 0 <= a < |r| && Inc(c) in r[a] ensures Exc(c) !in r[a] {
      assert a in HitFields(r, c);
      var d, i := HitBelongs(docs, query, r, c);
      WildcardBy(docs, d, i);
      if a < |query| {
        PostedBy(docs, d, i, query[a], true);
        PostedBy(docs, d, i, query[a], false);
        assert DocOk(docs[d]) && ConjOk(docs[d].conjs[i]);
      }
    }
  }

  /** The include expressions, by position. */
  function Includes(exprs: seq<Expr>): set<nat> {
    set x: nat | x < |exprs| && !exprs[x].exclude
  }

  lemma {:induction false} IncludesCount(exprs: seq<Expr>)
    ensures |Includes(exprs)| == Size(exprs)
  {
    if exprs != [] {
      var init, last := exprs[..|exprs| - 1], exprs[|exprs| - 1];
      IncludesCount(init);
      SizeSnoc(init, last);
      assert exprs == init + [last];
      assert Includes(exprs) == Includes(init) + (if last.exclude then {} else {|exprs| - 1});
    }
  }

  lemma {:induction false} SizeSnoc(exprs: seq<Expr>, x: Expr)
    ensures Size(exprs + [x]) == Size(exprs) + if x.exclude then 0 else 1
  {
    if exprs != [] {
      assert (exprs + [x])[1..] == exprs[1..] + [x];
      SizeSnoc(exprs[1..], x);
    } else {
      assert exprs + [x] == [x];
    }
  }

  lemma {:induction false} InjectionCount(s: set<nat>, t: set<nat>, f: map<nat, nat>)
    requires forall x :: x in s ==> x in f && f[x] in t
    requires forall x, y :: x in s && y in s && f[x] == f[y] ==> x == y
    ensures |s| <= |t|
    decreases |s|
  {
    if s != {} {
      var x :| x in s;
      InjectionCount(s - {x}, t - {f[x]}, f);
    }
  }

  /** The query does not assign a field twice. */
  predicate FieldsOnce(query: seq<Assign>) {
    forall a, b :: 0 <= a < b < |query| ==> query[a].field != query[b].field
  }

  /** Field a of the query hits an include expression of the conjunction. */
  predicate HitsAt(exprs: seq<Expr>, query: seq<Assign>, a: nat, x: nat) {
    a < |query| && x < |exprs| && !exprs[x].exclude && Common(exprs[x], query[a])
  }

  lemma HitFieldsAre(docs: seq<Document>, query: seq<Assign>, r: Fields, d: nat, i: nat, a: nat)
    requires IdsApart(docs) && FieldsFor(docs, query, r) && IsConj(docs, d, i)
    ensures var exprs := docs[d].conjs[i].exprs;
      a in HitFields(r, ConjId(docs[d], i)) <==>
      if a == |query| then Size(exprs) == 0 else exists x: nat :: HitsAt(exprs, query, a, x)
  {
    var exprs := docs[d].conjs[i].exprs;
    WildcardBy(docs, d, i);
    if a < |query| {
      PostedBy(docs, d, i, query[a], false);
      if x: nat :| HitsAt(exprs, query, a, x) {
        assert exprs[x].exclude == false && Common(exprs[x], query[a]);
      }
      if x: nat :| x < |exprs| && exprs[x].exclude == false && Common(exprs[x], query[a]) {
        assert HitsAt(exprs, query, a, x);
      }
    }
  }

  predicate SomeExcludeHit(exprs: seq<Expr>, query: seq<Assign>) {
    exists x :: 0 <= x < |exprs| && exprs[x].exclude && Hit(exprs[x], query)
  }

  lemma ExcludedIs(docs: seq<Document>, query: seq<Assign>, r: Fields, d: nat, i: nat)
    requires IdsApart(docs) && FieldsFor(docs, query, r) && IsConj(docs, d, i)
    ensures var exprs := docs[d].conjs[i].exprs;
      Excluded(r, ConjId(docs[d], i)) <==> SomeExcludeHit(exprs, query)
  {
    var exprs, c := docs[d].conjs[i].exprs, ConjId(docs[d], i);
    WildcardBy(docs, d, i);
    if Excluded(r, c) {
      var a :| 0 <= a < |r| && Exc(c) in r[a];
      PostedBy(docs, d, i, query[a], true);
      var x :| 0 <= x < |exprs| && exprs[x].exclude == true && Common(exprs[x], query[a]);
      assert Hit(exprs[x], query);
    }
    if x :| 0 <= x < |exprs| && exprs[x].exclude && Hit(exprs[x], query) {
      var a :| 0 <= a < |query| && Common(exprs[x], query[a]);
      PostedBy(docs, d, i, query[a], true);
      assert exprs[x].exclude == true;
      assert Exc(c) in r[a];
    }
  }

  predicate AllIncludesHit(exprs: seq<Expr>, query: seq<Assign>) {
    forall x :: 0 <= x < |exprs| && !exprs[x].exclude ==> Hit(exprs[x], query)
  }

  lemma AllHitsSuffice(exprs: seq<Expr>, query: seq<Assign>, hits: set<nat>)
    requires forall x, y :: 0 <= x < y < |exprs| ==> exprs[x].field != exprs[y].field
    requires forall a: nat :: (exists x: nat :: HitsAt(exprs, query, a, x)) ==> a in hits
    requires AllIncludesHit(exprs, query)
    ensures Size(exprs) <= |hits|
  {
    IncludesCount(exprs);
    var f := map x: nat | x in Includes(exprs) :: (var a: nat :| a < |query| && Common(exprs[x], query[a]); a);
    forall x: nat | x in Includes(exprs) ensures f[x] in hits && Common(exprs[x], query[f[x]]) {
      assert HitsAt(exprs, query, f[x], x);
    }
    InjectionCount(Includes(exprs), hits, f);
  }

  lemma MissLeavesFewer(exprs: seq<Expr>, query: seq<Assign>, hits: set<nat>)
    requires forall a: nat :: a in hits ==> exists x: nat :: HitsAt(exprs, query, a, x)
    requires FieldsOnce(query) || Size(exprs) <= 1
    requires !AllIncludesHit(exprs, query)
    ensures |hits| < Size(exprs)
  {
    IncludesCount(exprs);
    var y: nat :| y < |exprs| && !exprs[y].exclude && !Hit(exprs[y], query);
    assert y in Includes(exprs);
    var others := Includes(exprs) - {y};
    forall a: nat, x: nat | HitsAt(exprs, query, a, x) ensures x in others {
      assert Hit(exprs[x], query);
    }
    if hits != {} {
      var a :| a in hits;
      var x: nat :| HitsAt(exprs, query, a, x);
      assert others != {};
    }
    if others != {} {
      OthersCount(exprs, query, hits, others);
    }
  }

  lemma OthersCount(exprs: seq<Expr>, query: seq<Assign>, hits: set<nat>, others: set<nat>)
    requires forall a: nat :: a in hits ==> exists x: nat :: HitsAt(exprs, query, a, x)
    requires forall a: nat, x: nat :: HitsAt(exprs, query, a, x) ==> x in others
    requires FieldsOnce(query)
    ensures |hits| <= |others|
  {
    var f := map a: nat | a in hits :: (var x: nat :| HitsAt(exprs, query, a, x); x);
    forall a, b | a in hits && b in hits && f[a] == f[b] ensures a == b {
      assert HitsAt(exprs, query, a, f[a]) && HitsAt(exprs, query, b, f[b]);
    }
    InjectionCount(hits, others, f);
  }

  /** How many hits the scan asks for: the number of includes as far as its byte goes, but one at least. */
  function MinHits(n: nat): (m: nat)
    ensures 0 < m < 256 && (0 < n ==> m <= n) && (0 < n < 256 ==> m == n)
  {
    if n % 256 == 0 then 1 else n % 256
  }

  /** The assignments that hit an include. */
  ghost function Hitting(exprs: seq<Expr>, query: seq<Assign>): set<nat> {
    set a: nat | a < |query| && HitAt(exprs, query, a)
  }

  /** An include is missed, no exclude is hit, and yet there are hits enough. */
  ghost predicate Overcounted(exprs: seq<Expr>, query: seq<Assign>) {
    && !AllIncludesHit(exprs, query) && !SomeExcludeHit(exprs, query)
    && |Hitting(exprs, query)| >= MinHits(Size(exprs))
  }

  /**
    A conjunction that holds is satisfied in the scan's sense, and one that does not is not, except
    where hits are overcounted; `OvercountedIff` says which conjunctions that can happen to.
  */
  lemma MatchIsHolds(docs: seq<Document>, query: seq<Assign>, r: Fields, d: nat, i: nat)
    requires DocsOk(docs) && IdsApart(docs) && FieldsFor(docs, query, r) && IsConj(docs, d, i)
    ensures Holds(docs[d].conjs[i], query) ==> Match(r, ConjId(docs[d], i))
    ensures (Match(r, ConjId(docs[d], i)) <==> Holds(docs[d].conjs[i], query)) <==>
      !Overcounted(docs[d].conjs[i].exprs, query)
  {
    var exprs, hits := docs[d].conjs[i].exprs, HitFields(r, ConjId(docs[d], i));
    ConjIdIs(docs[d], i);
    ExcludedIs(docs, query, r, d, i);
    HoldsIs(docs[d].conjs[i], query);
    assert DocOk(docs[d]) && ConjOk(docs[d].conjs[i]);
    HitsAre(docs, query, r, d, i);
    HitsOrOvercounts(exprs, query, hits);
  }

  lemma HitsOrOvercounts(exprs: seq<Expr>, query: seq<Assign>, hits: set<nat>)
    requires AreHits(exprs, query, hits) && ConjOk(Conjunction(exprs))
    ensures AllIncludesHit(exprs, query) ==> |hits| >= MinHits(Size(exprs))
    ensures !AllIncludesHit(exprs, query) ==> hits == Hitting(exprs, query)
  {
    if Size(exprs) == 0 {
      NoIncludes(exprs, query);
      assert HitAt(exprs, query, |query|);
      assert |query| in hits;
    } else if AllIncludesHit(exprs, query) {
      forall a: nat | exists x: nat :: HitsAt(exprs, query, a, x) ensures a in hits { assert HitAt(exprs, query, a); }
      AllHitsSuffice(exprs, query, hits);
    }
  }

  /** With one include at most nothing is overcounted, nor with up to 255 where a query names a field once. */
  lemma NeverOvercounted(exprs: seq<Expr>, query: seq<Assign>)
    requires Size(exprs) <= 1 || (FieldsOnce(query) && Size(exprs) < 256)
    ensures !Overcounted(exprs, query)
  {
    if !AllIncludesHit(exprs, query) {
      var hits := Hitting(exprs, query);
      forall a: nat | a in hits ensures exists x: nat :: HitsAt(exprs, query, a, x) { assert HitAt(exprs, query, a); }
      MissLeavesFewer(exprs, query, hits);
    }
  }

  predicate IsValued(x: Expr) { !x.exclude && x.values != [] }

  /** The includes that some query hits, by position. */
  function Valued(exprs: seq<Expr>): set<nat> { set x: nat | x < |exprs| && IsValued(exprs[x]) }

  /** An assignment that hits this include. */
  function Asking(x: Expr): Assign
    requires IsValued(x)
  {
    Assign(x.field, [x.values[0]])
  }

  lemma AskingIsCommon(x: Expr)
    requires IsValued(x)
    ensures Common(x, Asking(x))
  {
    var v, a := x.values[0], Asking(x);
    assert a.values[0] == v;
    assert v in x.values && v in a.values;
  }

  predicate AreValued(exprs: seq<Expr>, xs: seq<nat>) {
    forall i :: 0 <= i < |xs| ==> xs[i] < |exprs| && IsValued(exprs[xs[i]])
  }

  /** A query for the includes at these positions, which may repeat. */
  function AskingFor(exprs: seq<Expr>, xs: seq<nat>): seq<Assign>
    requires AreValued(exprs, xs)
  {
    seq(|xs|, i requires 0 <= i < |xs| => Asking(exprs[xs[i]]))
  }

  lemma AskingIsApart(exprs: seq<Expr>, xs: seq<nat>, x: nat, i: nat)
    requires ConjOk(Conjunction(exprs)) && AreValued(exprs, xs) && x < |exprs| && i < |xs|
    requires Common(exprs[x], AskingFor(exprs, xs)[i])
    ensures x == xs[i]
  {
    assert exprs[x].field == exprs[xs[i]].field;
  }

  lemma AskingHitsAll(exprs: seq<Expr>, xs: seq<nat>)
    requires AreValued(exprs, xs)
    ensures |Hitting(exprs, AskingFor(exprs, xs))| == |xs|
  {
    var query := AskingFor(exprs, xs);
    forall a: nat | a < |query| ensures HitAt(exprs, query, a) {
      AskingIsCommon(exprs[xs[a]]);
      assert HitsAt(exprs, query, a, xs[a]);
    }
    assert Hitting(exprs, query) == Below(|query|);
  }

  /** It hits these, each time, and nothing else. */
  lemma AskingHits(exprs: seq<Expr>, xs: seq<nat>)
    requires ConjOk(Conjunction(exprs)) && AreValued(exprs, xs)
    ensures !SomeExcludeHit(exprs, AskingFor(exprs, xs)) && |Hitting(exprs, AskingFor(exprs, xs))| == |xs|
    ensures forall x :: 0 <= x < |exprs| && Hit(exprs[x], AskingFor(exprs, xs)) ==> x in xs
  {
    var query := AskingFor(exprs, xs);
    AskingHitsAll(exprs, xs);
    forall x: nat | x < |exprs| && Hit(exprs[x], query) ensures x in xs && IsValued(exprs[x]) {
      var i :| 0 <= i < |query| && Common(exprs[x], query[i]);
      AskingIsApart(exprs, xs, x, i);
    }
  }

  function Below(n: nat): (s: set<nat>)
    ensures |s| == n && forall a: nat :: a in s <==> a < n
  {
    if n == 0 then {} else Below(n - 1) + {n - 1}
  }

  /** Some of the elements of a set, without repeats. */
  lemma {:induction false} Pick(s: set<nat>, k: nat) returns (xs: seq<nat>)
    requires k <= |s|
    ensures |xs| == k && (forall i :: 0 <= i < k ==> xs[i] in s)
    ensures forall i, j :: 0 <= i < j < k ==> xs[i] != xs[j]
    decreases k
  {
    if k == 0 {
      xs := [];
    } else {
      var x :| x in s;
      xs := Pick(s - {x}, k - 1);
      xs := xs + [x];
    }
  }

  /** Fewer positions than includes leave an include out. */
  lemma {:induction false} LeavesOne(s: set<nat>, xs: seq<nat>) returns (x: nat)
    requires |xs| < |s|
    ensures x in s && x !in xs
    decreases |xs|
  {
    if xs == [] {
      x :| x in s;
    } else {
      x := LeavesOne(s - {xs[0]}, xs[1..]);
      assert xs == [xs[0]] + xs[1..];
    }
  }

  /** Positions enough for the scan, but not all includes. */
  lemma AskingOvercounts(exprs: seq<Expr>, xs: seq<nat>, y: nat)
    requires ConjOk(Conjunction(exprs)) && AreValued(exprs, xs) && |xs| >= MinHits(Size(exprs))
    requires y in Includes(exprs) && y !in xs
    ensures Overcounted(exprs, AskingFor(exprs, xs))
  {
    AskingHits(exprs, xs);
  }

  lemma RepeatsOvercount(exprs: seq<Expr>, x: nat) returns (query: seq<Assign>)
    requires ConjOk(Conjunction(exprs)) && x in Valued(exprs) && Size(exprs) >= 2
    ensures Overcounted(exprs, query)
  {
    var xs: seq<nat> := seq(Size(exprs), _ => x);
    IncludesCount(exprs);
    var y := LeavesOne(Includes(exprs), [x]);
    AskingOvercounts(exprs, xs, y);
    query := AskingFor(exprs, xs);
  }

  lemma NamesOvercount(exprs: seq<Expr>) returns (query: seq<Assign>)
    requires ConjOk(Conjunction(exprs)) && Size(exprs) >= 256 && |Valued(exprs)| >= MinHits(Size(exprs))
    ensures FieldsOnce(query) && Overcounted(exprs, query)
  {
    var xs := Pick(Valued(exprs), MinHits(Size(exprs)));
    IncludesCount(exprs);
    var y := LeavesOne(Includes(exprs), xs);
    AskingOvercounts(exprs, xs, y);
    query := AskingFor(exprs, xs);
  }

  lemma HittingIsValued(exprs: seq<Expr>, query: seq<Assign>)
    requires Overcounted(exprs, query)
    ensures Valued(exprs) != {}
    ensures FieldsOnce(query) ==> |Hitting(exprs, query)| <= |Valued(exprs)|
  {
    var hits := Hitting(exprs, query);
    forall a: nat | a in hits ensures exists x: nat :: HitsAt(exprs, query, a, x) { assert HitAt(exprs, query, a); }
    assert hits != {};
    var a :| a in hits;
    var x: nat :| HitsAt(exprs, query, a, x);
    assert x in Valued(exprs);
    if FieldsOnce(query) { OthersCount(exprs, query, hits, Valued(exprs)); }
  }

  /**
    Exactly which conjunctions some query makes the scan overcount: those of two includes or more one
    of which can be hit; and where queries name a field once, those of more includes than a byte
    holds, if enough of them can be hit to make up its remainder.
  */
  lemma OvercountedIff(exprs: seq<Expr>)
    requires ConjOk(Conjunction(exprs))
    ensures (exists query :: Overcounted(exprs, query)) <==> Size(exprs) >= 2 && Valued(exprs) != {}
    ensures (exists query :: FieldsOnce(query) && Overcounted(exprs, query)) <==>
      Size(exprs) >= 256 && |Valued(exprs)| >= MinHits(Size(exprs))
  {
    forall query | Overcounted(exprs, query)
      ensures Size(exprs) >= 2 && Valued(exprs) != {}
      ensures FieldsOnce(query) ==> Size(exprs) >= 256 && |Valued(exprs)| >= MinHits(Size(exprs))
    {
      if Size(exprs) <= 1 || (FieldsOnce(query) && Size(exprs) < 256) { NeverOvercounted(exprs, query); }
      HittingIsValued(exprs, query);
    }
    if Size(exprs) >= 2 && Valued(exprs) != {} {
      var x :| x in Valued(exprs);
      var query := RepeatsOvercount(exprs, x);
    }
    if Size(exprs) >= 256 && |Valued(exprs)| >= MinHits(Size(exprs)) {
      var query := NamesOvercount(exprs);
    }
  }

  lemma ByteOf(n: nat)
    requires n < 256
    ensures n % 256 == n
  {
  }

  lemma HitsAre(docs: seq<Document>, query: seq<Assign>, r: Fields, d: nat, i: nat)
    requires IdsApart(docs) && FieldsFor(docs, query, r) && IsConj(docs, d, i)
    ensures AreHits(docs[d].conjs[i].exprs, query, HitFields(r, ConjId(docs[d], i)))
  {
    var exprs, hits := docs[d].conjs[i].exprs, HitFields(r, ConjId(docs[d], i));
    forall a: nat ensures a in hits <==> HitAt(exprs, query, a) { HitFieldsAre(docs, query, r, d, i, a); }
  }

  /** A field that hits the conjunction; for want of an include that is the wildcard list, behind the others. */
  ghost predicate HitAt(exprs: seq<Expr>, query: seq<Assign>, a: nat) {
    if a == |query| then Size(exprs) == 0 else exists x: nat :: HitsAt(exprs, query, a, x)
  }

  ghost predicate AreHits(exprs: seq<Expr>, query: seq<Assign>, hits: set<nat>) {
    forall a: nat :: a in hits <==> HitAt(exprs, query, a)
  }

  lemma HoldsIs(conj: Conjunction, query: seq<Assign>)
    ensures Holds(conj, query) <==>
      AllIncludesHit(conj.exprs, query) && !SomeExcludeHit(conj.exprs, query)
  {
  }

  lemma NoIncludes(exprs: seq<Expr>, query: seq<Assign>)
    requires Size(exprs) == 0
    ensures AllIncludesHit(exprs, query)
  {
    IncludesCount(exprs);
    forall x: nat | x < |exprs| ensures exprs[x].exclude {
      assert x !in Includes(exprs);
    }
  }

  /** The fields that have a cursor: those with no entries have none. */
  ghost predicate IsKept(full: Fields, kept: seq<nat>, r: Fields) {
    && |kept| == |r|
    && (forall j :: 0 <= j < |kept| ==> kept[j] < |full| && r[j] == full[kept[j]])
    && (forall j, k :: 0 <= j < k < |kept| ==> kept[j] != kept[k])
    && (forall a :: 0 <= a < |full| && full[a] != {} ==> a in kept)
  }

  lemma KeptMatch(full: Fields, kept: seq<nat>, r: Fields, c: nat)
    requires IsKept(full, kept, r)
    ensures Match(full, c) <==> Match(r, c)
  {
    var there := map j: nat | j < |kept| :: kept[j];
    forall j: nat | j in HitFields(r, c) ensures there[j] in HitFields(full, c) {
    }
    InjectionCount(HitFields(r, c), HitFields(full, c), there);
    var back := map a: nat | a in HitFields(full, c) :: (assert a in kept; var j: nat :| j < |kept| && kept[j] == a; j);
    InjectionCount(HitFields(full, c), HitFields(r, c), back);
    if a :| 0 <= a < |full| && Exc(c) in full[a] {
      assert a in kept;
      var j :| 0 <= j < |kept| && kept[j] == a;
      assert Exc(c) in r[j];
    }
  }

  lemma KeptStays(full: Fields, kept: seq<nat>, r: Fields)
    requires IsKept(full, kept, r) && WellFormed(full) && Separated(full)
    ensures WellFormed(r) && Separated(r)
  {
    forall j, e | 0 <= j < |r| && e in r[j] ensures e % P4 <= 1 && e < NULLENTRY {
      assert e in full[kept[j]];
    }
    forall j, c: nat | 0 <= j < |r| && Inc(c) in r[j] ensures Exc(c) !in r[j] {
      assert Inc(c) in full[kept[j]];
    }
  }

  lemma KeptOk(docs: seq<Document>, query: seq<Assign>, full: Fields, kept: seq<nat>, r: Fields)
    requires DocsOk(docs) && IdsApart(docs) && FieldsFor(docs, query, full) && IsKept(full, kept, r)
    ensures WellFormed(r) && Separated(r)
    ensures IncludesAtMost(docs, 1) ==> SizesAtMost(r, 1)
  {
    FieldsAreWellFormed(docs, query, full);
    FieldsAreSeparated(docs, query, full);
    KeptStays(full, kept, r);
    if IncludesAtMost(docs, 1) { KeptIsSmall(docs, query, full, kept, r); }
  }

  lemma KeptIsSmall(docs: seq<Document>, query: seq<Assign>, full: Fields, kept: seq<nat>, r: Fields)
    requires IncludesAtMost(docs, 1) && FieldsFor(docs, query, full) && IsKept(full, kept, r)
    ensures SizesAtMost(r, 1)
  {
    forall j, e | 0 <= j < |r| && e in r[j] ensures GetConjunctionSize(GetConjunctionId(e)) <= 1 {
      EntryIsSmall(docs, query, full, kept[j], e);
    }
  }

  lemma EntryIsSmall(docs: seq<Document>, query: seq<Assign>, full: Fields, a: nat, e: nat)
    requires IncludesAtMost(docs, 1) && FieldsFor(docs, query, full) && a < |full| && e in full[a]
    ensures GetConjunctionSize(GetConjunctionId(e)) <= 1
  {
    var d, i := EntryBelongs(docs, query, full, a, e);
    ConjOfEntry(ConjId(docs[d], i));
    ConjIdIs(docs[d], i);
    ByteOf(Size(docs[d].conjs[i].exprs));
  }

  /**
    When the answer is claimed: for conjunctions with ids of their own and at most one include, which
    `AsWrittenRightIff` shows to be exact; or of the variant, for queries that name a field once and
    conjunctions whose number of includes fits its eight bits.
  */
  ghost predicate Promised(docs: seq<Document>, query: seq<Assign>, mode: Mode) {
    && IdsApart(docs)
    && (IncludesAtMost(docs, 1) || (mode == Variant && FieldsOnce(query) && IncludesAtMost(docs, 255)))
  }

  /** The documents of the reported conjunctions are the documents that hold. */
  ghost predicate Right(docs: seq<Document>, query: seq<Assign>, found: seq<nat>) {
    forall id :: (exists c :: c in found && GetDocumentID(c) == id) <==> DocHoldsWith(docs, query, id)
  }

  /** A document with this id holds. */
  ghost predicate DocHoldsWith(docs: seq<Document>, query: seq<Assign>, id: int) {
    exists d :: 0 <= d < |docs| && docs[d].id == id && DocHolds(docs[d], query)
  }

  lemma AnswerIsRight(docs: seq<Document>, query: seq<Assign>, full: Fields, kept: seq<nat>, r: Fields,
                      found: seq<nat>, mode: Mode)
    requires DocsOk(docs) && FieldsFor(docs, query, full) && IsKept(full, kept, r) && Scan(r, found, mode)
    requires Promised(docs, query, mode)
    ensures Right(docs, query, found)
  {
    KeptOk(docs, query, full, kept, r);
    forall id ensures (exists c :: c in found && GetDocumentID(c) == id) <==> DocHoldsWith(docs, query, id) {
      if c :| c in found && GetDocumentID(c) == id {
        var d, i := FoundHolds(docs, query, full, kept, r, found, mode, c);
        assert DocHolds(docs[d], query);
      }
      if d :| 0 <= d < |docs| && docs[d].id == id && DocHolds(docs[d], query) {
        var i :| 0 <= i < |docs[d].conjs| && Holds(docs[d].conjs[i], query);
        HoldsFound(docs, query, full, kept, r, found, mode, d, i);
      }
    }
  }

  lemma FoundHolds(docs: seq<Document>, query: seq<Assign>, full: Fields, kept: seq<nat>, r: Fields,
                   found: seq<nat>, mode: Mode, c: nat) returns (d: nat, i: nat)
    requires DocsOk(docs) && FieldsFor(docs, query, full) && IsKept(full, kept, r) && Scan(r, found, mode)
    requires Promised(docs, query, mode) && WellFormed(r) && Separated(r) && c in found
    requires IncludesAtMost(docs, 1) ==> SizesAtMost(r, 1)
    ensures IsConj(docs, d, i) && docs[d].id == GetDocumentID(c) && Holds(docs[d].conjs[i], query)
  {
    ScanExact(r, found, mode, c);
    KeptMatch(full, kept, r, c);
    d, i := HitBelongs(docs, query, full, c);
    NeverOvercounted(docs[d].conjs[i].exprs, query);
    MatchIsHolds(docs, query, full, d, i);
    ConjIdIs(docs[d], i);
  }

  lemma HoldsFound(docs: seq<Document>, query: seq<Assign>, full: Fields, kept: seq<nat>, r: Fields,
                   found: seq<nat>, mode: Mode, d: nat, i: nat)
    requires DocsOk(docs) && FieldsFor(docs, query, full) && IsKept(full, kept, r) && Scan(r, found, mode)
    requires Promised(docs, query, mode) && WellFormed(r) && Separated(r)
    requires IncludesAtMost(docs, 1) ==> SizesAtMost(r, 1)
    requires d < |docs| && i < |docs[d].conjs| && Holds(docs[d].conjs[i], query)
    ensures exists c :: c in found && GetDocumentID(c) == docs[d].id
  {
    assert DocOk(docs[d]);
    MatchIsHolds(docs, query, full, d, i);
    var c := ConjId(docs[d], i);
    KeptMatch(full, kept, r, c);
    ScanExact(r, found, mode, c);
    ConjIdIs(docs[d], i);
    assert c in found && GetDocumentID(c) == docs[d].id;
  }

  // ---------------------------------------------------------------------------
  // What is promised for the code as written is all there is to promise
  // ---------------------------------------------------------------------------

  /** What the code as written may find for a query. */
  ghost predicate MayFind(docs: seq<Document>, query: seq<Assign>, found: seq<nat>) {
    exists full, kept, r :: FieldsFor(docs, query, full) && IsKept(full, kept, r) && Scan(r, found, AsWritten)
  }

  /**
    As written, the answer is right for every index whose conjunctions have at most n includes and,
    where `apart` asks for it, ids of their own, and for every query.
  */
  ghost predicate AsWrittenRight(n: nat, apart: bool) {
    forall docs, query, found :: Admits(docs, n, apart) && MayFind(docs, query, found) ==>
      Right(docs, query, found)
  }

  ghost predicate Admits(docs: seq<Document>, n: nat, apart: bool) {
    DocsOk(docs) && IncludesAtMost(docs, n) && (apart ==> IdsApart(docs))
  }

  lemma FindsBy(docs: seq<Document>, query: seq<Assign>, full: Fields, kept: seq<nat>, r: Fields, found: seq<nat>)
    requires FieldsFor(docs, query, full) && IsKept(full, kept, r) && Scan(r, found, AsWritten)
    ensures MayFind(docs, query, found)
  {
  }

  lemma KeepsTwo(a: set<nat>, b: set<nat>)
    ensures IsKept([a, b, {}], [0, 1], [a, b]) && IsKept([a, b], [0, 1], [a, b])
  {
  }

  function Include(field: string, value: int): Expr { Expr(field, [value], false) }

  function Exclude(field: string, value: int): Expr { Expr(field, [value], true) }

  function OneConj(id: int, exprs: seq<Expr>): Document { Document(id, [Conjunction(exprs)]) }

  lemma CommonOf(x: Expr, u: int, a: Assign, v: int)
    requires x.values == [u] && a.values == [v]
    ensures Common(x, a) <==> x.field == a.field && u == v
  {
    assert u in x.values && v in a.values;
  }

  /** Two documents of two includes each, of each of which the query hits one. */
  function TwoPairs(): seq<Document> {
    [OneConj(1, [Include("a", 1), Include("b", 1)]), OneConj(2, [Include("a", 2), Include("b", 2)])]
  }

  const CROSSING: seq<Assign> := [Assign("a", [1]), Assign("b", [2])]

  lemma TwoPairsAreOk()
    ensures DocsOk(TwoPairs()) && forall d :: 0 <= d < 2 ==> Size(TwoPairs()[d].conjs[0].exprs) == 2
    ensures IncludesAtMost(TwoPairs(), 2)
    ensures forall i: nat, j: nat :: IsConj(TwoPairs(), i, j) ==> j == 0 && i < 2
  {
  }

  lemma TwoPairsIds() returns (c: nat, d: nat)
    ensures c == ConjId(TwoPairs()[0], 0) && d == ConjId(TwoPairs()[1], 0) && IsPair(c, d)
    ensures IdsApart(TwoPairs()) && GetDocumentID(c) == 1
  {
    var docs := TwoPairs();
    TwoPairsAreOk();
    ConjIdIs(docs[0], 0);
    ConjIdIs(docs[1], 0);
    ConjIDOrder(1, 0, 2, 2, 0, 2);
    c, d := GenConjID(1, 0, 2), GenConjID(2, 0, 2);
    assert c == ConjId(docs[0], 0) && d == ConjId(docs[1], 0);
  }

  lemma TwoPairsFields(c: nat, d: nat)
    requires c == ConjId(TwoPairs()[0], 0) && d == ConjId(TwoPairs()[1], 0) && IsPair(c, d)
    ensures FieldsFor(TwoPairs(), CROSSING, [{Inc(c)}, {Inc(d)}, {}])
  {
    var docs := TwoPairs();
    forall p | IsPlace(docs, p)
      ensures p.d < 2 && p.i == 0 && EntryOf(docs[p.d], 0, p.x) == Inc(if p.d == 0 then c else d)
      ensures Common(ExprAt(docs, p), CROSSING[0]) <==> p == Place(0, 0, 0)
      ensures Common(ExprAt(docs, p), CROSSING[1]) <==> p == Place(1, 0, 1)
    {
      EntryOfIs(docs, p);
      CommonOf(ExprAt(docs, p), ExprAt(docs, p).values[0], CROSSING[0], 1);
      CommonOf(ExprAt(docs, p), ExprAt(docs, p).values[0], CROSSING[1], 2);
    }
    assert IsPlace(docs, Place(0, 0, 0)) && IsPlace(docs, Place(1, 0, 1));
    assert forall i: nat, j: nat :: IsConj(docs, i, j) ==> j == 0 && i < 2 && Size(docs[i].conjs[j].exprs) == 2;
  }

  lemma TwoPairsFound(c: nat, d: nat)
    requires c == ConjId(TwoPairs()[0], 0) && d == ConjId(TwoPairs()[1], 0) && IsPair(c, d)
    ensures MayFind(TwoPairs(), CROSSING, [c])
  {
    TwoPairsFields(c, d);
    TwoIncludesMisreported(c, d);
    KeepsTwo({Inc(c)}, {Inc(d)});
    FindsBy(TwoPairs(), CROSSING, [{Inc(c)}, {Inc(d)}, {}], [0, 1], [{Inc(c)}, {Inc(d)}], [c]);
  }

  /** The code as written reports the first of them, which does not hold. */
  lemma TwoPairsMisanswered() returns (c: nat)
    ensures MayFind(TwoPairs(), CROSSING, [c]) && !Right(TwoPairs(), CROSSING, [c])
    ensures Admits(TwoPairs(), 2, true)
  {
    var docs, d := TwoPairs(), 0;
    c, d := TwoPairsIds();
    TwoPairsAreOk();
    TwoPairsFound(c, d);
    var b := docs[0].conjs[0].exprs[1];
    CommonOf(b, 1, CROSSING[0], 1);
    CommonOf(b, 1, CROSSING[1], 2);
    assert !Hit(b, CROSSING) && !Holds(docs[0].conjs[0], CROSSING) && !DocHolds(docs[0], CROSSING);
    assert !DocHoldsWith(docs, CROSSING, 1) && c in [c];
  }

  /** Two documents with one id, which exclude different values. */
  function Twins(): seq<Document> { [OneConj(1, [Exclude("b", 1)]), OneConj(1, [Exclude("b", 2)])] }

  const EXCLUDING: seq<Assign> := [Assign("b", [1])]

  lemma TwinsFields(c: nat)
    requires c == ConjId(Twins()[0], 0)
    ensures c < P60 && GetConjunctionSize(c) == 0
    ensures FieldsFor(Twins(), EXCLUDING, [{Exc(c)}, {Inc(c)}])
  {
    var docs := Twins();
    ConjIdIs(docs[0], 0);
    ConjIdSameIff(docs[0], 0, docs[1], 0);
    EntryIDOrder(c, false);
    forall p | IsPlace(docs, p)
      ensures p.d < 2 && p.i == 0 && EntryOf(docs[p.d], 0, p.x) == Exc(c)
      ensures Common(ExprAt(docs, p), EXCLUDING[0]) <==> p == Place(0, 0, 0)
    {
      EntryOfIs(docs, p);
      CommonOf(ExprAt(docs, p), ExprAt(docs, p).values[0], EXCLUDING[0], 1);
    }
    assert IsPlace(docs, Place(0, 0, 0)) && IsConj(docs, 0, 0);
    assert forall i: nat, j: nat :: IsConj(docs, i, j) ==> j == 0 && i < 2 && ConjId(docs[i], j) == c;
  }

  lemma TwinsFound(c: nat)
    requires c == ConjId(Twins()[0], 0)
    ensures MayFind(Twins(), EXCLUDING, [])
  {
    TwinsFields(c);
    ExcludeHides(c);
    KeepsTwo({Exc(c)}, {Inc(c)});
    FindsBy(Twins(), EXCLUDING, [{Exc(c)}, {Inc(c)}], [0, 1], [{Exc(c)}, {Inc(c)}], []);
  }

  /** The exclude of the first hides the second, which holds. */
  lemma TwinsMisanswered()
    ensures MayFind(Twins(), EXCLUDING, []) && !Right(Twins(), EXCLUDING, [])
    ensures Admits(Twins(), 0, false)
  {
    var docs := Twins();
    TwinsFound(ConjId(docs[0], 0));
    CommonOf(docs[1].conjs[0].exprs[0], 2, EXCLUDING[0], 1);
    assert Holds(docs[1].conjs[0], EXCLUDING) && DocHolds(docs[1], EXCLUDING);
    assert DocHoldsWith(docs, EXCLUDING, 1);
  }

  /**
    Exactly when the code as written can be relied on: conjunctions of at most one include, with ids
    of their own.
  */
  lemma AsWrittenRightIff(n: nat, apart: bool)
    ensures AsWrittenRight(n, apart) <==> n <= 1 && apart
  {
    if n <= 1 && apart {
      forall docs, query, found
        | Admits(docs, n, apart) && MayFind(docs, query, found)
        ensures Right(docs, query, found)
      {
        var full, kept, r :| FieldsFor(docs, query, full) && IsKept(full, kept, r) && Scan(r, found, AsWritten);
        AnswerIsRight(docs, query, full, kept, r, found, AsWritten);
      }
    } else if apart {
      var c := TwoPairsMisanswered();
    } else {
      TwinsMisanswered();
    }
  }
}
