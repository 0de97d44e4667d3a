/** One sort, for the library's: what it does with equal keys is nowhere used. */
module Sorting {
  predicate OrderedBy<T>(s: seq<T>, key: map<T, nat>) {
    && (forall i :: 0 <= i < |s| ==> s[i] in key)
    && (forall i, j :: 0 <= i < j < |s| ==> key[s[i]] <= key[s[j]])
  }

  function Inserted<T>(s: seq<T>, at: nat, x: T): (r: seq<T>)
    requires at <= |s|
    ensures |r| == |s| + 1
    ensures forall i :: 0 <= i < |r| ==> r[i] == if i < at then s[i] else if i == at then x else s[i - 1]
    ensures multiset(r) == multiset(s) + multiset{x}
  {
    assert s == s[..at] + s[at..];
    s[..at] + [x] + s[at..]
  }

  method Insert<T>(s: seq<T>, x: T, key: map<T, nat>) returns (r: seq<T>)
    requires OrderedBy(s, key) && x in key
    ensures OrderedBy(r, key) && multiset(r) == multiset(s) + multiset{x}
  {
    var at := 0;
    while at < |s| && key[s[at]] <= key[x]
      invariant at <= |s| && forall i :: 0 <= i < at ==> key[s[i]] <= key[x]
    {
      at := at + 1;
    }
    r := Inserted(s, at, x);
  }

  method Sort<T>(v: seq<T>, key: map<T, nat>) returns (s: seq<T>)
    requires forall x :: x in v ==> x in key
    ensures OrderedBy(s, key) && multiset(s) == multiset(v)
  {
    s := [];
    for i := 0 to |v|
      invariant OrderedBy(s, key) && multiset(s) == multiset(v[..i])
    {
      assert v[..i + 1] == v[..i] + [v[i]];
      s := Insert(s, v[i], key);
    }
    assert v[..|v|] == v;
  }
}
