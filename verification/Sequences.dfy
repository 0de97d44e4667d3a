module Sequences {
  ghost predicate NoRepeats<T>(s: seq<T>) { forall i, j :: 0 <= i < j < |s| ==> s[i] != s[j] }

  function AsSet<T>(s: seq<T>): set<T> { set x | x in s }

  lemma PartsNoRepeats<T>(a: seq<T>, b: seq<T>)
    requires NoRepeats(a + b)
    ensures NoRepeats(a) && NoRepeats(b) && forall x :: x in a ==> x !in b
  {
    var all := a + b;
    assert forall i :: 0 <= i < |a| ==> all[i] == a[i];
    assert forall i :: 0 <= i < |b| ==> all[|a| + i] == b[i];
  }

  function Without<T>(s: seq<T>, k: nat): seq<T>
    requires k < |s|
  {
    s[..k] + s[k + 1..]
  }

  /** What comes after the first k elements is none of them. */
  lemma RestIsOther<T>(s: seq<T>, k: nat)
    requires NoRepeats(s) && k <= |s|
    ensures NoRepeats(s[..k]) && NoRepeats(s[k..])
    ensures AsSet(s[..k]) <= AsSet(s) && AsSet(s[k..]) <= AsSet(s) - AsSet(s[..k])
  {
    assert s == s[..k] + s[k..];
    PartsNoRepeats(s[..k], s[k..]);
  }
}
