/** Counting in sequences. */
module Sequences {
  /** What stands at two positions is counted at least twice. */
  lemma Twice<T>(s: seq<T>, i: nat, j: nat)
    requires i < j < |s| && s[i] == s[j]
    ensures multiset(s)[s[i]] >= 2
  {
    assert s == s[..j] + [s[j]] + s[j + 1..];
    assert s[i] in s[..j];
    assert multiset(s) == multiset(s[..j]) + multiset{s[j]} + multiset(s[j + 1..]);
  }

  lemma {:induction false} DistinctCount<T>(s: seq<T>)
    requires forall i, j :: 0 <= i < j < |s| ==> s[i] != s[j]
    ensures |set x | x in s| == |s|
    decreases |s|
  {
    if s != [] {
      var n := |s| - 1;
      DistinctCount(s[..n]);
      assert (set x | x in s) == (set x | x in s[..n]) + {s[n]};
    }
  }

  lemma SliceOfSlice<T>(s: seq<T>, lo: nat, hi: nat, i: nat, j: nat)
    requires lo <= hi <= |s| && i <= j <= hi - lo
    ensures s[lo..hi][i..j] == s[lo + i..lo + j]
  {
    var a, b := s[lo..hi][i..j], s[lo + i..lo + j];
    forall k | 0 <= k < |a| ensures a[k] == b[k] {
      assert a[k] == s[lo..hi][i + k] == s[lo + i + k] == b[k];
    }
  }

  lemma Reassociate<T>(a: seq<T>, b: seq<T>, c: seq<T>)
    ensures (a + b) + c == a + (b + c)
  {
  }

  lemma ShorterPrefix<T>(s: seq<T>, t: seq<T>, n: nat, k: nat)
    requires k <= n <= |s| && n <= |t| && s[..n] == t[..n]
    ensures s[..k] == t[..k]
  {
    assert s[..k] == s[..n][..k] && t[..k] == t[..n][..k];
  }

  ghost predicate Lists<T(!new)>(s: seq<T>, all: set<T>) {
    forall x :: x in s <==> x in all
  }

  lemma ListedCount<T(!new)>(s: seq<T>, all: set<T>)
    requires Lists(s, all) && forall i, j :: 0 <= i < j < |s| ==> s[i] != s[j]
    ensures |s| == |all|
  {
    DistinctCount(s);
    assert all == set x | x in s;
  }

  ghost function SeqOf<T(!new)>(all: set<T>): (s: seq<T>)
    ensures Lists(s, all)
  {
    if all == {} then [] else
      var x :| x in all;
      [x] + SeqOf(all - {x})
  }
}
