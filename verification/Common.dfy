/** Small vocabulary shared by the other modules. */
module Common {

  datatype Option<+T> = None | Some(value: T)

  ghost predicate NoDup<T>(s: seq<T>) {
    forall i, j :: 0 <= i < j < |s| ==> s[i] != s[j]
  }

  function Elements<T(==)>(s: seq<T>): set<T> {
    set x | x in s
  }

  lemma NoDupAppend<T>(s: seq<T>, x: T)
    requires NoDup(s) && x !in s
    ensures NoDup(s + [x])
    ensures Elements(s + [x]) == Elements(s) + {x}
  {
    assert forall y :: y in s + [x] <==> y in s || y == x;
  }

  lemma JoinNoDup<T>(all: seq<T>, batch: seq<T>)
    requires NoDup(all) && NoDup(batch) && forall n :: n in batch ==> n !in all
    ensures NoDup(all + batch)
  {
    var s := all + batch;
    forall i, j | 0 <= i < j < |s| ensures s[i] != s[j] {
      assert (i < |all| ==> s[i] in all) && (j >= |all| ==> s[j] in batch);
    }
  }

  lemma {:induction false} NoDupSize<T>(s: seq<T>)
    requires NoDup(s)
    ensures |Elements(s)| == |s|
  {
    if s != [] {
      var n := |s| - 1;
      NoDupSize(s[..n]);
      assert s == s[..n] + [s[n]];
      NoDupAppend(s[..n], s[n]);
    }
  }

  /** A list without repetition is determined, as a multiset, by the set of its elements. */
  lemma {:induction false} NoDupMultiset<T>(s: seq<T>)
    requires NoDup(s)
    ensures multiset(s) == multiset(Elements(s))
  {
    if s != [] {
      var n := |s| - 1;
      NoDupMultiset(s[..n]);
      assert s == s[..n] + [s[n]];
      NoDupAppend(s[..n], s[n]);
    }
  }

  /** Rearranging a list keeps its elements and keeps it free of repetition. */
  lemma PermutationFacts<T>(s: seq<T>, t: seq<T>)
    requires multiset(s) == multiset(t)
    ensures Elements(s) == Elements(t) && |s| == |t|
    ensures NoDup(s) ==> NoDup(t)
  {
    assert |s| == |multiset(s)| == |multiset(t)| == |t|;
    forall x ensures x in s <==> x in t {
      assert x in s <==> x in multiset(s);
      assert x in t <==> x in multiset(t);
    }
    if NoDup(s) && !NoDup(t) {
      var i, j :| 0 <= i < j < |t| && t[i] == t[j];
      TwoOccurrences(t, i, j);
      NoDupMultiset(s);
      assert false;
    }
  }

  lemma TwoOccurrences<T>(t: seq<T>, i: nat, j: nat)
    requires i < j < |t| && t[i] == t[j]
    ensures multiset(t)[t[i]] >= 2
  {
    assert t == t[..i] + [t[i]] + t[i + 1..j] + [t[j]] + t[j + 1..];
  }
}
