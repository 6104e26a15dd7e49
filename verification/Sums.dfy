/**
 Totals over a sequence: the lemmas say how a total changes when the sequence is
 appended to, loses its head, or has one element replaced.
 */
module Sums {

  ghost function Sum<T>(s: seq<T>, weight: T -> nat): nat {
    if s == [] then 0 else Sum(s[..|s| - 1], weight) + weight(s[|s| - 1])
  }

  lemma SumAppend<T>(s: seq<T>, x: T, weight: T -> nat)
    ensures Sum(s + [x], weight) == Sum(s, weight) + weight(x)
  {
    assert (s + [x])[..|s|] == s;
  }

  lemma {:induction false} SumTail<T>(s: seq<T>, weight: T -> nat)
    requires s != []
    ensures Sum(s, weight) == weight(s[0]) + Sum(s[1..], weight)
  {
    if |s| > 1 {
      SumTail(s[..|s| - 1], weight);
      assert s[..|s| - 1][1..] == s[1..][..|s| - 2];
    }
  }

  lemma {:induction false} SumUpdate<T>(s: seq<T>, i: nat, x: T, weight: T -> nat)
    requires i < |s|
    ensures Sum(s[i := x], weight) + weight(s[i]) == Sum(s, weight) + weight(x)
  {
    var n := |s| - 1;
    if i < n {
      SumUpdate(s[..n], i, x, weight);
      assert s[i := x][..n] == s[..n][i := x];
    } else {
      assert s[i := x][..n] == s[..n];
    }
  }

  lemma {:induction false} SumSame<T>(s: seq<T>, t: seq<T>, weight: T -> nat)
    requires |s| == |t|
    requires forall i :: 0 <= i < |s| ==> weight(s[i]) == weight(t[i])
    ensures Sum(s, weight) == Sum(t, weight)
  {
    if s != [] {
      var n := |s| - 1;
      SumSame(s[..n], t[..n], weight);
    }
  }

  lemma {:induction false} SumZero<T>(s: seq<T>, weight: T -> nat)
    requires forall i :: 0 <= i < |s| ==> weight(s[i]) == 0
    ensures Sum(s, weight) == 0
  {
    if s != [] {
      SumZero(s[..|s| - 1], weight);
    }
  }

  lemma {:induction false} SumMember<T>(s: seq<T>, i: nat, weight: T -> nat)
    requires i < |s|
    ensures weight(s[i]) <= Sum(s, weight)
  {
    var n := |s| - 1;
    if i < n {
      SumMember(s[..n], i, weight);
    }
  }

  /** A total that is not zero owes it to some element. */
  lemma {:induction false} SumWitness<T>(s: seq<T>, weight: T -> nat) returns (i: nat)
    requires Sum(s, weight) > 0
    ensures i < |s| && weight(s[i]) > 0
  {
    var n := |s| - 1;
    if weight(s[n]) > 0 {
      i := n;
    } else {
      i := SumWitness(s[..n], weight);
    }
  }

  lemma {:induction false} SumWithout<T>(s: seq<T>, i: nat, weight: T -> nat)
    requires i < |s|
    ensures Sum(s, weight) == Sum(s[..i] + s[i + 1..], weight) + weight(s[i])
  {
    var n := |s| - 1;
    if i < n {
      SumWithout(s[..n], i, weight);
      assert (s[..i] + s[i + 1..])[..n - 1] == s[..n][..i] + s[..n][i + 1..];
    } else {
      assert s[..i] + s[i + 1..] == s[..n];
    }
  }

  lemma {:induction false} SumConcat<T>(s: seq<T>, t: seq<T>, weight: T -> nat)
    ensures Sum(s + t, weight) == Sum(s, weight) + Sum(t, weight)
  {
    if t == [] {
      assert s + t == s;
    } else {
      var n := |t| - 1;
      assert s + t == (s + t[..n]) + [t[n]];
      SumConcat(s, t[..n], weight);
      SumAppend(s + t[..n], t[n], weight);
    }
  }

  lemma {:induction false} SumFewer<T>(s: seq<T>, v: T -> nat, w: T -> nat)
    requires forall x :: v(x) <= w(x)
    ensures Sum(s, v) <= Sum(s, w)
  {
    if s != [] { SumFewer(s[..|s| - 1], v, w); }
  }
}
