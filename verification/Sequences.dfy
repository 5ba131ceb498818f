/** Filtering, counting and searching, as list comprehensions and `sum(1 for ...)` do it. */
module Sequences {
  import opened Wrappers

  function Filter<T>(s: seq<T>, keep: T -> bool): seq<T> {
    if s == [] then []
    else
      var front := Filter(s[..|s| - 1], keep);
      if keep(s[|s| - 1]) then front + [s[|s| - 1]] else front
  }

  function Count<T>(s: seq<T>, counts: T -> bool): nat {
    if s == [] then 0 else Count(s[..|s| - 1], counts) + if counts(s[|s| - 1]) then 1 else 0
  }

  function First<T>(s: seq<T>, wanted: T -> bool): Option<T> {
    if s == [] then None else if wanted(s[0]) then Some(s[0]) else First(s[1..], wanted)
  }

  // ------------------------------------------------------------------ filtering

  lemma {:induction false} InFilter<T>(s: seq<T>, keep: T -> bool, x: T)
    ensures x in Filter(s, keep) <==> x in s && keep(x)
  {
    if s != [] {
      InFilter(s[..|s| - 1], keep, x);
      assert s == s[..|s| - 1] + [s[|s| - 1]];
    }
  }

  lemma FilterStep<T>(s: seq<T>, i: nat, keep: T -> bool)
    requires i < |s|
    ensures Filter(s[..i + 1], keep) == if keep(s[i]) then Filter(s[..i], keep) + [s[i]] else Filter(s[..i], keep)
  {
    assert s[..i + 1][..i] == s[..i];
  }

  lemma FilterAppend<T>(s: seq<T>, x: T, keep: T -> bool)
    ensures Filter(s + [x], keep) == if keep(x) then Filter(s, keep) + [x] else Filter(s, keep)
  {
    assert (s + [x])[..|s|] == s;
  }

  lemma FilterWhole<T>(s: seq<T>, keep: T -> bool)
    ensures Filter(s[..|s|], keep) == Filter(s, keep)
  {
    assert s[..|s|] == s;
  }

  lemma {:induction false} FilterAll<T>(s: seq<T>, keep: T -> bool)
    requires forall x :: x in s ==> keep(x)
    ensures Filter(s, keep) == s
  {
    if s != [] {
      FilterAll(s[..|s| - 1], keep);
    }
  }

  lemma {:induction false} FilterSame<T>(s: seq<T>, keep: T -> bool, also: T -> bool)
    requires forall x :: x in s ==> keep(x) == also(x)
    ensures Filter(s, keep) == Filter(s, also)
  {
    if s != [] {
      FilterSame(s[..|s| - 1], keep, also);
    }
  }

  lemma {:induction false} FilterTwice<T>(s: seq<T>, first: T -> bool, second: T -> bool, both: T -> bool)
    requires forall x :: x in s ==> (both(x) <==> first(x) && second(x))
    ensures Filter(Filter(s, first), second) == Filter(s, both)
  {
    if s != [] {
      var front := Filter(s[..|s| - 1], first);
      FilterTwice(s[..|s| - 1], first, second, both);
      assert (front + [s[|s| - 1]])[..|front|] == front;
    }
  }

  // ------------------------------------------------------------------- counting

  lemma CountStep<T>(s: seq<T>, i: nat, counts: T -> bool)
    requires i < |s|
    ensures Count(s[..i + 1], counts) == Count(s[..i], counts) + if counts(s[i]) then 1 else 0
  {
    assert s[..i + 1][..i] == s[..i];
  }

  lemma CountWhole<T>(s: seq<T>, counts: T -> bool)
    ensures Count(s[..|s|], counts) == Count(s, counts)
  {
    assert s[..|s|] == s;
  }

  lemma CountAppend<T>(s: seq<T>, x: T, counts: T -> bool)
    ensures Count(s + [x], counts) == Count(s, counts) + if counts(x) then 1 else 0
  {
    assert (s + [x])[..|s|] == s;
  }

  lemma {:induction false} CountSame<T>(s: seq<T>, t: seq<T>, counts: T -> bool)
    requires |s| == |t| && forall i :: 0 <= i < |s| ==> counts(s[i]) == counts(t[i])
    ensures Count(s, counts) == Count(t, counts)
  {
    if s != [] {
      CountSame(s[..|s| - 1], t[..|t| - 1], counts);
    }
  }

  lemma {:induction false} CountUpdate<T>(s: seq<T>, i: nat, x: T, counts: T -> bool)
    requires i < |s|
    ensures Count(s[i := x], counts) + (if counts(s[i]) then 1 else 0) == Count(s, counts) + if counts(x) then 1 else 0
  {
    var n := |s| - 1;
    if i == n {
      assert s[i := x][..n] == s[..n];
    } else {
      assert s[i := x][..n] == s[..n][i := x];
      CountUpdate(s[..n], i, x, counts);
    }
  }

  /** A whole sequence counts what its prefix up to the last hit counts, and that hit. */
  lemma {:induction false} CountLast<T>(s: seq<T>, i: nat, counts: T -> bool)
    requires i < |s| && counts(s[i]) && forall j :: i < j < |s| ==> !counts(s[j])
    ensures Count(s, counts) == Count(s[..i], counts) + 1
  {
    var n := |s| - 1;
    if i < n {
      CountLast(s[..n], i, counts);
      assert s[..n][..i] == s[..i];
    }
  }

  lemma {:induction false} CountNone<T>(s: seq<T>, counts: T -> bool)
    requires forall i :: 0 <= i < |s| ==> !counts(s[i])
    ensures Count(s, counts) == 0
  {
    if s != [] {
      CountNone(s[..|s| - 1], counts);
    }
  }

  lemma {:induction false} CountJoin<T>(s: seq<T>, t: seq<T>, counts: T -> bool)
    ensures Count(s + t, counts) == Count(s, counts) + Count(t, counts)
  {
    if t == [] {
      assert s + t == s;
    } else {
      CountJoin(s, t[..|t| - 1], counts);
      assert (s + t)[..|s + t| - 1] == s + t[..|t| - 1];
    }
  }

  function Without<T>(s: seq<T>, k: nat): (rest: seq<T>)
    requires k < |s|
    ensures |rest| == |s| - 1
  {
    s[..k] + s[k + 1..]
  }

  lemma SplitAt<T>(s: seq<T>, k: nat)
    requires k < |s|
    ensures s == (s[..k] + [s[k]]) + s[k + 1..]
  {
  }

  lemma CountWithout<T>(s: seq<T>, k: nat, counts: T -> bool)
    requires k < |s|
    ensures Count(s, counts) == Count(Without(s, k), counts) + if counts(s[k]) then 1 else 0
  {
    hide Count;
    var before, after := s[..k], s[k + 1..];
    SplitAt(s, k);
    CountJoin(before, after, counts);
    CountJoin(before + [s[k]], after, counts);
    CountAppend(before, s[k], counts);
  }

  lemma ElementsWithout<T>(s: seq<T>, k: nat)
    requires k < |s|
    ensures multiset(s) == multiset(Without(s, k)) + multiset{s[k]}
  {
    SplitAt(s, k);
  }

  lemma CancelOne<T>(a: multiset<T>, b: multiset<T>, x: T)
    requires a + multiset{x} == b + multiset{x}
    ensures a == b
  {
    assert a == (a + multiset{x}) - multiset{x};
    assert b == (b + multiset{x}) - multiset{x};
  }

  /** Counting forgets the order. */
  lemma {:induction false} CountRearranged<T>(s: seq<T>, t: seq<T>, counts: T -> bool)
    requires multiset(s) == multiset(t)
    ensures Count(s, counts) == Count(t, counts)
    decreases |s|
  {
    assert |multiset(s)| == |s| && |multiset(t)| == |t|;
    if s != [] {
      var front, last := s[..|s| - 1], s[|s| - 1];
      assert s == front + [last];
      assert last in multiset(s);
      assert last in multiset(t);
      var k :| 0 <= k < |t| && t[k] == last;
      var rest := Without(t, k);
      CountWithout(t, k, counts);
      ElementsWithout(t, k);
      assert multiset(front) + multiset{last} == multiset(rest) + multiset{last};
      CancelOne(multiset(front), multiset(rest), last);
      CountRearranged(front, rest, counts);
    }
  }

  /** The positions that count. */
  ghost function Hits<T(!new)>(s: seq<T>, counts: T -> bool): set<nat> {
    set i: nat | i < |s| && counts(s[i])
  }

  lemma HitsStep<T(!new)>(s: seq<T>, counts: T -> bool)
    requires s != []
    ensures var last := |s| - 1;
            Hits(s, counts) == if counts(s[last]) then Hits(s[..last], counts) + {last} else Hits(s[..last], counts)
    ensures |s| - 1 !in Hits(s[..|s| - 1], counts)
  {
    var last := |s| - 1;
    var front := s[..last];
    forall i ensures i in Hits(s, counts) <==> i in Hits(front, counts) || (i == last && counts(s[last])) {
      assert 0 <= i < last ==> s[i] == front[i];
    }
  }

  lemma {:induction false} CountIsSize<T(!new)>(s: seq<T>, counts: T -> bool)
    ensures Count(s, counts) == |Hits(s, counts)|
  {
    if s == [] {
      assert Hits(s, counts) == {};
    } else {
      CountIsSize(s[..|s| - 1], counts);
      HitsStep(s, counts);
      hide Hits;
    }
  }

  // ------------------------------------------------------------------ searching

  lemma {:induction false} FirstFinds<T>(s: seq<T>, wanted: T -> bool)
    ensures First(s, wanted).None? <==> forall i :: 0 <= i < |s| ==> !wanted(s[i])
    ensures First(s, wanted).Some? ==>
              exists i :: 0 <= i < |s| && s[i] == First(s, wanted).value && wanted(s[i])
                          && forall j :: 0 <= j < i ==> !wanted(s[j])
  {
    if s != [] && !wanted(s[0]) {
      var rest := s[1..];
      FirstFinds(rest, wanted);
      assert forall i :: 0 < i < |s| ==> s[i] == rest[i - 1];
      if First(rest, wanted).Some? {
        var i :| 0 <= i < |rest| && rest[i] == First(rest, wanted).value && wanted(rest[i]) && forall j :: 0 <= j < i ==> !wanted(rest[j]);
        assert s[i + 1] == rest[i];
        assert forall j :: 0 <= j < i + 1 ==> !wanted(s[j]);
      }
    }
  }

  lemma SubsetSize<T>(part: set<T>, whole: set<T>)
    requires part <= whole
    ensures |part| <= |whole|
  {
    assert whole == part + (whole - part);
  }
}
