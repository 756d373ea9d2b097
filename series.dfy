/**
  The temperature series of a dataset and the queries over it: the
  threshold filter (`extreme_days`), the top-N ranking (`top_x_days`)
  and the sum behind the average (`average_temp`).

  A series is the ordered list of (date, maximum temperature) pairs in
  the order the weather archive returned them.
 */
module Series {

  /** One day of a series: its date (`YYYY-MM-DD`) and its maximum temperature. */
  datatype Day = Day(date: string, temp: real)

  // ---------------------------------------------------------------------
  // Threshold filter
  // ---------------------------------------------------------------------

  /** The days whose temperature is strictly above `threshold`, in series order. */
  function ExtremeDays(s: seq<Day>, threshold: real): (r: seq<Day>)
    ensures |r| <= |s|
    ensures forall i :: 0 <= i < |r| ==> r[i].temp > threshold && r[i] in s
    ensures r == [] <==> forall i :: 0 <= i < |s| ==> s[i].temp <= threshold
  {
    if s == [] then []
    else if s[0].temp > threshold then [s[0]] + ExtremeDays(s[1..], threshold)
    else
      assert forall i :: 1 <= i < |s| ==> s[i] == s[1..][i - 1];
      ExtremeDays(s[1..], threshold)
  }

  /** `r` is obtained from `s` by deleting some entries and keeping the order of the rest. */
  ghost predicate IsSubsequence(r: seq<Day>, s: seq<Day>)
    decreases |s|
  {
    r == [] ||
    (s != [] && ((r[0] == s[0] && IsSubsequence(r[1..], s[1..])) || IsSubsequence(r, s[1..])))
  }

  /** The filter keeps the order of the series: its result is a subsequence of it. */
  lemma {:induction false} ExtremeDaysIsSubsequence(s: seq<Day>, threshold: real)
    ensures IsSubsequence(ExtremeDays(s, threshold), s)
  {
    if s != [] {
      ExtremeDaysIsSubsequence(s[1..], threshold);
    }
  }

  /**
    The filter keeps every occurrence of a day above the threshold and no
    occurrence of any other day, so a day is in the result exactly when it is
    in the series and above the threshold.
   */
  lemma {:induction false} ExtremeDaysCount(s: seq<Day>, threshold: real, d: Day)
    ensures multiset(ExtremeDays(s, threshold))[d] ==
            if d.temp > threshold then multiset(s)[d] else 0
    ensures d in ExtremeDays(s, threshold) <==> d in s && d.temp > threshold
  {
    if s != [] {
      ExtremeDaysCount(s[1..], threshold, d);
      assert s == [s[0]] + s[1..];
      assert multiset(s) == multiset{s[0]} + multiset(s[1..]);
    }
  }

  /** Filtering a concatenation filters each part. */
  lemma {:induction false} ExtremeDaysAppend(a: seq<Day>, b: seq<Day>, threshold: real)
    ensures ExtremeDays(a + b, threshold) == ExtremeDays(a, threshold) + ExtremeDays(b, threshold)
  {
    if a == [] {
      assert a + b == b;
    } else {
      assert (a + b)[0] == a[0] && (a + b)[1..] == a[1..] + b;
      ExtremeDaysAppend(a[1..], b, threshold);
      if a[0].temp > threshold {
        assert ExtremeDays(a + b, threshold) == [a[0]] + ExtremeDays(a[1..] + b, threshold);
      } else {
        assert ExtremeDays(a + b, threshold) == ExtremeDays(a[1..] + b, threshold);
      }
    }
  }

  // ---------------------------------------------------------------------
  // Stable descending sort and the top-N ranking
  // ---------------------------------------------------------------------

  /** Temperatures never increase along `s`. */
  ghost predicate NonIncreasing(s: seq<Day>)
  {
    forall i, j :: 0 <= i < j < |s| ==> s[i].temp >= s[j].temp
  }

  /** The days of `s` whose temperature is exactly `v`, in the order of `s`. */
  ghost function WithTemp(s: seq<Day>, v: real): seq<Day>
  {
    if s == [] then []
    else (if s[0].temp == v then [s[0]] else []) + WithTemp(s[1..], v)
  }

  /**
    `r` is `s` sorted by descending temperature with ties kept in their
    original relative order: the ordering a stable sort keyed on the
    temperature with `reverse=True` produces.
   */
  ghost predicate IsStableDescendingSort(r: seq<Day>, s: seq<Day>)
  {
    NonIncreasing(r) && forall v :: WithTemp(r, v) == WithTemp(s, v)
  }

  /**
    Inserts `d` in front of the first entry that is not hotter than it, so
    `d` precedes every entry of equal temperature already in `s`.
   */
  function InsertByTemp(d: Day, s: seq<Day>): (r: seq<Day>)
    ensures |r| == |s| + 1
    ensures multiset(r) == multiset(s) + multiset{d}
  {
    if s == [] || d.temp >= s[0].temp then [d] + s
    else
      assert s == [s[0]] + s[1..];
      [s[0]] + InsertByTemp(d, s[1..])
  }

  /**
    Insertion sort, hottest first, taking the series from the front so that
    of two days with equal temperatures the earlier stays first.
   */
  function SortByTemp(s: seq<Day>): (r: seq<Day>)
    ensures |r| == |s|
    ensures multiset(r) == multiset(s)
  {
    if s == [] then []
    else
      assert s == [s[0]] + s[1..];
      InsertByTemp(s[0], SortByTemp(s[1..]))
  }

  lemma TailNonIncreasing(s: seq<Day>)
    requires s != [] && NonIncreasing(s)
    ensures NonIncreasing(s[1..])
  {
  }

  /** In a non-increasing sequence no entry is hotter than the first. */
  lemma HeadIsHottest(s: seq<Day>)
    requires s != [] && NonIncreasing(s)
    ensures forall x :: x in s ==> x.temp <= s[0].temp
  {
  }

  lemma {:induction false} InsertByTempMembers(d: Day, s: seq<Day>)
    ensures forall x :: x in InsertByTemp(d, s) ==> x == d || x in s
  {
    forall x | x in InsertByTemp(d, s)
      ensures x == d || x in s
    {
      assert x in multiset(InsertByTemp(d, s));
    }
  }

  lemma {:induction false} InsertByTempSorted(d: Day, s: seq<Day>)
    requires NonIncreasing(s)
    ensures NonIncreasing(InsertByTemp(d, s))
  {
    if s != [] && d.temp < s[0].temp {
      var q := InsertByTemp(d, s[1..]);
      TailNonIncreasing(s);
      InsertByTempSorted(d, s[1..]);
      InsertByTempMembers(d, s[1..]);
      HeadIsHottest(s);
      assert forall x :: x in s[1..] ==> x in s;
      var r := [s[0]] + q;
      assert r == InsertByTemp(d, s);
      forall i, j | 0 <= i < j < |r|
        ensures r[i].temp >= r[j].temp
      {
        assert r[j] == q[j - 1];
        assert r[j] in q;
        if i > 0 {
          assert r[i] == q[i - 1];
        }
      }
    }
  }

  lemma {:induction false} InsertByTempWithTemp(d: Day, s: seq<Day>, v: real)
    ensures WithTemp(InsertByTemp(d, s), v) == (if d.temp == v then [d] else []) + WithTemp(s, v)
  {
    if s == [] || d.temp >= s[0].temp {
      assert ([d] + s)[1..] == s;
    } else {
      var q := InsertByTemp(d, s[1..]);
      InsertByTempWithTemp(d, s[1..], v);
      assert ([s[0]] + q)[1..] == q;
    }
  }

  /** The sort orders hottest first and keeps ties in series order. */
  lemma {:induction false} SortByTempIsStable(s: seq<Day>)
    ensures IsStableDescendingSort(SortByTemp(s), s)
  {
    if s != [] {
      SortByTempIsStable(s[1..]);
      InsertByTempSorted(s[0], SortByTemp(s[1..]));
      forall v
        ensures WithTemp(SortByTemp(s), v) == WithTemp(s, v)
      {
        InsertByTempWithTemp(s[0], SortByTemp(s[1..]), v);
      }
    }
  }

  lemma {:induction false} WithTempMembers(s: seq<Day>, v: real)
    ensures forall x :: x in WithTemp(s, v) ==> x in s && x.temp == v
  {
    if s != [] {
      WithTempMembers(s[1..], v);
    }
  }

  lemma {:induction false} WithTempOfMember(s: seq<Day>, i: nat)
    requires i < |s|
    ensures WithTemp(s, s[i].temp) != []
  {
    if i > 0 {
      WithTempOfMember(s[1..], i - 1);
    }
  }

  /**
    Two sequences that are both non-increasing and agree on the order of the
    days of every temperature are equal.
   */
  lemma {:induction false} SameTiesSameOrder(a: seq<Day>, b: seq<Day>)
    requires NonIncreasing(a) && NonIncreasing(b)
    requires forall v :: WithTemp(a, v) == WithTemp(b, v)
    ensures a == b
    decreases |a| + |b|
  {
    if a == [] && b == [] {
      return;
    }
    if a != [] && b != [] {
      var u, w := a[0].temp, b[0].temp;
      HottestFirst(a, b);
      HottestFirst(b, a);
      assert u == w;
      assert WithTemp(a, u)[0] == a[0];
      assert WithTemp(b, u)[0] == b[0];
      assert WithTemp(a, u) == WithTemp(b, u);
      assert a[0] == b[0];
      forall v
        ensures WithTemp(a[1..], v) == WithTemp(b[1..], v)
      {
        var p := if u == v then [a[0]] else [];
        assert WithTemp(a, v) == p + WithTemp(a[1..], v);
        assert WithTemp(b, v) == p + WithTemp(b[1..], v);
        assert WithTemp(a[1..], v) == WithTemp(a, v)[|p|..];
        assert WithTemp(b[1..], v) == WithTemp(b, v)[|p|..];
      }
      SameTiesSameOrder(a[1..], b[1..]);
      assert a == [a[0]] + a[1..] && b == [b[0]] + b[1..];
    } else if a != [] {
      WithTempOfMember(a, 0);
      assert false;
    } else {
      WithTempOfMember(b, 0);
      assert false;
    }
  }

  /** Under equal tie classes, the first entry of a sorted `b` is at least as hot as that of `a`. */
  lemma HottestFirst(a: seq<Day>, b: seq<Day>)
    requires a != [] && b != []
    requires NonIncreasing(b)
    requires forall v :: WithTemp(a, v) == WithTemp(b, v)
    ensures b[0].temp >= a[0].temp
  {
    WithTempOfMember(a, 0);
    var t := WithTemp(b, a[0].temp);
    assert t != [];
    WithTempMembers(b, a[0].temp);
    assert t[0] in b;
    var k :| 0 <= k < |b| && b[k] == t[0];
  }

  /** The stable descending order of a series is unique, and it is `SortByTemp`'s. */
  lemma StableDescendingSortUnique(r: seq<Day>, s: seq<Day>)
    requires IsStableDescendingSort(r, s)
    ensures r == SortByTemp(s)
  {
    SortByTempIsStable(s);
    SameTiesSameOrder(r, SortByTemp(s));
  }

  /** The default number of days `top_x_days` returns. */
  const DefaultTopDays: nat := 5

  /**
    The `n` hottest days, hottest first, ties in series order; the whole
    series, reordered, when it has fewer than `n` days.
   */
  function TopXDays(s: seq<Day>, n: nat): (r: seq<Day>)
    ensures |r| == if n < |s| then n else |s|
    ensures n >= |s| ==> multiset(r) == multiset(s)
  {
    var k := if n < |s| then n else |s|;
    assert SortByTemp(s) == SortByTemp(s)[..k] + SortByTemp(s)[k..];
    SortByTemp(s)[..k]
  }

  lemma {:induction false} WithTempOfPrefix(s: seq<Day>, k: nat, v: real)
    requires k <= |s|
    ensures WithTemp(s[..k], v) <= WithTemp(s, v)
  {
    if k > 0 {
      assert s[..k][1..] == s[1..][..k - 1];
      WithTempOfPrefix(s[1..], k - 1, v);
    }
  }

  /** In a non-increasing sequence every entry after position `k` is at most as hot as every entry before it. */
  lemma PrefixDominates(q: seq<Day>, k: nat)
    requires NonIncreasing(q) && k <= |q|
    ensures forall x, y :: x in q[k..] && y in q[..k] ==> x.temp <= y.temp
  {
  }

  /**
    The order `top_x_days` returns: hottest first, and among days of one
    temperature the earliest ones of the series, in series order; with
    `n` at least the length, the stable descending sort of the whole series.
   */
  lemma TopXDaysOrder(s: seq<Day>, n: nat)
    ensures NonIncreasing(TopXDays(s, n))
    ensures forall v :: WithTemp(TopXDays(s, n), v) <= WithTemp(s, v)
    ensures n >= |s| ==> IsStableDescendingSort(TopXDays(s, n), s)
  {
    var q := SortByTemp(s);
    var k := if n < |s| then n else |s|;
    var r := TopXDays(s, n);
    SortByTempIsStable(s);
    assert r == q[..k];
    forall i, j | 0 <= i < j < |r|
      ensures r[i].temp >= r[j].temp
    {
      assert r[i] == q[i] && r[j] == q[j];
    }
    forall v
      ensures WithTemp(r, v) <= WithTemp(s, v)
    {
      WithTempOfPrefix(q, k, v);
    }
    if n >= |s| {
      assert r == q;
    }
  }

  /**
    The days `top_x_days` selects: they are taken from the series (as a
    multiset), and no day left out is hotter than any day kept.
   */
  lemma TopXDaysChoice(s: seq<Day>, n: nat)
    ensures multiset(TopXDays(s, n)) <= multiset(s)
    ensures forall x, y :: x in multiset(s) - multiset(TopXDays(s, n)) && y in TopXDays(s, n) ==>
              x.temp <= y.temp
  {
    var q := SortByTemp(s);
    var k := if n < |s| then n else |s|;
    var r := TopXDays(s, n);
    SortByTempIsStable(s);
    assert r == q[..k];
    LeftOutIsTail(q, k);
    PrefixDominates(q, k);
  }

  /** What a prefix leaves out of a sequence, as a multiset, is its tail. */
  lemma LeftOutIsTail(q: seq<Day>, k: nat)
    requires k <= |q|
    ensures multiset(q[..k]) <= multiset(q)
    ensures multiset(q) - multiset(q[..k]) == multiset(q[k..])
    ensures forall x :: x in multiset(q) - multiset(q[..k]) ==> x in q[k..]
  {
    assert q == q[..k] + q[k..];
    assert multiset(q) == multiset(q[..k]) + multiset(q[k..]);
  }

  // ---------------------------------------------------------------------
  // Sum and average
  // ---------------------------------------------------------------------

  /** The sum of the temperatures, accumulated from the first day to the last. */
  function Sum(s: seq<Day>): real
  {
    if s == [] then 0.0 else Sum(s[..|s| - 1]) + s[|s| - 1].temp
  }

  lemma {:induction false} SumBounds(s: seq<Day>, lo: real, hi: real)
    requires forall i :: 0 <= i < |s| ==> lo <= s[i].temp <= hi
    ensures |s| as real * lo <= Sum(s) <= |s| as real * hi
  {
    if s != [] {
      SumBounds(s[..|s| - 1], lo, hi);
    }
  }

  /** The average of a non-empty series lies between its coldest and hottest day. */
  lemma AverageWithinRange(s: seq<Day>, lo: real, hi: real)
    requires |s| > 0
    requires forall i :: 0 <= i < |s| ==> lo <= s[i].temp <= hi
    ensures lo <= Sum(s) / |s| as real <= hi
  {
    SumBounds(s, lo, hi);
  }
}
