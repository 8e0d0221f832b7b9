/** Ranking shared by both matchers: `Array.prototype.sort` with the comparator
    `(a, b) => b.score - a.score`, which is a stable sort in descending score order,
    the `slice(0, n)` that truncates a result page, and Python's `max(xs, key=...)`,
    which returns the first element of maximal key. */
module Ranking {

  datatype Scored<T> = Scored(item: T, score: int)

  predicate SortedDesc<T>(s: seq<Scored<T>>) {
    forall i, j :: 0 <= i < j < |s| ==> s[i].score >= s[j].score
  }

  /** The elements of `s` whose score is `k`, in their order in `s`. */
  function WithScore<T>(s: seq<Scored<T>>, k: int): seq<Scored<T>> {
    if s == [] then []
    else (if s[0].score == k then [s[0]] else []) + WithScore(s[1..], k)
  }

  lemma {:induction false} WithScoreAppend<T>(a: seq<Scored<T>>, b: seq<Scored<T>>, k: int)
    ensures WithScore(a + b, k) == WithScore(a, k) + WithScore(b, k)
  {
    if a == [] {
      assert a + b == b;
    } else {
      var head := if a[0].score == k then [a[0]] else [];
      assert (a + b)[0] == a[0];
      assert (a + b)[1..] == a[1..] + b;
      WithScoreAppend(a[1..], b, k);
      assert WithScore(a + b, k) == head + (WithScore(a[1..], k) + WithScore(b, k));
      assert WithScore(a, k) == head + WithScore(a[1..], k);
    }
  }

  lemma {:induction false} WithScoreAbsent<T>(s: seq<Scored<T>>, k: int)
    requires forall i :: 0 <= i < |s| ==> s[i].score != k
    ensures WithScore(s, k) == []
  {
    if s != [] {
      WithScoreAbsent(s[1..], k);
    }
  }

  /** Inserts `x` after every element whose score is at least `x.score`. */
  function Insert<T>(x: Scored<T>, s: seq<Scored<T>>): seq<Scored<T>> {
    if s == [] then [x]
    else if s[0].score >= x.score then [s[0]] + Insert(x, s[1..])
    else [x] + s
  }

  lemma {:induction false} InsertMultiset<T>(x: Scored<T>, s: seq<Scored<T>>)
    ensures multiset(Insert(x, s)) == multiset(s) + multiset{x}
  {
    if s != [] && s[0].score >= x.score {
      InsertMultiset(x, s[1..]);
      assert s == [s[0]] + s[1..];
    }
  }

  lemma {:induction false} InsertSorted<T>(x: Scored<T>, s: seq<Scored<T>>)
    requires SortedDesc(s)
    ensures SortedDesc(Insert(x, s))
  {
    if s != [] && s[0].score >= x.score {
      InsertSorted(x, s[1..]);
      InsertMultiset(x, s[1..]);
      var r := Insert(x, s);
      assert r == [s[0]] + Insert(x, s[1..]);
      forall j | 0 < j < |r| ensures r[0].score >= r[j].score {
        assert r[j] in multiset(Insert(x, s[1..]));
        assert r[j] in multiset(s[1..]) || r[j] == x;
      }
    }
  }

  lemma {:induction false} InsertWithScore<T>(x: Scored<T>, s: seq<Scored<T>>, k: int)
    requires SortedDesc(s)
    ensures WithScore(Insert(x, s), k) == WithScore(s, k) + (if x.score == k then [x] else [])
  {
    if s == [] {
    } else if s[0].score >= x.score {
      var r := Insert(x, s);
      assert SortedDesc(s[1..]);
      InsertWithScore(x, s[1..], k);
      assert r[0] == s[0] && r[1..] == Insert(x, s[1..]);
    } else {
      var r := Insert(x, s);
      assert r[0] == x && r[1..] == s;
      if x.score == k {
        forall i | 0 <= i < |s| ensures s[i].score != k {
          assert s[0].score >= s[i].score;
        }
        WithScoreAbsent(s, k);
      }
    }
  }

  /** The stable descending sort, inserting the elements from left to right. */
  function SortDesc<T>(s: seq<Scored<T>>): seq<Scored<T>> {
    if s == [] then [] else Insert(s[|s| - 1], SortDesc(s[..|s| - 1]))
  }

  /** The sort is non-increasing in score, a permutation of its input, and stable:
      for each score the elements carrying it keep their input order. */
  lemma {:induction false} SortDescCorrect<T>(s: seq<Scored<T>>)
    ensures SortedDesc(SortDesc(s))
    ensures multiset(SortDesc(s)) == multiset(s)
    ensures forall k :: WithScore(SortDesc(s), k) == WithScore(s, k)
  {
    if s != [] {
      var init, last := s[..|s| - 1], s[|s| - 1];
      assert s == init + [last];
      SortDescCorrect(init);
      InsertSorted(last, SortDesc(init));
      InsertMultiset(last, SortDesc(init));
      forall k ensures WithScore(SortDesc(s), k) == WithScore(s, k) {
        InsertWithScore(last, SortDesc(init), k);
        WithScoreAppend(init, [last], k);
      }
    }
  }

  /** `s.slice(0, n)`. */
  function Take<T>(s: seq<T>, n: nat): (r: seq<T>)
    ensures |r| <= n && |r| <= |s|
    ensures r == s[..|r|]
    ensures |s| <= n ==> r == s
    ensures n <= |s| ==> |r| == n
  {
    if |s| <= n then s else s[..n]
  }

  /** Keeping the first three of at most three items and at most one more keeps every
      one of the three, and the last only when there is room for it. */
  lemma CutAfterThree<T>(pushed: seq<T>, last: seq<T>)
    requires |pushed| <= 3 && |last| <= 1
    ensures forall x :: x in Take(pushed + last, 3) <==> x in pushed || (|pushed| < 3 && x in last)
  {
    if |pushed| == 3 {
      assert Take(pushed + last, 3) == pushed;
    } else {
      assert Take(pushed + last, 3) == pushed + last;
    }
  }

  /** The keys strictly increase along the list. */
  predicate KeysIncrease<T>(s: seq<T>, key: T -> nat) {
    forall i, j :: 0 <= i < j < |s| ==> key(s[i]) < key(s[j])
  }

  /** Items of smaller keys followed by items of larger keys keep the keys increasing. */
  lemma KeysIncreaseAppend<T>(a: seq<T>, b: seq<T>, key: T -> nat)
    requires KeysIncrease(a, key) && KeysIncrease(b, key)
    requires forall i, j :: 0 <= i < |a| && 0 <= j < |b| ==> key(a[i]) < key(b[j])
    ensures KeysIncrease(a + b, key)
  {
  }

  /** Cutting a list keeps its keys increasing. */
  lemma KeysIncreasePrefix<T>(s: seq<T>, n: nat, key: T -> nat)
    requires KeysIncrease(s, key)
    ensures KeysIncrease(Take(s, n), key)
  {
    var t := Take(s, n);
    assert forall i :: 0 <= i < |t| ==> t[i] == s[i];
  }

  /** Four tests, each contributing at most one item whose key is the test's position,
      give items of increasing keys, also when cut to three. */
  lemma StagesIncrease<T>(a: seq<T>, b: seq<T>, c: seq<T>, d: seq<T>, key: T -> nat)
    requires |a| <= 1 && |b| <= 1 && |c| <= 1 && |d| <= 1
    requires forall i :: 0 <= i < |a| ==> key(a[i]) == 0
    requires forall i :: 0 <= i < |b| ==> key(b[i]) == 1
    requires forall i :: 0 <= i < |c| ==> key(c[i]) == 2
    requires forall i :: 0 <= i < |d| ==> key(d[i]) == 3
    ensures KeysIncrease(Take(a + b + c + d, 3), key)
  {
    KeysIncreaseAppend(a, b, key);
    var front := a + b;
    assert forall i :: 0 <= i < |front| ==> key(front[i]) <= 1;
    KeysIncreaseAppend(front, c, key);
    var pushed := front + c;
    assert forall i :: 0 <= i < |pushed| ==> key(pushed[i]) <= 2;
    KeysIncreaseAppend(pushed, d, key);
    KeysIncreasePrefix(pushed + d, 3, key);
  }

  /** The first `n` of the sorted list are elements of the list. */
  lemma TopMembers<T>(s: seq<Scored<T>>, n: nat)
    ensures forall i :: 0 <= i < |Take(SortDesc(s), n)| ==> Take(SortDesc(s), n)[i] in s
  {
    SortDescCorrect(s);
    var sorted := SortDesc(s);
    var top := Take(sorted, n);
    forall i | 0 <= i < |top| ensures top[i] in s {
      assert top[i] == sorted[i];
      assert sorted[i] in multiset(sorted);
    }
  }

  /** The first `n` of a sorted list are sorted, and a bound on every score of the input
      bounds every score of the sorted prefix. */
  lemma TopSorted<T>(s: seq<Scored<T>>, n: nat, bound: int)
    requires forall i :: 0 <= i < |s| ==> s[i].score <= bound
    ensures SortedDesc(Take(SortDesc(s), n))
    ensures forall i :: 0 <= i < |Take(SortDesc(s), n)| ==> Take(SortDesc(s), n)[i].score <= bound
  {
    SortDescCorrect(s);
    var sorted := SortDesc(s);
    var top := Take(sorted, n);
    forall i | 0 <= i < |top| ensures top[i].score <= bound {
      assert top[i] == sorted[i];
      assert sorted[i] in multiset(s);
    }
  }

  /** Index of the first element of maximal key, scanning from `i` with `best` the
      running choice, exactly as Python's `max` keeps the first of equal maxima. */
  function FirstMaxFrom<T>(s: seq<T>, key: T -> real, i: nat, best: nat): (r: nat)
    requires best < i <= |s|
    requires forall j :: 0 <= j < i ==> key(s[j]) <= key(s[best])
    requires forall j :: 0 <= j < best ==> key(s[j]) < key(s[best])
    ensures r < |s|
    ensures forall j :: 0 <= j < |s| ==> key(s[j]) <= key(s[r])
    ensures forall j :: 0 <= j < r ==> key(s[j]) < key(s[r])
    decreases |s| - i
  {
    if i == |s| then best
    else if key(s[i]) > key(s[best]) then FirstMaxFrom(s, key, i + 1, i)
    else FirstMaxFrom(s, key, i + 1, best)
  }

  /** `max(s, key=key)` on a non-empty sequence, as an index. */
  function FirstMax<T>(s: seq<T>, key: T -> real): (r: nat)
    requires |s| > 0
    ensures r < |s|
    ensures forall j :: 0 <= j < |s| ==> key(s[j]) <= key(s[r])
    ensures forall j :: 0 <= j < r ==> key(s[j]) < key(s[r])
  {
    FirstMaxFrom(s, key, 1, 0)
  }
}
