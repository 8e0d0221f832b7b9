/** Sequence combinators shared by the models: `Array.prototype.filter`, `.flat()`
    and counting, with the facts about them that the service proofs use. */
module Lists {

  /** `s.filter(p)`: the elements satisfying `p`, in their order in `s`. */
  function Filter<T>(s: seq<T>, p: T -> bool): (r: seq<T>)
    ensures |r| <= |s|
  {
    if s == [] then []
    else (if p(s[0]) then [s[0]] else []) + Filter(s[1..], p)
  }

  /** The filtered list holds exactly the elements of `s` that satisfy `p`. */
  lemma {:induction false} FilterMembers<T>(s: seq<T>, p: T -> bool)
    ensures forall i :: 0 <= i < |Filter(s, p)| ==> Filter(s, p)[i] in s && p(Filter(s, p)[i])
    ensures forall i :: 0 <= i < |s| && p(s[i]) ==> s[i] in Filter(s, p)
  {
    if s != [] {
      FilterMembers(s[1..], p);
      assert forall i :: 1 <= i < |s| ==> s[i] == s[1..][i - 1];
    }
  }

  /** Filtering with two predicates that agree everywhere gives the same list. */
  lemma {:induction false} FilterExt<T>(s: seq<T>, p: T -> bool, q: T -> bool)
    requires forall x :: p(x) == q(x)
    ensures Filter(s, p) == Filter(s, q)
  {
    if s != [] {
      FilterExt(s[1..], p, q);
    }
  }

  /** Filtering twice is filtering once with the conjunction. */
  lemma {:induction false} FilterFilter<T>(s: seq<T>, p: T -> bool, q: T -> bool, pq: T -> bool)
    requires forall x :: pq(x) == (p(x) && q(x))
    ensures Filter(Filter(s, p), q) == Filter(s, pq)
  {
    if s != [] {
      FilterFilter(s[1..], p, q, pq);
      var rest := Filter(s[1..], p);
      if p(s[0]) {
        assert Filter(s, p) == [s[0]] + rest;
        assert (Filter(s, p))[1..] == rest;
      } else {
        assert Filter(s, p) == rest;
      }
    }
  }

  /** Filtering distributes over concatenation. */
  lemma {:induction false} FilterAppend<T>(a: seq<T>, b: seq<T>, p: T -> bool)
    ensures Filter(a + b, p) == Filter(a, p) + Filter(b, p)
  {
    if a == [] {
      assert a + b == b;
    } else {
      FilterAppend(a[1..], b, p);
      assert (a + b)[1..] == a[1..] + b;
      var head := if p(a[0]) then [a[0]] else [];
      assert Filter(a + b, p) == head + Filter(a[1..] + b, p);
      AppendAssoc(head, Filter(a[1..], p), Filter(b, p));
    }
  }

  /** The positions of `s` whose element satisfies `p`, in increasing order. */
  function Positions<T>(s: seq<T>, p: T -> bool): (ix: seq<nat>)
    ensures forall k :: 0 <= k < |ix| ==> ix[k] < |s| && p(s[ix[k]])
    ensures forall k, l :: 0 <= k < l < |ix| ==> ix[k] < ix[l]
    ensures forall i :: 0 <= i < |s| && p(s[i]) ==> i in ix
    decreases |s|
  {
    if s == [] then []
    else
      var init := Positions(s[..|s| - 1], p);
      assert forall i :: 0 <= i < |s| - 1 ==> s[..|s| - 1][i] == s[i];
      init + (if p(s[|s| - 1]) then [|s| - 1] else [])
  }

  /** `s.filter(p)` lists the elements at the satisfying positions, in order: one entry
      per position, so repeated elements are kept as often as they occur. */
  lemma {:induction false} FilterPositions<T>(s: seq<T>, p: T -> bool)
    ensures |Filter(s, p)| == |Positions(s, p)|
    ensures forall k :: 0 <= k < |Filter(s, p)| ==> Filter(s, p)[k] == s[Positions(s, p)[k]]
    decreases |s|
  {
    if s != [] {
      var init, last := s[..|s| - 1], s[|s| - 1];
      FilterPositions(init, p);
      assert s == init + [last];
      FilterAppend(init, [last], p);
      assert Filter([last], p) == if p(last) then [last] else [] by {
        assert [last][1..] == [];
      }
    }
  }

  /** Concatenation regroups freely. */
  lemma AppendAssoc<T>(a: seq<T>, b: seq<T>, c: seq<T>)
    ensures a + (b + c) == (a + b) + c
  {
  }

  /** A predicate every element satisfies removes nothing. */
  lemma {:induction false} FilterAll<T>(s: seq<T>, p: T -> bool)
    requires forall i :: 0 <= i < |s| ==> p(s[i])
    ensures Filter(s, p) == s
  {
    if s != [] {
      FilterAll(s[1..], p);
    }
  }

  /** Number of elements of `s` satisfying `p` (`s.filter(p).length`). */
  function Count<T(==)>(s: seq<T>, p: T -> bool): (n: nat)
    ensures n <= |s|
    ensures n == |Filter(s, p)|
    ensures n == |s| <==> forall i :: 0 <= i < |s| ==> p(s[i])
    ensures n == 0 <==> forall i :: 0 <= i < |s| ==> !p(s[i])
  {
    if s == [] then 0
    else
      var rest := Count(s[1..], p);
      assert forall i :: 1 <= i < |s| ==> s[i] == s[1..][i - 1];
      (if p(s[0]) then 1 else 0) + rest
  }

  /** `s.some(p)`. */
  predicate Some<T>(s: seq<T>, p: T -> bool) {
    exists i :: 0 <= i < |s| && p(s[i])
  }

  /** `xss.flat()`: the lists one after another. */
  function Flatten<T(==)>(xss: seq<seq<T>>): (r: seq<T>)
    ensures forall k, i :: 0 <= k < |xss| && 0 <= i < |xss[k]| ==> xss[k][i] in r
    ensures forall i :: 0 <= i < |r| ==> exists k :: 0 <= k < |xss| && r[i] in xss[k]
    ensures xss != [] ==> xss[0] <= r
    ensures |xss| == 1 ==> r == xss[0]
  {
    if xss == [] then []
    else
      var rest := Flatten(xss[1..]);
      assert forall k :: 1 <= k < |xss| ==> xss[k] == xss[1..][k - 1];
      xss[0] + rest
  }

  /** Flattening two lists of lists one after the other is flattening each and
      concatenating the results. */
  lemma {:induction false} FlattenAppend<T>(xss: seq<seq<T>>, yss: seq<seq<T>>)
    ensures Flatten(xss + yss) == Flatten(xss) + Flatten(yss)
  {
    if xss != [] {
      assert (xss + yss)[1..] == xss[1..] + yss;
      FlattenAppend(xss[1..], yss);
    } else {
      assert xss + yss == yss;
    }
  }

  /** No element occurs twice. */
  predicate Distinct<T(==)>(s: seq<T>) {
    forall i, j :: 0 <= i < j < |s| ==> s[i] != s[j]
  }

  /** `if (cond) list.push(x)`: the list gains `x` exactly when `cond` holds. */
  function PushIf<T(==,!new)>(acc: seq<T>, cond: bool, x: T): (r: seq<T>)
    ensures forall y :: y in r <==> y in acc || (cond && y == x)
    ensures Distinct(acc) && x !in acc ==> Distinct(r)
    ensures acc <= r && |r| <= |acc| + 1
  {
    if cond then acc + [x] else acc
  }

  /** Filtering by a predicate and by its negation splits a list: the two results
      together are a permutation of it. */
  lemma {:induction false} FilterPartition<T>(s: seq<T>, p: T -> bool, q: T -> bool)
    requires forall x :: q(x) == !p(x)
    ensures multiset(Filter(s, p)) + multiset(Filter(s, q)) == multiset(s)
  {
    if s != [] {
      FilterPartition(s[1..], p, q);
      var head, tail := s[0], s[1..];
      assert s == [head] + tail;
      if p(head) {
        assert Filter(s, p) == [head] + Filter(tail, p);
        assert Filter(s, q) == Filter(tail, q);
      } else {
        assert Filter(s, p) == Filter(tail, p);
        assert Filter(s, q) == [head] + Filter(tail, q);
      }
    }
  }

  /** `s.map(f)`. */
  function Map<A, B>(s: seq<A>, f: A -> B): (r: seq<B>)
    ensures |r| == |s|
    ensures forall i :: 0 <= i < |s| ==> r[i] == f(s[i])
  {
    seq(|s|, i requires 0 <= i < |s| => f(s[i]))
  }

  /** The image of every element satisfying `p` is in `s.filter(p).map(f)`. */
  lemma MapFilterComplete<A, B>(s: seq<A>, p: A -> bool, f: A -> B)
    ensures forall j :: 0 <= j < |s| && p(s[j]) ==> f(s[j]) in Map(Filter(s, p), f)
  {
    var kept := Filter(s, p);
    var r := Map(kept, f);
    FilterMembers(s, p);
    forall j | 0 <= j < |s| && p(s[j]) ensures f(s[j]) in r {
      var i :| 0 <= i < |kept| && kept[i] == s[j];
      assert r[i] == f(s[j]);
    }
  }
}
