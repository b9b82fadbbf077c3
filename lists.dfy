/** `Array.prototype.filter`, `find` and `reduce` over the lists the pages render. */
module Lists {
  import opened Wrappers

  /** `xs` is `ys` with some elements dropped and the rest in their original order. */
  ghost predicate IsSubsequence<T>(xs: seq<T>, ys: seq<T>)
    decreases |ys|
  {
    if xs == [] then true
    else if ys == [] then false
    else if xs[0] == ys[0] then IsSubsequence(xs[1..], ys[1..])
    else IsSubsequence(xs, ys[1..])
  }

  /** `xs.filter(p)`. */
  function Filter<T>(xs: seq<T>, p: T -> bool): (r: seq<T>)
    ensures |r| <= |xs|
    ensures forall i :: 0 <= i < |r| ==> r[i] in xs && p(r[i])
    ensures forall i :: 0 <= i < |xs| && p(xs[i]) ==> xs[i] in r
    ensures IsSubsequence(r, xs)
  {
    if xs == [] then []
    else if p(xs[0]) then [xs[0]] + Filter(xs[1..], p)
    else Filter(xs[1..], p)
  }

  lemma {:induction false} FilterAll<T>(xs: seq<T>, p: T -> bool)
    requires forall i :: 0 <= i < |xs| ==> p(xs[i])
    ensures Filter(xs, p) == xs
  {
    if xs != [] {
      FilterAll(xs[1..], p);
    }
  }

  lemma {:induction false} FilterNone<T>(xs: seq<T>, p: T -> bool)
    requires forall i :: 0 <= i < |xs| ==> !p(xs[i])
    ensures Filter(xs, p) == []
  {
    if xs != [] {
      FilterNone(xs[1..], p);
    }
  }

  lemma {:induction false} FilterAppend<T>(xs: seq<T>, ys: seq<T>, p: T -> bool)
    ensures Filter(xs + ys, p) == Filter(xs, p) + Filter(ys, p)
  {
    if xs == [] {
      assert xs + ys == ys;
    } else {
      assert (xs + ys)[0] == xs[0] && (xs + ys)[1..] == xs[1..] + ys;
      FilterAppend(xs[1..], ys, p);
      if p(xs[0]) {
        assert Filter(xs, p) == [xs[0]] + Filter(xs[1..], p);
      }
    }
  }

  /** `xs.filter(p).length`. */
  function Count<T>(xs: seq<T>, p: T -> bool): (n: nat)
    ensures n <= |xs|
  {
    |Filter(xs, p)|
  }

  lemma CountAppend<T>(xs: seq<T>, ys: seq<T>, p: T -> bool)
    ensures Count(xs + ys, p) == Count(xs, p) + Count(ys, p)
  {
    FilterAppend(xs, ys, p);
  }

  /** Counting under three predicates of which at most one holds of each
      element: the counts add up to at most the length, and to exactly the
      length when each element satisfies one of them. */
  lemma {:induction false} CountThree<T>(xs: seq<T>, p: T -> bool, q: T -> bool, r: T -> bool)
    requires forall i :: 0 <= i < |xs| ==> !(p(xs[i]) && q(xs[i])) && !(p(xs[i]) && r(xs[i])) && !(q(xs[i]) && r(xs[i]))
    ensures Count(xs, p) + Count(xs, q) + Count(xs, r) <= |xs|
    ensures (forall i :: 0 <= i < |xs| ==> p(xs[i]) || q(xs[i]) || r(xs[i])) ==>
      Count(xs, p) + Count(xs, q) + Count(xs, r) == |xs|
  {
    if xs != [] {
      assert forall i :: 0 <= i < |xs[1..]| ==> xs[1..][i] == xs[i + 1];
      CountThree(xs[1..], p, q, r);
    }
  }

  /** `xs.find(p)`: the first element satisfying `p`, if any. */
  function Find<T>(xs: seq<T>, p: T -> bool): (r: Option<T>)
    ensures r.None? <==> forall i :: 0 <= i < |xs| ==> !p(xs[i])
    ensures r.Some? ==> exists i :: 0 <= i < |xs| && xs[i] == r.value && p(xs[i])
                          && forall j :: 0 <= j < i ==> !p(xs[j])
  {
    if xs == [] then None
    else if p(xs[0]) then Some(xs[0])
    else
      var r := Find(xs[1..], p);
      assert r.Some? ==> exists i :: 1 <= i < |xs| && xs[i] == r.value && p(xs[i])
                           && forall j :: 1 <= j < i ==> !p(xs[j]) by {
        if r.Some? {
          var k :| 0 <= k < |xs[1..]| && xs[1..][k] == r.value && p(xs[1..][k])
                   && forall j :: 0 <= j < k ==> !p(xs[1..][j]);
          assert xs[k + 1] == r.value && p(xs[k + 1]);
          assert forall j :: 1 <= j < k + 1 ==> !p(xs[j]) by {
            forall j | 1 <= j < k + 1 ensures !p(xs[j]) { assert xs[j] == xs[1..][j - 1]; }
          }
        }
      }
      r
  }

  /** The plain right-to-left sum of `f` over `xs`. */
  function Sum<T>(xs: seq<T>, f: T -> real): real {
    if xs == [] then 0.0 else f(xs[0]) + Sum(xs[1..], f)
  }

  /** `xs.reduce((acc, x) => acc + f(x), acc)`: JavaScript's left fold. */
  function Reduce<T>(xs: seq<T>, f: T -> real, acc: real): real {
    if xs == [] then acc else Reduce(xs[1..], f, acc + f(xs[0]))
  }

  /** With exact arithmetic the left fold from 0 is the plain sum. */
  lemma {:induction false} ReduceIsSum<T>(xs: seq<T>, f: T -> real, acc: real)
    ensures Reduce(xs, f, acc) == acc + Sum(xs, f)
  {
    if xs != [] {
      ReduceIsSum(xs[1..], f, acc + f(xs[0]));
    }
  }

  lemma {:induction false} SumNonNegative<T>(xs: seq<T>, f: T -> real)
    requires forall i :: 0 <= i < |xs| ==> f(xs[i]) >= 0.0
    ensures Sum(xs, f) >= 0.0
  {
    if xs != [] {
      SumNonNegative(xs[1..], f);
    }
  }

  lemma {:induction false} SumAppend<T>(xs: seq<T>, ys: seq<T>, f: T -> real)
    ensures Sum(xs + ys, f) == Sum(xs, f) + Sum(ys, f)
  {
    if xs == [] {
      assert xs + ys == ys;
    } else {
      assert (xs + ys)[1..] == xs[1..] + ys;
      SumAppend(xs[1..], ys, f);
    }
  }
}
