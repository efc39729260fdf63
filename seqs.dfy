/** Sequence operations shared by several modules: JavaScript's insertion-ordered
    `Set` (`Array.from(new Set(xs))`), `Array.prototype.filter`, and the facts
    about them (no duplicates, same elements, first-occurrence order, subsequence). */
module Seqs {

  predicate NoDup<T(==)>(s: seq<T>) {
    forall i, j :: 0 <= i < j < |s| ==> s[i] != s[j]
  }

  /** Adds each element of xs to the insertion-ordered set acc, as `Set.add` does. */
  function AddAll<T(==)>(acc: seq<T>, xs: seq<T>): seq<T>
    decreases |xs|
  {
    if xs == [] then acc
    else AddAll(if xs[0] in acc then acc else acc + [xs[0]], xs[1..])
  }

  /** `Array.from(new Set(xs))`. */
  function Distinct<T(==)>(xs: seq<T>): seq<T> {
    AddAll([], xs)
  }

  lemma {:induction false} AddAllNoDup<T>(acc: seq<T>, xs: seq<T>)
    requires NoDup(acc)
    ensures NoDup(AddAll(acc, xs))
    decreases |xs|
  {
    if xs != [] {
      var acc' := if xs[0] in acc then acc else acc + [xs[0]];
      AddAllNoDup(acc', xs[1..]);
    }
  }

  lemma {:induction false} AddAllElements<T>(acc: seq<T>, xs: seq<T>, x: T)
    ensures x in AddAll(acc, xs) <==> x in acc || x in xs
    decreases |xs|
  {
    if xs != [] {
      var acc' := if xs[0] in acc then acc else acc + [xs[0]];
      AddAllElements(acc', xs[1..], x);
      assert xs == [xs[0]] + xs[1..];
    }
  }

  lemma {:induction false} AddAllSnoc<T>(acc: seq<T>, xs: seq<T>, y: T)
    ensures AddAll(acc, xs + [y]) ==
            (var r := AddAll(acc, xs); if y in r then r else r + [y])
    decreases |xs|
  {
    if xs == [] {
      assert AddAll(acc, [y]) == AddAll(if y in acc then acc else acc + [y], []);
    } else {
      var acc' := if xs[0] in acc then acc else acc + [xs[0]];
      assert (xs + [y])[0] == xs[0] && (xs + [y])[1..] == xs[1..] + [y];
      AddAllSnoc(acc', xs[1..], y);
    }
  }

  /** Distinct has no duplicates. */
  lemma DistinctNoDup<T>(xs: seq<T>)
    ensures NoDup(Distinct(xs))
  {
    AddAllNoDup([], xs);
  }

  /** Distinct keeps exactly the elements of its input. */
  lemma DistinctElements<T>(xs: seq<T>, x: T)
    ensures x in Distinct(xs) <==> x in xs
  {
    AddAllElements([], xs, x);
  }

  /** Extending the input by one element extends Distinct by that element exactly
      when it is new: earlier occurrences win. */
  lemma DistinctSnoc<T>(xs: seq<T>, y: T)
    ensures Distinct(xs + [y]) == if y in xs then Distinct(xs) else Distinct(xs) + [y]
  {
    AddAllSnoc([], xs, y);
    DistinctElements(xs, y);
  }

  /** The position of the first occurrence of x in xs. */
  function FirstIndex<T(==)>(xs: seq<T>, x: T): (k: nat)
    requires x in xs
    ensures k < |xs| && xs[k] == x && x !in xs[..k]
  {
    if xs[0] == x then 0 else 1 + FirstIndex(xs[1..], x)
  }

  lemma FirstIndexSnoc<T>(xs: seq<T>, y: T, x: T)
    requires x in xs
    ensures FirstIndex(xs + [y], x) == FirstIndex(xs, x)
  {
    var k := FirstIndex(xs, x);
    assert (xs + [y])[..k] == xs[..k];
    assert (xs + [y])[k] == x;
  }

  /** Distinct lists the elements in the order of their first occurrence. */
  lemma {:induction false} DistinctFirstOccurrenceOrder<T>(xs: seq<T>)
    ensures forall x :: x in Distinct(xs) ==> x in xs
    ensures forall i, j :: 0 <= i < j < |Distinct(xs)| ==>
              FirstIndex(xs, Distinct(xs)[i]) < FirstIndex(xs, Distinct(xs)[j])
    decreases |xs|
  {
    forall x | x in Distinct(xs) ensures x in xs { DistinctElements(xs, x); }
    if xs != [] {
      var n := |xs| - 1;
      var p, y := xs[..n], xs[n];
      assert xs == p + [y];
      DistinctFirstOccurrenceOrder(p);
      DistinctSnoc(p, y);
      var r := Distinct(p);
      forall i, j | 0 <= i < j < |Distinct(xs)|
        ensures FirstIndex(xs, Distinct(xs)[i]) < FirstIndex(xs, Distinct(xs)[j])
      {
        assert r[i] in p;
        FirstIndexSnoc(p, y, r[i]);
        if j < |r| {
          assert r[j] in p;
          FirstIndexSnoc(p, y, r[j]);
        } else {
          assert y !in p && Distinct(xs)[j] == y;
          assert FirstIndex(xs, y) == n;
        }
      }
    }
  }

  /** `xs.filter(p)`. */
  function Filter<T(==)>(xs: seq<T>, p: T -> bool): (r: seq<T>)
    ensures |r| <= |xs|
    ensures forall x :: x in r ==> x in xs && p(x)
  {
    if xs == [] then []
    else (if p(xs[0]) then [xs[0]] else []) + Filter(xs[1..], p)
  }

  lemma {:induction false} FilterKeeps<T>(xs: seq<T>, p: T -> bool, x: T)
    ensures x in Filter(xs, p) <==> x in xs && p(x)
  {
    if xs != [] {
      FilterKeeps(xs[1..], p, x);
      assert xs == [xs[0]] + xs[1..];
    }
  }

  lemma {:induction false} FilterAll<T>(xs: seq<T>, p: T -> bool)
    requires forall x :: x in xs ==> p(x)
    ensures Filter(xs, p) == xs
  {
    if xs != [] {
      assert xs[0] in xs;
      forall x | x in xs[1..] ensures p(x) { assert x in xs; }
      FilterAll(xs[1..], p);
    }
  }

  /** The head of `xs.filter(p)` is the first element of xs that satisfies p. */
  lemma {:induction false} FilterHead<T>(xs: seq<T>, p: T -> bool, i: nat)
    requires i < |xs| && p(xs[i])
    requires forall j :: 0 <= j < i ==> !p(xs[j])
    ensures Filter(xs, p) != [] && Filter(xs, p)[0] == xs[i]
  {
    if i > 0 {
      assert !p(xs[0]);
      forall j | 0 <= j < i - 1 ensures !p(xs[1..][j]) {
        assert xs[1..][j] == xs[j + 1];
      }
      FilterHead(xs[1..], p, i - 1);
    }
  }

  /** a can be obtained from b by deleting elements, keeping the order of the rest. */
  predicate Subsequence<T(==)>(a: seq<T>, b: seq<T>)
    decreases |b|
  {
    if a == [] then true
    else if b == [] then false
    else (a[0] == b[0] && Subsequence(a[1..], b[1..])) || Subsequence(a, b[1..])
  }

  lemma {:induction false} SubsequenceEmpty<T>(b: seq<T>)
    ensures Subsequence([], b)
  {
  }

  lemma {:induction false} FilterSubsequence<T>(xs: seq<T>, p: T -> bool)
    ensures Subsequence(Filter(xs, p), xs)
  {
    if xs != [] {
      FilterSubsequence(xs[1..], p);
      var r := Filter(xs[1..], p);
      if p(xs[0]) {
        assert Filter(xs, p) == [xs[0]] + r;
      } else {
        assert Filter(xs, p) == r;
        if r != [] {
          assert Subsequence(r, xs[1..]);
        }
      }
    }
  }

  /** Removes every occurrence of x: `xs.filter(c => c !== x)`. */
  function RemoveAll<T(==)>(xs: seq<T>, x: T): (r: seq<T>)
    ensures x !in r
    ensures forall y :: y in r ==> y in xs
    ensures forall y :: y in xs && y != x ==> y in r
  {
    if xs == [] then []
    else (if xs[0] != x then [xs[0]] else []) + RemoveAll(xs[1..], x)
  }

  lemma {:induction false} RemoveAllAbsent<T>(xs: seq<T>, x: T)
    requires x !in xs
    ensures RemoveAll(xs, x) == xs
  {
    if xs != [] {
      RemoveAllAbsent(xs[1..], x);
    }
  }

  /** The lists `f(x)` for the elements x of xs, concatenated in order: a loop that
      pushes each element's list onto one array. */
  function Flatten<A, B>(xs: seq<A>, f: A -> seq<B>): seq<B> {
    if xs == [] then [] else Flatten(xs[..|xs| - 1], f) + f(xs[|xs| - 1])
  }

  lemma {:induction false} FlattenConcat<A, B>(a: seq<A>, b: seq<A>, f: A -> seq<B>)
    ensures Flatten(a + b, f) == Flatten(a, f) + Flatten(b, f)
    decreases |b|
  {
    if b == [] {
      assert a + b == a;
    } else {
      var b' := b[..|b| - 1];
      assert (a + b)[..|a + b| - 1] == a + b';
      assert (a + b)[|a + b| - 1] == b[|b| - 1];
      FlattenConcat(a, b', f);
    }
  }

  lemma {:induction false} FlattenMember<A, B>(xs: seq<A>, f: A -> seq<B>, y: B)
    ensures y in Flatten(xs, f) <==> exists k :: 0 <= k < |xs| && y in f(xs[k])
  {
    if xs != [] {
      var init := xs[..|xs| - 1];
      FlattenMember(init, f, y);
      if y in Flatten(xs, f) && y !in f(xs[|xs| - 1]) {
        var k :| 0 <= k < |init| && y in f(init[k]);
        assert xs[k] == init[k];
      }
      if exists k :: 0 <= k < |xs| && y in f(xs[k]) {
        var k :| 0 <= k < |xs| && y in f(xs[k]);
        if k < |init| {
          assert init[k] == xs[k];
        }
      }
    }
  }
}
