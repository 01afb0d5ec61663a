/**
 * The array operations the pages use: finding the first match, and the two
 * filters that delete entries, by value (`xs.filter(y => y !== x)`) and by
 * position (`xs.filter((_, j) => j !== i)`).
 */
module Lists {
  import opened Wrappers

  /** `xs.findIndex(p)`: the position of the first element satisfying `p`, if any. */
  function FindFirst<T>(xs: seq<T>, p: T -> bool): (r: Option<nat>)
    ensures r.Some? ==> r.value < |xs| && p(xs[r.value])
    ensures r.Some? ==> forall j :: 0 <= j < r.value ==> !p(xs[j])
    ensures r.None? ==> forall j :: 0 <= j < |xs| ==> !p(xs[j])
  {
    if xs == [] then None
    else if p(xs[0]) then Some(0)
    else match FindFirst(xs[1..], p)
      case None => None
      case Some(i) => Some(i + 1)
  }

  /** No element occurs twice. */
  predicate NoDuplicates<T(==)>(xs: seq<T>) {
    forall i, j :: 0 <= i < j < |xs| ==> xs[i] != xs[j]
  }

  /** `xs.filter(y => y !== x)`: every copy of `x` is dropped and every other element kept, as often as it occurs. */
  function Without<T(==)>(xs: seq<T>, x: T): (r: seq<T>)
    ensures multiset(r) == multiset(xs)[x := 0]
  {
    if xs == [] then []
    else
      assert xs == [xs[0]] + xs[1..];
      if xs[0] == x then Without(xs[1..], x) else [xs[0]] + Without(xs[1..], x)
  }

  /** The survivors of the filter are exactly the elements different from `x`. */
  lemma WithoutMembers<T>(xs: seq<T>, x: T)
    ensures forall y :: y in Without(xs, x) <==> y in xs && y != x
  {
    forall y
      ensures y in Without(xs, x) <==> y in xs && y != x
    {
      assert y in Without(xs, x) <==> y in multiset(Without(xs, x));
      assert y in xs <==> y in multiset(xs);
    }
  }

  /** Filtering never lengthens a list, and shortens it when `x` occurs. */
  lemma {:induction false} WithoutShorter<T>(xs: seq<T>, x: T)
    ensures |Without(xs, x)| <= |xs|
    ensures x in xs ==> |Without(xs, x)| < |xs|
  {
    if xs != [] {
      WithoutShorter(xs[1..], x);
      assert x in xs ==> xs[0] == x || x in xs[1..];
    }
  }

  /** Filtering distributes over concatenation, so the survivors keep their relative order. */
  lemma {:induction false} WithoutAppend<T>(xs: seq<T>, ys: seq<T>, x: T)
    ensures Without(xs + ys, x) == Without(xs, x) + Without(ys, x)
  {
    if xs == [] {
      assert xs + ys == ys;
    } else {
      assert (xs + ys)[1..] == xs[1..] + ys;
      WithoutAppend(xs[1..], ys, x);
    }
  }

  /** Filtering out a value that does not occur changes nothing. */
  lemma {:induction false} WithoutAbsent<T>(xs: seq<T>, x: T)
    requires x !in xs
    ensures Without(xs, x) == xs
  {
    if xs != [] {
      WithoutAbsent(xs[1..], x);
      assert xs == [xs[0]] + xs[1..];
    }
  }

  /** Filtering keeps a list free of duplicates. */
  lemma {:induction false} WithoutNoDuplicates<T>(xs: seq<T>, x: T)
    requires NoDuplicates(xs)
    ensures NoDuplicates(Without(xs, x))
  {
    if xs != [] {
      WithoutNoDuplicates(xs[1..], x);
      WithoutMembers(xs[1..], x);
      assert xs[0] !in xs[1..] by {
        forall j | 0 <= j < |xs[1..]| ensures xs[1..][j] != xs[0] {
          assert xs[1..][j] == xs[j + 1];
        }
      }
      var rest := Without(xs[1..], x);
      if xs[0] != x {
        var r := [xs[0]] + rest;
        forall i, j | 0 <= i < j < |r| ensures r[i] != r[j] {
          if i == 0 {
            assert r[j] == rest[j - 1];
            assert rest[j - 1] in rest;
          } else {
            assert r[i] == rest[i - 1] && r[j] == rest[j - 1];
          }
        }
      }
    }
  }

  /** `xs.filter((_, j) => j !== i)`: the entry at `i` is dropped; an index past the end drops nothing. */
  function RemoveAt<T>(xs: seq<T>, i: nat): (r: seq<T>)
    ensures i < |xs| ==> |r| == |xs| - 1
    ensures i >= |xs| ==> r == xs
    ensures forall j :: 0 <= j < i && j < |r| ==> r[j] == xs[j]
    ensures forall j :: i <= j < |r| ==> r[j] == xs[j + 1]
  {
    if i < |xs| then xs[..i] + xs[i + 1..] else xs
  }

  /** Removing the entry that was just appended gives back the list before the append. */
  lemma RemoveAtUndoesAppend<T>(xs: seq<T>, x: T)
    ensures RemoveAt(xs + [x], |xs|) == xs
  {
    assert (xs + [x])[..|xs|] == xs;
  }

  /** Each of five joined pieces can be cut back out of the join at its own offsets. */
  lemma JoinSlices<T>(a: seq<T>, x: seq<T>, b: seq<T>, y: seq<T>, c: seq<T>)
    ensures var s := a + x + b + y + c;
      var i := |a| + |x|;
      var j := i + |b| + |y|;
      && |s| == j + |c|
      && s[..|a|] == a && s[|a|..i] == x && s[i..i + |b|] == b
      && s[i + |b|..j] == y && s[j..] == c
  {
    var s := a + x + b + y + c;
    var i := |a| + |x|;
    var j := i + |b| + |y|;
    assert s == (a + x) + (b + y) + c;
    assert s[..i] == a + x;
    assert s[i..j] == b + y;
  }
}
