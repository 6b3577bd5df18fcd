/** The array updaters the pages pass to their state setters: the include/filter/append
    toggle (expanded categories, product colours and sizes) and removal by index. */
module SeqOps {

  predicate NoDuplicates<T(==,!new)>(xs: seq<T>)
  {
    forall i, j :: 0 <= i < j < |xs| ==> xs[i] != xs[j]
  }

  /** `xs.filter(y => y !== x)`. */
  function Without<T(==,!new)>(xs: seq<T>, x: T): (r: seq<T>)
    ensures x !in r
    ensures forall y :: y != x ==> (y in r <==> y in xs)
    ensures |r| <= |xs|
    ensures x !in xs ==> r == xs
  {
    if xs == [] then []
    else if xs[0] == x then Without(xs[1..], x)
    else [xs[0]] + Without(xs[1..], x)
  }

  /** `xs.includes(x) ? xs.filter(y => y !== x) : [...xs, x]`. */
  function Toggle<T(==,!new)>(xs: seq<T>, x: T): (r: seq<T>)
    ensures x in r <==> x !in xs
    ensures forall y :: y != x ==> (y in r <==> y in xs)
    ensures x !in xs ==> r == xs + [x]
  {
    if x in xs then Without(xs, x) else xs + [x]
  }

  /** The tail of a duplicate-free list is duplicate-free and does not hold its head. */
  lemma TailNoDuplicates<T(!new)>(xs: seq<T>)
    requires xs != [] && NoDuplicates(xs)
    ensures NoDuplicates(xs[1..]) && xs[0] !in xs[1..]
  {
    forall i, j | 0 <= i < j < |xs[1..]| ensures xs[1..][i] != xs[1..][j] {
      assert xs[1..][i] == xs[i + 1] && xs[1..][j] == xs[j + 1];
    }
    forall k | 0 <= k < |xs[1..]| ensures xs[1..][k] != xs[0] {
      assert xs[1..][k] == xs[k + 1];
    }
  }

  /** Filtering a list without duplicates keeps it free of duplicates. */
  lemma {:induction false} WithoutKeepsNoDuplicates<T(!new)>(xs: seq<T>, x: T)
    requires NoDuplicates(xs)
    ensures NoDuplicates(Without(xs, x))
    decreases |xs|
  {
    if xs != [] {
      TailNoDuplicates(xs);
      WithoutKeepsNoDuplicates(xs[1..], x);
      if xs[0] != x {
        assert xs[0] !in Without(xs[1..], x);
      }
    }
  }

  /** Toggling keeps a selection free of duplicates. */
  lemma ToggleKeepsNoDuplicates<T(!new)>(xs: seq<T>, x: T)
    requires NoDuplicates(xs)
    ensures NoDuplicates(Toggle(xs, x))
  {
    if x in xs {
      WithoutKeepsNoDuplicates(xs, x);
    }
  }

  /** Filtering a concatenation filters each part. */
  lemma {:induction false} WithoutConcat<T(!new)>(a: seq<T>, b: seq<T>, x: T)
    ensures Without(a + b, x) == Without(a, x) + Without(b, x)
    decreases |a|
  {
    if a == [] {
      assert a + b == b;
    } else {
      assert (a + b)[0] == a[0];
      assert (a + b)[1..] == a[1..] + b;
      WithoutConcat(a[1..], b, x);
    }
  }

  /** In a duplicate-free list, `xs[i]` occurs neither before nor after position `i`. */
  lemma SingleIsolated<T(!new)>(xs: seq<T>, i: nat)
    requires i < |xs| && NoDuplicates(xs)
    ensures xs[i] !in xs[..i] && xs[i] !in xs[i + 1..]
  {
    var left, right := xs[..i], xs[i + 1..];
    forall k | 0 <= k < |left| ensures left[k] != xs[i] {
      assert left[k] == xs[k];
    }
    forall k | 0 <= k < |right| ensures right[k] != xs[i] {
      assert right[k] == xs[i + 1 + k];
    }
  }

  /** Removing an element that occurs once keeps the others in order. */
  lemma WithoutSingle<T(!new)>(xs: seq<T>, i: nat)
    requires i < |xs| && NoDuplicates(xs)
    ensures Without(xs, xs[i]) == xs[..i] + xs[i + 1..]
  {
    var x, left, right := xs[i], xs[..i], xs[i + 1..];
    SingleIsolated(xs, i);
    assert xs == left + ([x] + right);
    WithoutConcat(left, [x] + right, x);
    WithoutConcat([x], right, x);
    assert Without([x], x) == [];
  }

  /** Toggling the same value twice gives back the selection it started from, when that
      value was not selected; a selected value comes back at the end of the list. */
  lemma ToggleTwice<T(!new)>(xs: seq<T>, x: T)
    ensures x !in xs ==> Toggle(Toggle(xs, x), x) == xs
    ensures x in xs ==> Toggle(Toggle(xs, x), x) == Without(xs, x) + [x]
  {
    if x !in xs {
      WithoutAppended(xs, x);
    }
  }

  lemma {:induction false} WithoutAppended<T(!new)>(xs: seq<T>, x: T)
    requires x !in xs
    ensures Without(xs + [x], x) == xs
    decreases |xs|
  {
    if xs == [] {
      assert [] + [x] == [x];
      assert [x][1..] == [];
    } else {
      assert (xs + [x])[0] == xs[0];
      assert (xs + [x])[1..] == xs[1..] + [x];
      WithoutAppended(xs[1..], x);
    }
  }

  /** `xs.filter((_, j) => j !== i)`. */
  function RemoveAt<T>(xs: seq<T>, i: nat): (r: seq<T>)
    ensures i < |xs| ==> |r| == |xs| - 1
    ensures i < |xs| ==> forall j :: 0 <= j < i ==> r[j] == xs[j]
    ensures i < |xs| ==> forall j :: i <= j < |r| ==> r[j] == xs[j + 1]
    ensures i >= |xs| ==> r == xs
  {
    if i < |xs| then xs[..i] + xs[i + 1..] else xs
  }
}
