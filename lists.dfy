/** The Python list operations the components use on column-name lists. */
module Lists {
  import opened Outcomes

  /** The elements of `xs` that are not in `ys`, in the order of `xs`
      (a Python comprehension `[x for x in xs if x not in ys]`).
      Defined from the back, the way a loop that appends builds it. */
  function Without<T(==)>(xs: seq<T>, ys: seq<T>): seq<T>
  {
    if xs == [] then []
    else Without(xs[..|xs| - 1], ys) + (if xs[|xs| - 1] in ys then [] else [xs[|xs| - 1]])
  }

  /** `Without` keeps exactly the elements of `xs` that `ys` lacks. */
  lemma {:induction false} WithoutMembers<T>(xs: seq<T>, ys: seq<T>)
    ensures forall x :: x in Without(xs, ys) <==> x in xs && x !in ys
  {
    if xs != [] {
      WithoutMembers(xs[..|xs| - 1], ys);
      assert xs == xs[..|xs| - 1] + [xs[|xs| - 1]];
    }
  }

  /** `Without` works element by element and keeps the order of `xs`:
      filtering a concatenation is concatenating the filtered parts. */
  lemma {:induction false} WithoutAppend<T>(a: seq<T>, b: seq<T>, ys: seq<T>)
    ensures Without(a + b, ys) == Without(a, ys) + Without(b, ys)
    decreases |b|
  {
    if b == [] {
      assert a + b == a;
    } else {
      var n := |b| - 1;
      assert (a + b)[..|a + b| - 1] == a + b[..n];
      assert (a + b)[|a + b| - 1] == b[n];
      WithoutAppend(a, b[..n], ys);
    }
  }

  /** No element occurs twice. */
  predicate Distinct<T(==)>(s: seq<T>)
  {
    forall i, j :: 0 <= i < j < |s| ==> s[i] != s[j]
  }

  /** Filtering a list without repetitions gives a list without repetitions. */
  lemma {:induction false} WithoutDistinct<T>(xs: seq<T>, ys: seq<T>)
    requires Distinct(xs)
    ensures Distinct(Without(xs, ys))
  {
    if xs != [] {
      var n := |xs| - 1;
      var w := Without(xs[..n], ys);
      WithoutDistinct(xs[..n], ys);
      WithoutMembers(xs[..n], ys);
      if xs[n] !in ys {
        var v := w + [xs[n]];
        assert Without(xs, ys) == v;
        assert xs[n] !in w by {
          assert xs[n] !in xs[..n];
        }
        forall i, j | 0 <= i < j < |v| ensures v[i] != v[j] {
          assert v[i] == w[i];
          if j == |w| {
            assert w[i] in w;
          } else {
            assert v[j] == w[j];
          }
        }
      } else {
        assert Without(xs, ys) == w + [] == w;
      }
    }
  }

  /** Nothing is left out exactly when every element of `xs` is in `ys`. */
  lemma WithoutEmpty<T>(xs: seq<T>, ys: seq<T>)
    ensures Without(xs, ys) == [] <==> forall x :: x in xs ==> x in ys
  {
    WithoutMembers(xs, ys);
    if Without(xs, ys) != [] {
      assert Without(xs, ys)[0] in Without(xs, ys);
    }
  }

  /** Where `x` first occurs in `s` (`list.index`), or `|s|` when it does not occur. */
  function FirstIndex<T(==)>(s: seq<T>, x: T): (i: nat)
    ensures i <= |s|
    ensures i < |s| ==> s[i] == x
    ensures x !in s[..i]
  {
    if s == [] || s[0] == x then 0
    else
      var j := FirstIndex(s[1..], x);
      assert s[..j + 1] == [s[0]] + s[1..][..j];
      j + 1
  }

  /** `list.remove(x)`: the list without the FIRST occurrence of `x`; `None` where Python
      raises `ValueError` because `x` does not occur. */
  function RemoveFirst<T(==)>(s: seq<T>, x: T): (r: Option<seq<T>>)
    ensures r.None? <==> x !in s
    ensures r.Some? ==> exists i :: 0 <= i < |s| && s[i] == x && x !in s[..i] && r.value == s[..i] + s[i + 1..]
  {
    var i := FirstIndex(s, x);
    if i == |s| then
      assert s[..i] == s;
      None
    else Some(s[..i] + s[i + 1..])
  }
}
