/** Sums over finite sets, and the option and result types the other modules share. */
module Collections {

  datatype Option<+T> = None | Some(value: T)

  datatype Result<+T, +E> = Ok(value: T) | Err(error: E)

  ghost function Sum<T(!new)>(xs: set<T>, f: T -> nat): (total: nat)
    decreases |xs|
  {
    if xs == {} then 0
    else
      var x :| x in xs;
      f(x) + Sum(xs - {x}, f)
  }

  // The element the definition of Sum happens to pick does not matter.
  lemma {:induction false} SumSplit<T(!new)>(xs: set<T>, f: T -> nat, x: T)
    requires x in xs
    ensures Sum(xs, f) == f(x) + Sum(xs - {x}, f)
    decreases |xs|
  {
    var y :| y in xs && Sum(xs, f) == f(y) + Sum(xs - {y}, f);
    if y != x {
      SumSplit(xs - {y}, f, x);
      SumSplit(xs - {x}, f, y);
      assert xs - {y} - {x} == xs - {x} - {y};
    }
  }

  lemma {:induction false} SumMonotone<T(!new)>(xs: set<T>, f: T -> nat, g: T -> nat)
    requires forall x :: x in xs ==> f(x) <= g(x)
    ensures Sum(xs, f) <= Sum(xs, g)
    decreases |xs|
  {
    if xs != {} {
      var x :| x in xs;
      SumSplit(xs, f, x);
      SumSplit(xs, g, x);
      SumMonotone(xs - {x}, f, g);
    }
  }

  // If one term falls by at least gap and no term rises, the sum falls by at least gap.
  lemma SumFalls<T(!new)>(xs: set<T>, f: T -> nat, g: T -> nat, x: T, gap: nat)
    requires x in xs && f(x) + gap <= g(x)
    requires forall y :: y in xs ==> f(y) <= g(y)
    ensures Sum(xs, f) + gap <= Sum(xs, g)
  {
    SumSplit(xs, f, x);
    SumSplit(xs, g, x);
    SumMonotone(xs - {x}, f, g);
  }

  lemma {:induction false} SumOfZeros<T(!new)>(xs: set<T>, f: T -> nat)
    requires forall x :: x in xs ==> f(x) == 0
    ensures Sum(xs, f) == 0
    decreases |xs|
  {
    if xs != {} {
      var x :| x in xs;
      SumSplit(xs, f, x);
      SumOfZeros(xs - {x}, f);
    }
  }

  lemma SumExtend<T(!new)>(xs: set<T>, f: T -> nat, g: T -> nat, x: T)
    requires x !in xs
    requires forall y :: y in xs ==> f(y) == g(y)
    ensures Sum(xs + {x}, f) == Sum(xs, g) + f(x)
  {
    SumSplit(xs + {x}, f, x);
    assert xs + {x} - {x} == xs;
    SumMonotone(xs, f, g);
    SumMonotone(xs, g, f);
  }

  lemma CardinalityMonotone<T>(a: set<T>, b: set<T>)
    requires a <= b
    ensures |a| <= |b|
  {
    assert b == a + (b - a);
  }

  // Random ids are modelled as ids not in use.
  lemma {:induction false} FreshExists(ids: set<nat>) returns (id: nat)
    ensures forall n :: n in ids ==> n < id
    decreases |ids|
  {
    if ids == {} {
      id := 0;
    } else {
      var n :| n in ids;
      var rest := FreshExists(ids - {n});
      id := if rest > n then rest else n + 1;
      forall m | m in ids ensures m < id {
        assert m == n || m in ids - {n};
      }
    }
  }
}
