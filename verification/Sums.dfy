/** Finite sums of integers over a set. */
module Sums {
  ghost function Sum<T(!new)>(s: set<T>, f: T -> int): int
    decreases |s|
  {
    if s == {} then 0 else var x :| x in s; f(x) + Sum(s - {x}, f)
  }

  lemma {:induction false} SumRemove<T(!new)>(s: set<T>, f: T -> int, x: T)
    requires x in s
    ensures Sum(s, f) == f(x) + Sum(s - {x}, f)
    decreases |s|
  {
    var y :| y in s && Sum(s, f) == f(y) + Sum(s - {y}, f);
    if y != x {
      SumRemove(s - {y}, f, x);
      SumRemove(s - {x}, f, y);
      assert s - {y} - {x} == s - {x} - {y};
    }
  }

  /** Equal, or ordered, summands give equal, or ordered, sums. */
  lemma {:induction false} SumMonotone<T(!new)>(s: set<T>, f: T -> int, g: T -> int)
    requires forall x :: x in s ==> f(x) <= g(x)
    ensures Sum(s, f) <= Sum(s, g)
    decreases |s|
  {
    if s != {} {
      var x :| x in s;
      SumRemove(s, f, x);
      SumRemove(s, g, x);
      SumMonotone(s - {x}, f, g);
    }
  }

  lemma SumEqual<T(!new)>(s: set<T>, f: T -> int, g: T -> int)
    requires forall x :: x in s ==> f(x) == g(x)
    ensures Sum(s, f) == Sum(s, g)
  {
    SumMonotone(s, f, g);
    SumMonotone(s, g, f);
  }

  /** Extending the index set where the summand is zero changes nothing. */
  lemma {:induction false} SumExtend<T(!new)>(s: set<T>, big: set<T>, f: T -> int)
    requires s <= big
    requires forall x :: x in big && x !in s ==> f(x) >= 0
    ensures Sum(s, f) <= Sum(big, f)
    ensures (forall x :: x in big && x !in s ==> f(x) == 0) ==> Sum(s, f) == Sum(big, f)
    decreases |big - s|
  {
    if x :| x in big && x !in s {
      SumRemove(big, f, x);
      assert |big - {x} - s| < |big - s| by {
        assert big - s == (big - {x} - s) + {x};
      }
      SumExtend(s, big - {x}, f);
    } else {
      assert s == big;
    }
  }

  /** Changing the summand at one index. */
  lemma SumUpdate<T(!new)>(s: set<T>, f: T -> int, g: T -> int, x: T)
    requires x !in s ==> f(x) == 0
    requires forall y :: y in s && y != x ==> f(y) == g(y)
    ensures Sum(s + {x}, g) == Sum(s, f) - f(x) + g(x)
  {
    SumExtend(s, s + {x}, f);
    SumRemove(s + {x}, f, x);
    SumRemove(s + {x}, g, x);
    SumEqual(s + {x} - {x}, f, g);
  }
}
