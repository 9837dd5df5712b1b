/** Sums over an event log. */
module Logs {
  import opened State

  ghost function SumLog(log: seq<Entry>, f: Event -> int): int {
    if log == [] then 0 else SumLog(log[..|log| - 1], f) + f(log[|log| - 1].event)
  }

  lemma {:induction false} SumLogConcat(a: seq<Entry>, b: seq<Entry>, f: Event -> int)
    ensures SumLog(a + b, f) == SumLog(a, f) + SumLog(b, f)
  {
    if b == [] {
      assert a + b == a;
    } else {
      assert (a + b)[..|a + b| - 1] == a + b[..|b| - 1];
      SumLogConcat(a, b[..|b| - 1], f);
    }
  }

  lemma SumLogOne(x: Entry, f: Event -> int)
    ensures SumLog([x], f) == f(x.event)
  {
    assert [x][..0] == [];
  }

  lemma SumLogTwo(x: Entry, y: Entry, f: Event -> int)
    ensures SumLog([x, y], f) == f(x.event) + f(y.event)
  {
    assert [x, y][..1] == [x];
    SumLogOne(x, f);
  }

  lemma {:induction false} SumLogZero(log: seq<Entry>, f: Event -> int)
    requires forall x <- log :: f(x.event) == 0
    ensures SumLog(log, f) == 0
  {
    if log != [] {
      SumLogZero(log[..|log| - 1], f);
    }
  }
}
