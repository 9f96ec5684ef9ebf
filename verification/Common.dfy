/** Small definitions shared by all the models. */
module Common {

  datatype Option<+T> = None | Some(value: T)
}

/**
 Runs of a step machine. The nondeterminism of a system (which call moves next,
 which statement fails, which timer fires) is carried by its events, so a run is
 a sequence of events and "in every run" is "for every sequence". An event that
 is not enabled changes nothing.
 */
module Machines {

  function Run<S, E>(step: (S, E) -> S, s: S, es: seq<E>): S {
    if es == [] then s else step(Run(step, s, es[..|es| - 1]), es[|es| - 1])
  }

  lemma RunSnoc<S, E>(step: (S, E) -> S, s: S, es: seq<E>, e: E)
    ensures Run(step, s, es + [e]) == step(Run(step, s, es), e)
  {
    assert (es + [e])[..|es + [e]| - 1] == es;
  }

  lemma {:induction false} RunConcat<S, E>(step: (S, E) -> S, s: S, es: seq<E>, fs: seq<E>)
    ensures Run(step, s, es + fs) == Run(step, Run(step, s, es), fs)
  {
    if fs == [] {
      assert es + fs == es;
    } else {
      var n := |fs| - 1;
      RunConcat(step, s, es, fs[..n]);
      assert es + fs == (es + fs[..n]) + [fs[n]];
      RunSnoc(step, s, es + fs[..n], fs[n]);
    }
  }

  /** `t` is reached from `s` by some run. */
  ghost predicate Leads<S, E(!new)>(step: (S, E) -> S, s: S, t: S) {
    exists es: seq<E> :: Run(step, s, es) == t
  }

  lemma Starts<S, E(!new)>(step: (S, E) -> S, s: S)
    ensures Leads(step, s, s)
  {
    assert Run(step, s, []) == s;
  }

  lemma Follows<S, E(!new)>(step: (S, E) -> S, s: S, t: S, e: E) returns (u: S)
    requires Leads(step, s, t)
    ensures u == step(t, e) && Leads(step, s, u)
  {
    var es :| Run(step, s, es) == t;
    RunSnoc(step, s, es, e);
    assert Run(step, s, es + [e]) == step(t, e);
    u := step(t, e);
  }

  lemma LeadsTransitive<S, E(!new)>(step: (S, E) -> S, s: S, t: S, u: S)
    requires Leads(step, s, t) && Leads(step, t, u)
    ensures Leads(step, s, u)
  {
    var es :| Run(step, s, es) == t;
    var fs :| Run(step, t, fs) == u;
    RunConcat(step, s, es, fs);
    assert Run(step, s, es + fs) == u;
  }
}

/** Totals over the rows of a table. */
module Sums {

  function Sum<T>(rows: seq<T>, f: T -> int): int {
    if rows == [] then 0 else Sum(rows[..|rows| - 1], f) + f(rows[|rows| - 1])
  }

  lemma SumSnoc<T>(rows: seq<T>, row: T, f: T -> int)
    ensures Sum(rows + [row], f) == Sum(rows, f) + f(row)
  {
    assert (rows + [row])[..|rows|] == rows;
  }

  lemma {:induction false} SumUpdate<T>(rows: seq<T>, k: nat, row: T, f: T -> int)
    requires k < |rows|
    ensures Sum(rows[k := row], f) == Sum(rows, f) - f(rows[k]) + f(row)
  {
    var n := |rows| - 1;
    if k == n {
      assert rows[k := row][..n] == rows[..n];
    } else {
      SumUpdate(rows[..n], k, row, f);
      assert rows[k := row][..n] == rows[..n][k := row];
    }
  }

  /** Row by row at most as much, so at most as much in total. */
  lemma {:induction false} SumLe<T>(rows: seq<T>, f: T -> int, g: T -> int)
    requires forall i :: 0 <= i < |rows| ==> f(rows[i]) <= g(rows[i])
    ensures Sum(rows, f) <= Sum(rows, g)
  {
    if rows != [] {
      assert forall i :: 0 <= i < |rows| - 1 ==> rows[..|rows| - 1][i] == rows[i];
      SumLe(rows[..|rows| - 1], f, g);
    }
  }

  lemma SumEqual<T>(rows: seq<T>, f: T -> int, g: T -> int)
    requires forall i :: 0 <= i < |rows| ==> f(rows[i]) == g(rows[i])
    ensures Sum(rows, f) == Sum(rows, g)
  {
    SumLe(rows, f, g);
    SumLe(rows, g, f);
  }

  lemma {:induction false} SumZero<T>(rows: seq<T>, f: T -> int)
    requires forall i :: 0 <= i < |rows| ==> f(rows[i]) == 0
    ensures Sum(rows, f) == 0
  {
    if rows != [] {
      assert forall i :: 0 <= i < |rows| - 1 ==> rows[..|rows| - 1][i] == rows[i];
      SumZero(rows[..|rows| - 1], f);
    }
  }
}
