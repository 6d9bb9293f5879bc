/**
 * The deferred error flag exercised by tests/error_check_test.py.
 *
 * `set_error_if(pred, msg)` records `msg` when some element of `pred` holds
 * and no error is pending yet; `raise_if_error()` reports the pending error,
 * if any, and clears it. A reported error is returned as `Some(msg)` where
 * the tests expect a raised `JaxValueError` with that message.
 */
module ErrorCheck {
  import opened Wrappers

  /** The pending error after `set_error_if(pred, msg)`: the first error wins. */
  function AfterSetErrorIf(pending: Option<string>, pred: seq<bool>, msg: string): (r: Option<string>)
    ensures pending.Some? ==> r == pending
    ensures pending.None? ==> (r.Some? <==> exists i :: 0 <= i < |pred| && pred[i])
    ensures r.Some? && pending.None? ==> r.value == msg
  {
    if pending.None? && true in pred then Some(msg) else pending
  }

  /** One `set_error_if` call. */
  datatype CheckCall = CheckCall(pred: seq<bool>, msg: string)

  /** The pending error after a sequence of `set_error_if` calls. */
  function AfterChecks(pending: Option<string>, calls: seq<CheckCall>): Option<string>
    decreases calls
  {
    if calls == [] then pending
    else AfterChecks(AfterSetErrorIf(pending, calls[0].pred, calls[0].msg), calls[1..])
  }

  /** A pending error survives every later check, failing or not. */
  lemma {:induction false} PendingErrorSticks(msg: string, calls: seq<CheckCall>)
    ensures AfterChecks(Some(msg), calls) == Some(msg)
  {
    if calls != [] {
      PendingErrorSticks(msg, calls[1..]);
    }
  }

  /**
   * Starting from a clear state, a sequence of checks leaves an error pending
   * iff one of them fails, and the error pending is the message of the first
   * check that failed.
   */
  lemma {:induction false} FirstFailingCheckWins(calls: seq<CheckCall>)
    ensures AfterChecks(None, calls) == None <==>
      forall i | 0 <= i < |calls| :: true !in calls[i].pred
    ensures forall i | 0 <= i < |calls| ::
      true in calls[i].pred && (forall j | 0 <= j < i :: true !in calls[j].pred) ==>
        AfterChecks(None, calls) == Some(calls[i].msg)
  {
    if calls != [] {
      if true in calls[0].pred {
        PendingErrorSticks(calls[0].msg, calls[1..]);
      } else {
        FirstFailingCheckWins(calls[1..]);
        assert forall i | 1 <= i < |calls| :: calls[i] == calls[1..][i - 1];
      }
    }
  }

  /** Two checks with the same message act as one check on both predicates together. */
  lemma ChecksWithSameMessageCombine(pending: Option<string>, a: seq<bool>, b: seq<bool>, msg: string)
    ensures AfterSetErrorIf(AfterSetErrorIf(pending, a, msg), b, msg) == AfterSetErrorIf(pending, a + b, msg)
  {
    if true in b {
      var i :| 0 <= i < |b| && b[i];
      assert (a + b)[|a| + i];
    }
    if true in a {
      var i :| 0 <= i < |a| && a[i];
      assert (a + b)[i];
    }
  }

  /** The error state of a program: at most one pending error message. */
  class ErrorState {
    var pending: Option<string>

    constructor ()
      ensures pending == None
    {
      pending := None;
    }

    /** `error_check.set_error_if(pred, msg)`. */
    method SetErrorIf(pred: seq<bool>, msg: string)
      modifies this
      ensures pending == AfterSetErrorIf(old(pending), pred, msg)
    {
      if pending.None? && true in pred {
        pending := Some(msg);
      }
    }

    /** `error_check.raise_if_error()`: reports the pending error and clears it. */
    method RaiseIfError() returns (raised: Option<string>)
      modifies this
      ensures raised == old(pending)
      ensures pending == None
    {
      raised := pending;
      pending := None;
    }
  }

  // ---------------------------------------------------------------------
  // Elementwise arrays of the tests

  /** `pred` applied to every element, as a `jnp` comparison does. */
  function Elementwise(x: seq<int>, pred: int -> bool): (r: seq<bool>)
    ensures |r| == |x| && forall i | 0 <= i < |x| :: r[i] == pred(x[i])
  {
    seq(|x|, i requires 0 <= i < |x| => pred(x[i]))
  }

  /** `jnp.full((n,), v)`. */
  function Full(n: nat, v: int): (x: seq<int>)
    ensures |x| == n && forall i | 0 <= i < n :: x[i] == v
  {
    seq(n, _ => v)
  }

  /** `jnp.arange(n)`. */
  function Arange(n: nat): (x: seq<int>)
    ensures |x| == n && forall i | 0 <= i < n :: x[i] == i
  {
    seq(n, i => i)
  }

  /** `x + 1`. */
  function AddOne(x: seq<int>): (y: seq<int>)
    ensures |y| == |x| && forall i | 0 <= i < |x| :: y[i] == x[i] + 1
  {
    seq(|x|, i requires 0 <= i < |x| => x[i] + 1)
  }

  function Sum(x: seq<int>): int
  {
    if x == [] then 0 else Sum(x[..|x| - 1]) + x[|x| - 1]
  }

  // ---------------------------------------------------------------------
  // The scenarios of ErrorCheckTests

  /** test_error_check (lines 35-46): a failing check is reported with its message. */
  method TestErrorCheck() returns (raised: Option<string>)
    ensures raised == Some("x must be greater than 0")
  {
    var state := new ErrorState();
    var x := Full(4, -1);
    assert Elementwise(x, v => v <= 0)[0];
    state.SetErrorIf(Elementwise(x, v => v <= 0), "x must be greater than 0");
    raised := state.RaiseIfError();
  }

  /** test_error_check_no_error (lines 49-59): a passing check leaves nothing to raise. */
  method TestNoError() returns (raised: Option<string>)
    ensures raised == None
  {
    var state := new ErrorState();
    var x := Full(4, 1);
    state.SetErrorIf(Elementwise(x, v => v <= 0), "x must be greater than 0");
    raised := state.RaiseIfError();
  }

  /**
   * test_error_check_should_report_the_first_error (lines 62-81): `f` passes
   * on 0, `g` fails on 1, `f` fails on 2 but the error of `g` stays.
   */
  method TestFirstError() returns (raised: Option<string>)
    ensures raised == Some("x must be less than 1 in g")
  {
    var state := new ErrorState();
    var x := Full(4, 0);
    state.SetErrorIf(Elementwise(x, v => v >= 1), "x must be less than 1 in f");
    x := AddOne(x);
    assert Elementwise(x, v => v >= 1)[0];
    state.SetErrorIf(Elementwise(x, v => v >= 1), "x must be less than 1 in g");
    x := AddOne(x);
    assert Elementwise(x, v => v >= 1)[0];
    state.SetErrorIf(Elementwise(x, v => v >= 1), "x must be less than 1 in f");
    raised := state.RaiseIfError();
  }

  /**
   * test_raise_if_error_clears_error (lines 84-106): the first raise reports
   * `f`'s error, a second raise reports nothing, and a later failure of `g`
   * is reported with `g`'s message.
   */
  method TestRaiseClears() returns (first: Option<string>, second: Option<string>, third: Option<string>)
    ensures first == Some("x must be greater than 0 in f")
    ensures second == None
    ensures third == Some("x must be greater than 0 in g")
  {
    var state := new ErrorState();
    var x := Full(4, -1);
    assert Elementwise(x, v => v <= 0)[0];
    state.SetErrorIf(Elementwise(x, v => v <= 0), "x must be greater than 0 in f");
    first := state.RaiseIfError();
    second := state.RaiseIfError();
    state.SetErrorIf(Elementwise(x, v => v <= 0), "x must be greater than 0 in g");
    third := state.RaiseIfError();
  }

  /** The `body` of test_error_check_works_with_cond: `lax.cond(pred, f, g, x)`. */
  method CondBody(state: ErrorState, pred: bool, x: seq<int>) returns (y: seq<int>)
    modifies state
    ensures state.pending == AfterSetErrorIf(old(state.pending), Elementwise(x, v => v == 0),
      if pred then "x must be non-zero in f" else "x must be non-zero in g")
    ensures y == AddOne(x)
  {
    if pred {
      state.SetErrorIf(Elementwise(x, v => v == 0), "x must be non-zero in f");
    } else {
      state.SetErrorIf(Elementwise(x, v => v == 0), "x must be non-zero in g");
    }
    y := AddOne(x);
  }

  /** test_error_check_works_with_cond (lines 109-132): only the taken branch's check fires. */
  method TestCond() returns (first: Option<string>, second: Option<string>)
    ensures first == Some("x must be non-zero in f")
    ensures second == Some("x must be non-zero in g")
  {
    var state := new ErrorState();
    var x := Full(4, 0);
    assert Elementwise(x, v => v == 0)[0];
    var y := CondBody(state, true, x);
    first := state.RaiseIfError();
    y := CondBody(state, false, x);
    second := state.RaiseIfError();
  }

  /** The while-loop test's condition on the four consecutive values from `k`. */
  lemma SomeBelowTen(x: seq<int>, k: int)
    requires x == [k, k + 1, k + 2, k + 3]
    ensures true in Elementwise(x, v => v < 10) <==> k < 10
    ensures true in Elementwise(x, v => v >= 10) <==> k >= 7
  {
    if k < 10 {
      assert Elementwise(x, v => v < 10)[0];
    }
    if k >= 7 {
      assert Elementwise(x, v => v >= 10)[3];
    }
  }

  /**
   * test_error_check_works_with_while_loop (lines 135-149): the loop runs
   * while some element is below 10; the check of `f` first fails on
   * `[7, 8, 9, 10]`, and later iterations leave the error alone.
   */
  method TestWhileLoop() returns (raised: Option<string>)
    ensures raised == Some("x must be less than 10")
  {
    var state := new ErrorState();
    var x := Arange(4);
    ghost var k := 0;
    while true in Elementwise(x, v => v < 10)
      invariant 0 <= k <= 10 && x == [k, k + 1, k + 2, k + 3]
      invariant state.pending == if k >= 8 then Some("x must be less than 10") else None
      decreases 10 - k
    {
      SomeBelowTen(x, k);
      state.SetErrorIf(Elementwise(x, v => v >= 10), "x must be less than 10");
      x := AddOne(x);
      k := k + 1;
    }
    SomeBelowTen(x, k);
    raised := state.RaiseIfError();
  }

  /**
   * The `body` of test_error_check_works_with_scan: `lax.scan(f, init, xs)`
   * where `f` checks one element, adds it to the carry and emits it plus one.
   * Checking element by element leaves the error state as one check on all
   * of `xs` would.
   */
  method ScanBody(state: ErrorState, init: int, xs: seq<int>) returns (carry: int, ys: seq<int>)
    modifies state
    ensures state.pending == AfterSetErrorIf(old(state.pending), Elementwise(xs, v => v >= 4), "x must be less than 4")
    ensures carry == init + Sum(xs) && ys == AddOne(xs)
  {
    carry, ys := init, [];
    for i := 0 to |xs|
      invariant state.pending == AfterSetErrorIf(old(state.pending), Elementwise(xs[..i], v => v >= 4), "x must be less than 4")
      invariant carry == init + Sum(xs[..i]) && ys == AddOne(xs[..i])
    {
      ChecksWithSameMessageCombine(old(state.pending), Elementwise(xs[..i], v => v >= 4), [xs[i] >= 4], "x must be less than 4");
      assert Elementwise(xs[..i], v => v >= 4) + [xs[i] >= 4] == Elementwise(xs[..i + 1], v => v >= 4);
      assert xs[..i + 1][..i] == xs[..i];
      state.SetErrorIf([xs[i] >= 4], "x must be less than 4");
      carry, ys := carry + xs[i], ys + [xs[i] + 1];
    }
    assert xs[..|xs|] == xs;
  }

  /**
   * test_error_check_works_with_scan (lines 152-171): scanning `arange(5)`
   * sets the error, scanning `arange(4)` does not.
   */
  method TestScan() returns (first: Option<string>, second: Option<string>)
    ensures first == Some("x must be less than 4")
    ensures second == None
  {
    var state := new ErrorState();
    assert Elementwise(Arange(5), v => v >= 4)[4];
    var carry, ys := ScanBody(state, 0, Arange(5));
    first := state.RaiseIfError();
    carry, ys := ScanBody(state, 0, Arange(4));
    second := state.RaiseIfError();
  }
}
