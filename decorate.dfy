/**
 * The general-purpose decorators: the memoised `fibonacci`, the `timer` and
 * `log_execution` wrappers, and the positional `type_check` guard.
 *
 * A wrapped call is a function from its arguments to a `Result`: an
 * exception raised by the wrapped function passes through the wrapper
 * unchanged, and whatever the wrapper would have done after the call (the
 * timing line, the "returned" log line) does not happen.
 */
module Decorate {
  import opened Market

  /** `fibonacci(n)`: `n` itself below 2 (negative `n` included), else the sum of the two before. */
  function Fibonacci(n: int): (r: int)
    ensures n < 2 ==> r == n
    ensures n >= 0 ==> r >= 0
    ensures n >= 1 ==> r >= 1
    decreases if n < 0 then 0 else n
  {
    if n < 2 then n else Fibonacci(n - 1) + Fibonacci(n - 2)
  }

  /** From 2 on, each value is the sum of the two before it. */
  lemma FibonacciRecurrence(n: int)
    requires n >= 2
    ensures Fibonacci(n) == Fibonacci(n - 1) + Fibonacci(n - 2)
  {
  }

  /** From 1 on the sequence never decreases. */
  lemma {:induction false} FibonacciMonotone(m: int, n: int)
    requires 1 <= m <= n
    ensures Fibonacci(m) <= Fibonacci(n)
    decreases n - m
  {
    if m < n {
      FibonacciMonotone(m, n - 1);
      assert Fibonacci(n) == Fibonacci(n - 1) + Fibonacci(n - 2);
    }
  }

  /**
   * An independent reference: the pair (F(k), F(k + 1)) advanced `steps`
   * times from (a, b). Started from (0, 1) it walks the sequence forward.
   */
  function Advance(a: int, b: int, steps: nat): (r: int)
    decreases steps
  {
    if steps == 0 then a else Advance(b, a + b, steps - 1)
  }

  /** Advancing from a consecutive pair (F(k), F(k + 1)) by `steps` lands on F(k + steps). */
  lemma {:induction false} AdvanceFrom(k: nat, steps: nat)
    ensures Advance(Fibonacci(k), Fibonacci(k + 1), steps) == Fibonacci(k + steps)
    decreases steps
  {
    if steps > 0 {
      assert Fibonacci(k + 2) == Fibonacci(k + 1) + Fibonacci(k);
      AdvanceFrom(k + 1, steps - 1);
    }
  }

  /** The memoised recursion agrees with the forward walk from (0, 1) at every non-negative `n`. */
  lemma FibonacciByAdvance(n: nat)
    ensures Fibonacci(n) == Advance(0, 1, n)
  {
    AdvanceFrom(0, n);
  }

  /**
   * `@lru_cache(maxsize=None)`: an unbounded table from argument to result.
   * Every entry it holds is the value `fibonacci` has at that argument.
   */
  class FibonacciCache {
    var table: map<int, int>

    ghost predicate Valid()
      reads this
    {
      forall k :: k in table ==> table[k] == Fibonacci(k)
    }

    constructor ()
      ensures Valid() && table == map[]
    {
      table := map[];
    }

    /** A cached call: the table answers when it can; otherwise the body runs and its result is stored. */
    method Call(n: int) returns (r: int)
      requires Valid()
      modifies this
      ensures Valid()
      ensures r == Fibonacci(n)
      ensures n in table && old(table).Keys <= table.Keys
      decreases if n < 0 then 0 else n
    {
      if n in table {
        r := table[n];
      } else {
        if n < 2 {
          r := n;
        } else {
          var x := Call(n - 1);
          var y := Call(n - 2);
          r := x + y;
        }
        table := table[n := r];
      }
    }
  }

  /** One line written by `log_execution`. */
  datatype LogLine<A, R> = Calling(args: A) | Returned(result: R)

  /** A timed call: the wrapped function's outcome and the elapsed time the wrapper prints. */
  datatype Timed<R> = Timed(outcome: Result<R>, elapsed: Option<real>)

  /**
   * `timer(func)(*args)`: the clock is read before and after the call
   * (`startTime`, `endTime`); the elapsed time is printed only when the call returns.
   */
  function Timer<A, R>(func: A -> Result<R>, args: A, startTime: real, endTime: real): (r: Timed<R>)
    ensures r.outcome == func(args)
    ensures r.elapsed.Some? <==> func(args).Ok?
    ensures r.elapsed.Some? ==> r.elapsed.value + startTime == endTime
  {
    var outcome := func(args);
    Timed(outcome, if outcome.Ok? then Some(endTime - startTime) else None)
  }

  /** A logged call: the wrapped function's outcome and the lines written to the log. */
  datatype Logged<A, R> = Logged(outcome: Result<R>, log: seq<LogLine<A, R>>)

  /** `log_execution(func)(*args)`: logs the call, calls through, logs the value it returns. */
  function LogExecution<A, R>(func: A -> Result<R>, args: A): (r: Logged<A, R>)
    ensures r.outcome == func(args)
    ensures |r.log| >= 1 && r.log[0] == Calling(args)
    ensures func(args).Ok? ==> r.log == [Calling(args), Returned(func(args).value)]
    ensures func(args).Err? ==> r.log == [Calling(args)]
  {
    var outcome := func(args);
    Logged(outcome, [Calling(args)] + (if outcome.Ok? then [Returned(outcome.value)] else []))
  }

  /** Stacking the two wrappers changes nothing about the outcome either way round. */
  lemma WrappersPassThrough<A, R>(func: A -> Result<R>, args: A, t0: real, t1: real)
    ensures Timer((x: A) => LogExecution(func, x).outcome, args, t0, t1).outcome == func(args)
    ensures LogExecution((x: A) => Timer(func, x, t0, t1).outcome, args).outcome == func(args)
  {
  }

  /**
   * The check `type_check` performs before calling through: positional
   * arguments are paired with the declared types as `zip` pairs them, and the
   * first argument that is not an instance of its type raises TypeError.
   * `isInstance` is Python's `isinstance`.
   */
  function FirstMismatchFrom<V, T>(isInstance: (V, T) -> bool, argTypes: seq<T>, args: seq<V>, i: nat): (r: Option<nat>)
    requires i <= |args| && i <= |argTypes|
    ensures r.Some? ==> i <= r.value < |args| && r.value < |argTypes| && !isInstance(args[r.value], argTypes[r.value])
    ensures r.Some? ==> forall j :: i <= j < r.value ==> isInstance(args[j], argTypes[j])
    ensures r.None? ==> forall j :: i <= j < |args| && j < |argTypes| ==> isInstance(args[j], argTypes[j])
    decreases |args| - i
  {
    if i == |args| || i == |argTypes| then None
    else if !isInstance(args[i], argTypes[i]) then Some(i)
    else FirstMismatchFrom(isInstance, argTypes, args, i + 1)
  }

  /** `type_check(*arg_types)(func)(*args)`: TypeError at the first mismatch, otherwise the call itself. */
  function TypeChecked<V, T, R>(isInstance: (V, T) -> bool, argTypes: seq<T>, func: seq<V> -> Result<R>, args: seq<V>): (r: Result<R>)
  {
    if FirstMismatchFrom(isInstance, argTypes, args, 0).Some? then Err(TypeError) else func(args)
  }

  /** The call raises TypeError exactly when some zipped argument fails its type; otherwise it is the call itself. */
  lemma TypeCheckedIff<V, T, R>(isInstance: (V, T) -> bool, argTypes: seq<T>, func: seq<V> -> Result<R>, args: seq<V>)
    ensures (exists j :: 0 <= j < |args| && j < |argTypes| && !isInstance(args[j], argTypes[j]))
            ==> TypeChecked(isInstance, argTypes, func, args) == Err(TypeError)
    ensures (forall j :: 0 <= j < |args| && j < |argTypes| ==> isInstance(args[j], argTypes[j]))
            ==> TypeChecked(isInstance, argTypes, func, args) == func(args)
  {
    var m := FirstMismatchFrom(isInstance, argTypes, args, 0);
    if m.None? {
      assert forall j :: 0 <= j < |args| && j < |argTypes| ==> isInstance(args[j], argTypes[j]);
    }
  }

  /** Arguments past the end of the type list are never checked: extra arguments cannot cause a TypeError. */
  lemma {:induction false} ExtraArgumentsUnchecked<V, T>(isInstance: (V, T) -> bool, argTypes: seq<T>, args: seq<V>, extra: seq<V>, i: nat)
    requires |args| == |argTypes| && i <= |args|
    ensures FirstMismatchFrom(isInstance, argTypes, args + extra, i) == FirstMismatchFrom(isInstance, argTypes, args, i)
    decreases |args| - i
  {
    if i < |args| {
      assert (args + extra)[i] == args[i];
      ExtraArgumentsUnchecked(isInstance, argTypes, args, extra, i + 1);
    }
  }

  /** The guard as the wrapper runs it: a loop over the zipped pairs that stops at the first mismatch. */
  method TypeCheck<V, T, R>(isInstance: (V, T) -> bool, argTypes: seq<T>, func: seq<V> -> Result<R>, args: seq<V>)
    returns (r: Result<R>)
    ensures r == TypeChecked(isInstance, argTypes, func, args)
    ensures r.Err? && r.error == TypeError && func(args) != r ==> exists j :: 0 <= j < |args| && j < |argTypes| && !isInstance(args[j], argTypes[j])
  {
    var i := 0;
    while i < |args| && i < |argTypes|
      invariant 0 <= i <= |args| && i <= |argTypes|
      invariant FirstMismatchFrom(isInstance, argTypes, args, 0) == FirstMismatchFrom(isInstance, argTypes, args, i)
    {
      if !isInstance(args[i], argTypes[i]) {
        return Err(TypeError);
      }
      i := i + 1;
    }
    r := func(args);
  }
}
