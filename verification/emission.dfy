/**
 * Kernel input events and the execution of an emission plan on a device
 * that may fail.
 *
 * Every drawing and typing routine of the program is a straight-line
 * sequence of device calls, each followed by Rust's `?`: the first failing
 * call ends the routine and nothing after it is sent. Because no routine
 * looks at what a call returned, the routine is fully described by its
 * PLAN (the calls it would make on a device that never fails) together with
 * `Run`, which replays the plan on a device accepting only `budget` more
 * emissions.
 */
module Emission {
  import opened Common


  /** The event types the program emits (Linux `EV_SYN`, `EV_KEY`, `EV_ABS`). */
  datatype EventType = EvSyn | EvKey | EvAbs
  {
    function Code(): nat
    {
      match this
      case EvSyn => 0
      case EvKey => 1
      case EvAbs => 3
    }
  }

  /** One `input_event`: type, code and value (all integers are `i32` in the source). */
  datatype InputEvent = InputEvent(kind: EventType, code: int, value: int)

  /** `SYN_REPORT`: the event closing every packet. */
  const SynReport := InputEvent(EvSyn, 0, 0)

  /** One step of a plan: a device call with payload `E`, or a sleep. */
  datatype Step<+E> = Emit(payload: E) | Pause(ms: nat)

  predicate IsEmission<E>(s: Step<E>) { s.Emit? }

  /** Number of device calls in a plan (sleeps never fail). */
  function Emissions<E>(plan: seq<Step<E>>): nat
  {
    if |plan| == 0 then 0 else (if plan[0].Emit? then 1 else 0) + Emissions(plan[1..])
  }

  /** What a device actually received, whether the routine ended in `Ok`,
      and how many further emissions the device accepts. */
  datatype Sent<+E> = Sent(trace: seq<Step<E>>, ok: bool, left: nat)

  /** Replay `plan` on a device that accepts `budget` emissions and fails on
      the next one; the routine stops at the first failure. */
  function Run<E>(plan: seq<Step<E>>, budget: nat): (r: Sent<E>)
    ensures r.ok <==> Emissions(plan) <= budget
    ensures r.ok ==> r.trace == plan && r.left == budget - Emissions(plan)
    decreases |plan|
  {
    if |plan| == 0 then Sent([], true, budget)
    else
      var rest := plan[1..];
      assert plan == [plan[0]] + rest;
      if plan[0].Pause? then
        var s := Run(rest, budget);
        Sent([plan[0]] + s.trace, s.ok, s.left)
      else if budget == 0 then Sent([], false, 0)
      else
        var s := Run(rest, budget - 1);
        Sent([plan[0]] + s.trace, s.ok, s.left)
  }

  /** A failing run sends a proper prefix of the plan, stops right before
      an emission, and has used up exactly the device's budget. */
  lemma {:induction false} RunFailure<E>(plan: seq<Step<E>>, budget: nat)
    requires !Run(plan, budget).ok
    ensures var r := Run(plan, budget);
            r.trace < plan && plan[|r.trace|].Emit? && r.left == 0 && Emissions(r.trace) == budget
    decreases |plan|
  {
    var rest := plan[1..];
    assert plan == [plan[0]] + rest;
    if plan[0].Pause? || budget > 0 {
      var k: nat := if plan[0].Pause? then budget else budget - 1;
      RunFailure(rest, k);
      var s := Run(rest, k);
      EmissionsCons(plan[0], s.trace);
      assert ([plan[0]] + s.trace)[1..] == s.trace;
    }
  }

  lemma {:induction false} EmissionsAppend<E>(a: seq<Step<E>>, b: seq<Step<E>>)
    ensures Emissions(a + b) == Emissions(a) + Emissions(b)
  {
    if |a| > 0 {
      assert (a + b)[1..] == a[1..] + b;
      EmissionsAppend(a[1..], b);
    } else {
      assert a + b == b;
    }
  }

  lemma EmissionsCons<E>(s: Step<E>, rest: seq<Step<E>>)
    ensures Emissions([s] + rest) == (if s.Emit? then 1 else 0) + Emissions(rest)
  {
    assert ([s] + rest)[1..] == rest;
  }

  /** The emissions of a plan are the steps that are device calls. */
  lemma {:induction false} EmissionsCount<E>(plan: seq<Step<E>>)
    ensures Emissions(plan) == CountIf(plan, IsEmission)
  {
    if |plan| > 0 {
      EmissionsCount(plan[1..]);
      assert plan == [plan[0]] + plan[1..];
      CountIfCons(plan[0], plan[1..], IsEmission);
    }
  }

  /** One unfolding of `Run`: the head step, then the rest of the plan. */
  lemma RunUnfold<E>(plan: seq<Step<E>>, budget: nat)
    requires |plan| > 0
    ensures Run(plan, budget) ==
      if plan[0].Pause? then Sent([plan[0]] + Run(plan[1..], budget).trace, Run(plan[1..], budget).ok, Run(plan[1..], budget).left)
      else if budget == 0 then Sent([], false, 0)
      else Sent([plan[0]] + Run(plan[1..], budget - 1).trace, Run(plan[1..], budget - 1).ok, Run(plan[1..], budget - 1).left)
  {
  }

  /** One step of `Run` that does not fail: the head is sent and the rest
      runs on what is left of the budget. */
  lemma RunHead<E>(plan: seq<Step<E>>, budget: nat, k: nat)
    requires |plan| > 0 && (plan[0].Pause? || budget > 0)
    requires k == if plan[0].Pause? then budget else budget - 1
    ensures var s := Run(plan[1..], k); Run(plan, budget) == Sent([plan[0]] + s.trace, s.ok, s.left)
  {
  }

  /** Running two plans one after the other on the same device is running
      their concatenation: the second starts where the first left off. */
  lemma {:induction false} RunAppend<E>(a: seq<Step<E>>, b: seq<Step<E>>, budget: nat)
    requires Emissions(a) <= budget
    ensures var rb := Run(b, budget - Emissions(a));
            Run(a + b, budget) == Sent(a + rb.trace, rb.ok, rb.left)
    decreases |a|
  {
    if |a| > 0 {
      var h, t := a[0], a[1..];
      var k: nat := if h.Pause? then budget else budget - 1;
      assert Emissions(a) == (if h.Emit? then 1 else 0) + Emissions(t);
      var rb := Run(b, k - Emissions(t));
      var rtb := Run(t + b, k);
      assert rtb == Sent(t + rb.trace, rb.ok, rb.left) by { RunAppend(t, b, k); }
      assert Run(a + b, budget) == Sent([h] + rtb.trace, rtb.ok, rtb.left) by {
        assert (a + b)[0] == h && (a + b)[1..] == t + b;
        RunHead(a + b, budget, k);
      }
      assert [h] + (t + rb.trace) == a + rb.trace by { assert a == [h] + t; }
    } else {
      assert a + b == b;
    }
  }

  /** Once a plan fails, nothing appended to it is ever sent. */
  lemma {:induction false} RunAppendFails<E>(a: seq<Step<E>>, b: seq<Step<E>>, budget: nat)
    requires !Run(a, budget).ok
    ensures Run(a + b, budget) == Run(a, budget)
    decreases |a|
  {
    var h, t := a[0], a[1..];
    assert (a + b)[0] == h && (a + b)[1..] == t + b;
    if h.Pause? || budget > 0 {
      var k: nat := if h.Pause? then budget else budget - 1;
      var rt, rtb := Run(t, k), Run(t + b, k);
      assert Run(a, budget) == Sent([h] + rt.trace, rt.ok, rt.left) by { RunUnfold(a, budget); }
      assert Run(a + b, budget) == Sent([h] + rtb.trace, rtb.ok, rtb.left) by { RunUnfold(a + b, budget); }
      RunAppendFails(t, b, k);
    } else {
      RunUnfold(a, budget);
      RunUnfold(a + b, budget);
    }
  }
}
