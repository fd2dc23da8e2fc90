/** Properties of the outer loop of the value iteration: what the state it
    stops in says about the iterates, the policy and the cycle counter. */
module LoopLemmas {
  import opened Bellman
  import opened BellmanLemmas

  /** The sweeps counted so far that produced a new value list: all of them,
      or all but the last once the loop has converged. */
  function Kept(st: LoopState): int {
    if st.converged then st.sweeps - 1 else st.sweeps
  }

  /** The retained list is the iterate after `Kept(st)` sweeps, and a
      converged loop ran at least two sweeps. */
  predicate IterateInv(on: seq<seq<real>>, off: seq<seq<real>>, cfg: Config, st: LoopState)
    requires Shaped(on, off)
  {
    0 <= Kept(st) && (st.converged ==> st.sweeps >= 2) && st.values == Iterate(on, off, cfg, Kept(st))
  }

  /** None of the first k sweeps reproduced the list it was given. */
  predicate NoRepeat(on: seq<seq<real>>, off: seq<seq<real>>, cfg: Config, k: nat)
    requires Shaped(on, off)
  {
    k == 0 || (NoRepeat(on, off, cfg, k - 1) && Iterate(on, off, cfg, k - 1) != Iterate(on, off, cfg, k))
  }

  /** No iterate before the retained one equals its successor. */
  predicate NoRepeatInv(on: seq<seq<real>>, off: seq<seq<real>>, cfg: Config, st: LoopState)
    requires Shaped(on, off)
  {
    0 <= Kept(st) && NoRepeat(on, off, cfg, Kept(st))
  }

  /** `NoRepeat` spelled out. */
  lemma {:induction false} NoRepeatAll(on: seq<seq<real>>, off: seq<seq<real>>, cfg: Config, k: nat)
    requires Shaped(on, off) && NoRepeat(on, off, cfg, k)
    ensures forall i :: 0 <= i < k ==> Iterate(on, off, cfg, i) != Iterate(on, off, cfg, i + 1)
  {
    if k > 0 {
      NoRepeatAll(on, off, cfg, k - 1);
    }
  }

  /** The policy is that of the last sweep: on convergence, of the sweep that
      reproduced the retained list. */
  predicate PolicyInv(on: seq<seq<real>>, off: seq<seq<real>>, cfg: Config, st: LoopState)
    requires Shaped(on, off) && Len(st.values) >= |on|
  {
    (st.converged ==> SweepOf(on, off, st.values, cfg) == SweepResult(st.values, st.policy)) &&
    (!st.converged && st.sweeps > 0 ==>
       st.policy == SweepOf(on, off, Iterate(on, off, cfg, st.sweeps - 1), cfg).policy) &&
    (st.sweeps == 0 ==> st.policy == [])
  }

  /** What the loop state says about the iterates and the policy. */
  predicate TraceInv(on: seq<seq<real>>, off: seq<seq<real>>, cfg: Config, st: LoopState)
    requires Shaped(on, off) && Len(st.values) >= |on|
  {
    IterateInv(on, off, cfg, st) && NoRepeatInv(on, off, cfg, st) && PolicyInv(on, off, cfg, st)
  }

  /** What the loop state says about the cycle counter. */
  predicate CounterInv(cfg: Config, fuel: nat, st: LoopState) {
    (Bounded(cfg) ==> st.remaining == Some(cfg.cycles.value - st.sweeps)) &&
    (Bounded(cfg) && st.sweeps > 0 ==> cfg.cycles.value - st.sweeps >= -1) &&
    (Bounded(cfg) && cfg.cycles.value < 0 ==> st.sweeps == 0) &&
    (!Bounded(cfg) ==> st.remaining == cfg.cycles && st.sweeps <= fuel)
  }

  lemma StartInv(on: seq<seq<real>>, off: seq<seq<real>>, cfg: Config, fuel: nat)
    requires Shaped(on, off)
    ensures Sweepable(on, off, cfg, Start(on, cfg))
    ensures TraceInv(on, off, cfg, Start(on, cfg)) && CounterInv(cfg, fuel, Start(on, cfg))
  {
  }

  /** A pass that reproduces the retained list flags convergence on a fixed
      point; it is never the first pass. */
  lemma StepConvergesKeepsTrace(on: seq<seq<real>>, off: seq<seq<real>>, cfg: Config, fuel: nat, st: LoopState)
    requires Sweepable(on, off, cfg, st) && Running(cfg, fuel, st) && TraceInv(on, off, cfg, st)
    requires Step(on, off, cfg, st).converged
    ensures TraceInv(on, off, cfg, Step(on, off, cfg, st))
  {
    var sw := SweepOf(on, off, st.values, cfg);
    var next := Step(on, off, cfg, st);
    if st.sweeps == 0 {
      FirstSweepNeverConverges(on, off, cfg);
      assert false;
    }
    assert sw == SweepResult(next.values, next.policy);
  }

  /** A pass that yields a new list keeps it as the next iterate. */
  lemma StepAdvancesIterate(on: seq<seq<real>>, off: seq<seq<real>>, cfg: Config, fuel: nat, st: LoopState)
    requires Sweepable(on, off, cfg, st) && Running(cfg, fuel, st) && IterateInv(on, off, cfg, st)
    requires !Step(on, off, cfg, st).converged
    ensures IterateInv(on, off, cfg, Step(on, off, cfg, st))
  {
    assert Kept(Step(on, off, cfg, st)) == Kept(st) + 1;
  }

  /** ... and the iterate it replaces differed from it. */
  lemma StepAdvancesNoRepeat(on: seq<seq<real>>, off: seq<seq<real>>, cfg: Config, fuel: nat, st: LoopState)
    requires Sweepable(on, off, cfg, st) && Running(cfg, fuel, st)
    requires IterateInv(on, off, cfg, st) && NoRepeatInv(on, off, cfg, st)
    requires !Step(on, off, cfg, st).converged
    ensures NoRepeatInv(on, off, cfg, Step(on, off, cfg, st))
  {
    var last := Kept(st);
    assert Kept(Step(on, off, cfg, st)) == last + 1;
    assert Iterate(on, off, cfg, last) != Iterate(on, off, cfg, last + 1);
    assert NoRepeat(on, off, cfg, last + 1);
  }

  /** ... and its policy is that of the sweep of the previous iterate. */
  lemma StepAdvancesPolicy(on: seq<seq<real>>, off: seq<seq<real>>, cfg: Config, fuel: nat, st: LoopState)
    requires Sweepable(on, off, cfg, st) && Running(cfg, fuel, st) && IterateInv(on, off, cfg, st)
    requires !Step(on, off, cfg, st).converged
    ensures PolicyInv(on, off, cfg, Step(on, off, cfg, st))
  {
  }

  /** One pass of the loop body keeps the counter invariant. */
  lemma StepKeepsCounter(on: seq<seq<real>>, off: seq<seq<real>>, cfg: Config, fuel: nat, st: LoopState)
    requires Sweepable(on, off, cfg, st) && Running(cfg, fuel, st) && CounterInv(cfg, fuel, st)
    ensures CounterInv(cfg, fuel, Step(on, off, cfg, st))
  {
  }

  /** The loop keeps both invariants until it stops. */
  lemma {:induction false} RunFromKeeps(on: seq<seq<real>>, off: seq<seq<real>>, cfg: Config, fuel: nat, st: LoopState)
    requires Sweepable(on, off, cfg, st) && TraceInv(on, off, cfg, st) && CounterInv(cfg, fuel, st)
    ensures var r := RunFrom(on, off, cfg, fuel, st);
            TraceInv(on, off, cfg, r) && CounterInv(cfg, fuel, r)
    decreases if Bounded(cfg) then st.remaining.value + 1 else fuel - st.sweeps
  {
    if Running(cfg, fuel, st) {
      if Step(on, off, cfg, st).converged {
        StepConvergesKeepsTrace(on, off, cfg, fuel, st);
      } else {
        StepAdvancesIterate(on, off, cfg, fuel, st);
        StepAdvancesNoRepeat(on, off, cfg, fuel, st);
        StepAdvancesPolicy(on, off, cfg, fuel, st);
      }
      StepKeepsCounter(on, off, cfg, fuel, st);
      RunFromKeeps(on, off, cfg, fuel, Step(on, off, cfg, st));
    }
  }

  /** Both invariants hold of the state the loop stops in. */
  lemma RunInv(on: seq<seq<real>>, off: seq<seq<real>>, cfg: Config, fuel: nat)
    requires Shaped(on, off)
    ensures var r := Run(on, off, cfg, fuel);
            TraceInv(on, off, cfg, r) && CounterInv(cfg, fuel, r) && !Running(cfg, fuel, r)
  {
    StartInv(on, off, cfg, fuel);
    RunFromKeeps(on, off, cfg, fuel, Start(on, cfg));
  }

  /** The retained list is the last iterate that differed from its
      predecessor: the k-th, where no iterate before it repeated. */
  lemma RunRetainsLastNewIterate(on: seq<seq<real>>, off: seq<seq<real>>, cfg: Config, fuel: nat)
    requires Shaped(on, off)
    ensures var r := Run(on, off, cfg, fuel);
            var last := if r.converged then r.sweeps - 1 else r.sweeps;
            0 <= last && r.values == Iterate(on, off, cfg, last) &&
            forall i :: 0 <= i < last ==> Iterate(on, off, cfg, i) != Iterate(on, off, cfg, i + 1)
  {
    RunInv(on, off, cfg, fuel);
    var r := Run(on, off, cfg, fuel);
    NoRepeatAll(on, off, cfg, Kept(r));
  }

  /** On convergence at least two sweeps ran, the retained list is a fixed
      point of the sweep, and the policy is the one that sweep yields. */
  lemma RunConverged(on: seq<seq<real>>, off: seq<seq<real>>, cfg: Config, fuel: nat)
    requires Shaped(on, off)
    ensures var r := Run(on, off, cfg, fuel);
            r.converged ==>
              r.sweeps >= 2 && SweepOf(on, off, r.values, cfg) == SweepResult(r.values, r.policy)
  {
    RunInv(on, off, cfg, fuel);
  }

  /** Without convergence the policy is that of the last sweep, and with no
      sweep at all the policy is empty and the list is still the initial one. */
  lemma RunPolicy(on: seq<seq<real>>, off: seq<seq<real>>, cfg: Config, fuel: nat)
    requires Shaped(on, off)
    ensures var r := Run(on, off, cfg, fuel);
            (!r.converged && r.sweeps > 0 ==>
               r.policy == SweepOf(on, off, Iterate(on, off, cfg, r.sweeps - 1), cfg).policy) &&
            (r.sweeps == 0 ==> r.policy == [] && r.values == Initial(|on|))
  {
    RunInv(on, off, cfg, fuel);
  }

  /** A set, non-zero count c is decremented once per sweep and allows at most
      c + 1 sweeps: exactly c + 1 unless the values converge first, and none
      when c is negative. */
  lemma RunCountsDown(on: seq<seq<real>>, off: seq<seq<real>>, cfg: Config, fuel: nat)
    requires Shaped(on, off) && Bounded(cfg)
    ensures var r := Run(on, off, cfg, fuel);
            var c := cfg.cycles.value;
            r.remaining == Some(c - r.sweeps) &&
            (c > 0 ==> r.sweeps <= c + 1 && (!r.converged ==> r.sweeps == c + 1)) &&
            (c < 0 ==> r.sweeps == 0)
  {
    RunInv(on, off, cfg, fuel);
  }

  /** With the count unset or 0 the counter never changes and never stops
      the loop: only convergence does, or else the fuel bound, in a state
      where the program's own guard still holds. */
  lemma RunUntilConverged(on: seq<seq<real>>, off: seq<seq<real>>, cfg: Config, fuel: nat)
    requires Shaped(on, off) && !Bounded(cfg)
    ensures var r := Run(on, off, cfg, fuel);
            r.remaining == cfg.cycles && CounterAllows(r.remaining) &&
            (r.converged || r.sweeps == fuel)
  {
    RunInv(on, off, cfg, fuel);
  }
}
