/** The value-iteration loop that computes the optimal ON/OFF policy of the
    heater, step by step as the program runs it. */
module ValueIteration {
  import opened Decimal
  import opened Bellman

  /** The value of one action for one row: its cost plus the previous values
      weighted by the row's probabilities. The loop skips the label column and
      every zero probability; the result is nonetheless the full expectation. */
  method ActionCost(row: seq<real>, prev: ValueList, cost: real) returns (v: real)
    requires |row| <= Len(prev)
    ensures v == cost + Expected(row, prev)
  {
    v := 0.0;
    for j := 0 to |row|
      invariant v == PartialSum(row, prev, j)
    {
      if row[j] != 0.0 && j != 0 {
        v := v + prev.rest[j - 1] * row[j];
      }
    }
    v := v + cost;
  }

  /** The Bellman update of data row s: the two action values, rounded when
      there is no cycle count or a count of 0, and the choice between them
      or the terminal override. */
  method UpdateRow(on: seq<seq<real>>, off: seq<seq<real>>, prev: ValueList, cfg: Config, s: nat)
    returns (o: Outcome)
    requires Shaped(on, off) && Len(prev) >= |on| && 1 <= s < |on|
    ensures o == RowOutcome(on, off, prev, cfg, s)
  {
    var vOn := ActionCost(on[s], prev, cfg.costOn);
    var vOff := ActionCost(off[s], prev, cfg.costOff);
    if !Bounded(cfg) {
      vOn := Round10(vOn);
      vOff := Round10(vOff);
    }
    if on[s][0] != cfg.desired {
      if vOn <= vOff {
        o := Outcome(vOn, ActOn);
      } else {
        o := Outcome(vOff, ActOff);
      }
    } else {
      o := Outcome(0.0, AtDesired);
    }
  }

  /** One sweep: a fresh value list and a fresh policy list, each headed by
      its header text, with one entry per data row of the ON table. */
  method Sweep(on: seq<seq<real>>, off: seq<seq<real>>, prev: ValueList, cfg: Config)
    returns (values: ValueList, policy: seq<string>)
    requires Shaped(on, off) && Len(prev) >= |on|
    ensures SweepResult(values, policy) == SweepOf(on, off, prev, cfg)
  {
    var rest: seq<real> := [];
    policy := [PolicyHeader];
    for s := 0 to |on|
      invariant SweepResult(ValueList(Text(ValuesHeader), rest), policy) == SweepUpTo(on, off, prev, cfg, s)
    {
      if s != 0 {
        var o := UpdateRow(on, off, prev, cfg, s);
        rest := rest + [o.value];
        policy := policy + [o.action];
      }
    }
    values := ValueList(Text(ValuesHeader), rest);
  }

  /** The whole iteration. `values` is the retained value list, `policy` the
      policy of the last sweep, `converged` whether the loop stopped because a
      sweep reproduced the previous list, and `remaining` the cycle counter.
      With no cycle count (or a count of 0) the program loops until
      convergence; here that mode stops after at most `fuel` sweeps, and
      `fuel` plays no part when the cycle count is non-zero. What the final state
      says is proved in `LoopLemmas` about `Run`. */
  method OptimalPolicy(on: seq<seq<real>>, off: seq<seq<real>>, cfg: Config, fuel: nat)
    returns (values: ValueList, policy: seq<string>, converged: bool, remaining: Option<int>, sweeps: nat)
    requires Shaped(on, off)
    ensures LoopState(values, policy, converged, remaining, sweeps) == Run(on, off, cfg, fuel)
  {
    values := Initial(|on|);
    policy := [];
    var temp: ValueList;
    remaining := cfg.cycles;
    converged := false;
    sweeps := 0;
    while !converged && CounterAllows(remaining) && (Bounded(cfg) || sweeps < fuel)
      invariant Sweepable(on, off, cfg, LoopState(values, policy, converged, remaining, sweeps))
      invariant RunFrom(on, off, cfg, fuel, LoopState(values, policy, converged, remaining, sweeps))
                == Run(on, off, cfg, fuel)
      decreases if Bounded(cfg) then remaining.value + 1 else fuel - sweeps
    {
      temp, policy := Sweep(on, off, values, cfg);
      if Bounded(cfg) {
        remaining := Some(remaining.value - 1);
      }
      if values == temp {
        converged := true;
      } else {
        values := temp;
      }
      sweeps := sweeps + 1;
    }
  }
}
