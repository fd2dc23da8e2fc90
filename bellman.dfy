/** The specification of the value iteration that chooses, for every
    temperature of the thermostat, whether the heater should be ON or OFF.

    A transition table is a `seq<seq<real>>`: row 0 is the header, and each
    data row s >= 1 holds the state label (a temperature) in column 0,
    followed by one probability per destination state.

    The value list the iteration carries is a `ValueList`: its slot 0 holds
    either the initial number 0 or the header text of the previous sweep, and
    slot j >= 1 holds the value of data row j, stored as `rest[j - 1]`. Two
    value lists are equal exactly when the program's lists compare equal. */
module Bellman {
  import opened Decimal

  datatype Option<T> = None | Some(value: T)

  /** Slot 0 of the value list: the header text or a number. */
  datatype Entry = Text(text: string) | Num(num: real)

  datatype ValueList = ValueList(slot0: Entry, rest: seq<real>)

  /** The configuration: desired (terminal) temperature, the cost of each
      action, and the optional number of cycles. */
  datatype Config = Config(desired: real, costOn: real, costOff: real, cycles: Option<int>)

  /** The outcome of one data row in one sweep: its new value and its action. */
  datatype Outcome = Outcome(value: real, action: string)

  /** The two lists a sweep builds. */
  datatype SweepResult = SweepResult(values: ValueList, policy: seq<string>)

  const ValuesHeader: string := "VALORES ESTADOS: "
  const PolicyHeader: string := "PATH: "
  const ActOn: string := "ON"
  const ActOff: string := "OFF"
  const AtDesired: string := "TEMPERATURA DESEADA"

  /** The cycle count is "truthy": set and non-zero. Only then is the counter
      decremented, and only otherwise are the values rounded. */
  predicate Bounded(cfg: Config) {
    cfg.cycles.Some? && cfg.cycles.value != 0
  }

  /** The counter part of the loop guard: `not c or c > 0`. An unset counter
      and a counter at 0 both let the loop go on. */
  predicate CounterAllows(remaining: Option<int>) {
    remaining.None? || remaining.value == 0 || remaining.value > 0
  }

  /** The shape the sweep relies on: the OFF table has a row for every row of
      the ON table, every data row of the ON table has its label, and no data
      row is longer than the ON table has rows (so that every column indexes
      the value list of the previous sweep). */
  predicate Shaped(on: seq<seq<real>>, off: seq<seq<real>>) {
    |off| >= |on| &&
    (forall s :: 1 <= s < |on| ==> 1 <= |on[s]| <= |on|) &&
    (forall s :: 1 <= s < |on| ==> |off[s]| <= |on|)
  }

  /** The number of slots of a value list, slot 0 included. */
  function Len(v: ValueList): nat {
    |v.rest| + 1
  }

  /** The value list before the first sweep: `len(matriz_ON) + 1` zeros. */
  function Initial(n: nat): (r: ValueList)
    ensures Len(r) == n + 1 && r.slot0 == Num(0.0)
    ensures forall j :: 0 <= j < |r.rest| ==> r.rest[j] == 0.0
  {
    ValueList(Num(0.0), seq(n, _ => 0.0))
  }

  /** The expectation over the columns 1 .. k-1 of `row`, every column
      included, the label column 0 excluded. */
  function PartialSum(row: seq<real>, prev: ValueList, k: nat): real
    requires k <= |row| <= Len(prev)
  {
    if k <= 1 then 0.0
    else PartialSum(row, prev, k - 1) + prev.rest[k - 2] * row[k - 1]
  }

  /** The expected value of the next state under the probabilities of `row`. */
  function Expected(row: seq<real>, prev: ValueList): real
    requires |row| <= Len(prev)
  {
    PartialSum(row, prev, |row|)
  }

  /** The value stored for an action: rounded unless the cycle count is non-zero. */
  function Rounded(cfg: Config, v: real): (r: real)
    ensures Bounded(cfg) ==> r == v
    ensures !Bounded(cfg) ==> v - HalfUnit <= r <= v + HalfUnit && OnGrid(r)
  {
    if Bounded(cfg) then v else Round10(v)
  }

  /** The values of ON and OFF for data row s. */
  function OnValue(on: seq<seq<real>>, off: seq<seq<real>>, prev: ValueList, cfg: Config, s: nat): (r: real)
    requires Shaped(on, off) && Len(prev) >= |on| && 1 <= s < |on|
    ensures Bounded(cfg) ==> r == cfg.costOn + Expected(on[s], prev)
    ensures !Bounded(cfg) ==> OnGrid(r)
    ensures !Bounded(cfg) ==> cfg.costOn + Expected(on[s], prev) - HalfUnit <= r <= cfg.costOn + Expected(on[s], prev) + HalfUnit
  {
    Rounded(cfg, cfg.costOn + Expected(on[s], prev))
  }

  function OffValue(on: seq<seq<real>>, off: seq<seq<real>>, prev: ValueList, cfg: Config, s: nat): (r: real)
    requires Shaped(on, off) && Len(prev) >= |on| && 1 <= s < |on|
    ensures Bounded(cfg) ==> r == cfg.costOff + Expected(off[s], prev)
    ensures !Bounded(cfg) ==> OnGrid(r)
    ensures !Bounded(cfg) ==> cfg.costOff + Expected(off[s], prev) - HalfUnit <= r <= cfg.costOff + Expected(off[s], prev) + HalfUnit
  {
    Rounded(cfg, cfg.costOff + Expected(off[s], prev))
  }

  /** The Bellman update of data row s. */
  function RowOutcome(on: seq<seq<real>>, off: seq<seq<real>>, prev: ValueList, cfg: Config, s: nat): (o: Outcome)
    requires Shaped(on, off) && Len(prev) >= |on| && 1 <= s < |on|
    ensures o.action == AtDesired <==> on[s][0] == cfg.desired
    ensures o.action == AtDesired ==> o.value == 0.0
    ensures o.action == ActOn || o.action == ActOff || o.action == AtDesired
  {
    var vOn := OnValue(on, off, prev, cfg, s);
    var vOff := OffValue(on, off, prev, cfg, s);
    if on[s][0] != cfg.desired then
      if vOn <= vOff then Outcome(vOn, ActOn) else Outcome(vOff, ActOff)
    else
      Outcome(0.0, AtDesired)
  }

  /** The number of data rows of the ON table. */
  function Rows(on: seq<seq<real>>): nat {
    if |on| == 0 then 0 else |on| - 1
  }

  /** The lists of a sweep once data rows 1 .. k-1 are done: the headers,
      then the value and the action of each of those rows, in row order. */
  function SweepUpTo(on: seq<seq<real>>, off: seq<seq<real>>, prev: ValueList, cfg: Config, k: nat): (r: SweepResult)
    requires Shaped(on, off) && Len(prev) >= |on| && k <= |on|
    ensures |r.values.rest| == (if k == 0 then 0 else k - 1) && |r.policy| == |r.values.rest| + 1
  {
    if k <= 1 then SweepResult(ValueList(Text(ValuesHeader), []), [PolicyHeader])
    else
      var r := SweepUpTo(on, off, prev, cfg, k - 1);
      var o := RowOutcome(on, off, prev, cfg, k - 1);
      SweepResult(ValueList(Text(ValuesHeader), r.values.rest + [o.value]), r.policy + [o.action])
  }

  /** One full sweep over the data rows of the ON table. */
  function SweepOf(on: seq<seq<real>>, off: seq<seq<real>>, prev: ValueList, cfg: Config): (r: SweepResult)
    requires Shaped(on, off) && Len(prev) >= |on|
    ensures |r.values.rest| == Rows(on) && |r.policy| == Rows(on) + 1
  {
    SweepUpTo(on, off, prev, cfg, |on|)
  }

  /** The value list after k sweeps from the initial zeros. */
  function Iterate(on: seq<seq<real>>, off: seq<seq<real>>, cfg: Config, k: nat): (r: ValueList)
    requires Shaped(on, off)
    ensures Len(r) >= |on|
  {
    if k == 0 then Initial(|on|)
    else SweepOf(on, off, Iterate(on, off, cfg, k - 1), cfg).values
  }

  /** The state of the outer loop: the retained value list, the policy of
      the last sweep, the convergence flag, the cycle counter, and the number
      of sweeps run so far. */
  datatype LoopState = LoopState(values: ValueList, policy: seq<string>, converged: bool,
                                 remaining: Option<int>, sweeps: nat)

  /** The state before the first sweep. */
  function Start(on: seq<seq<real>>, cfg: Config): (st: LoopState)
    ensures st.values == Initial(|on|) && st.remaining == cfg.cycles
    ensures st.policy == [] && !st.converged && st.sweeps == 0
  {
    LoopState(Initial(|on|), [], false, cfg.cycles, 0)
  }

  /** The loop guard: not converged, and the counter unset, at 0 or positive.
      When no count is set (or the count is 0), `fuel` bounds the sweeps. */
  predicate Running(cfg: Config, fuel: nat, st: LoopState) {
    !st.converged && CounterAllows(st.remaining) && (Bounded(cfg) || st.sweeps < fuel)
  }

  /** The requirements on a loop state for one more sweep. */
  predicate Sweepable(on: seq<seq<real>>, off: seq<seq<real>>, cfg: Config, st: LoopState) {
    Shaped(on, off) && Len(st.values) >= |on| && (Bounded(cfg) ==> st.remaining.Some?)
  }

  /** One pass of the loop body: sweep, count down when the count is non-zero, and
      either flag convergence or keep the new value list. */
  function Step(on: seq<seq<real>>, off: seq<seq<real>>, cfg: Config, st: LoopState): (r: LoopState)
    requires Sweepable(on, off, cfg, st)
    ensures Sweepable(on, off, cfg, r) && r.sweeps == st.sweeps + 1
    ensures r.policy == SweepOf(on, off, st.values, cfg).policy
    ensures r.converged <==> SweepOf(on, off, st.values, cfg).values == st.values
    ensures r.values == SweepOf(on, off, st.values, cfg).values
    ensures Bounded(cfg) ==> r.remaining == Some(st.remaining.value - 1)
    ensures !Bounded(cfg) ==> r.remaining == st.remaining
  {
    var sw := SweepOf(on, off, st.values, cfg);
    var remaining := if Bounded(cfg) then Some(st.remaining.value - 1) else st.remaining;
    if st.values == sw.values then LoopState(st.values, sw.policy, true, remaining, st.sweeps + 1)
    else LoopState(sw.values, sw.policy, false, remaining, st.sweeps + 1)
  }

  /** The loop run from state `st` until its guard fails. */
  function RunFrom(on: seq<seq<real>>, off: seq<seq<real>>, cfg: Config, fuel: nat, st: LoopState): (r: LoopState)
    requires Sweepable(on, off, cfg, st)
    ensures Sweepable(on, off, cfg, r) && !Running(cfg, fuel, r)
    decreases if Bounded(cfg) then st.remaining.value + 1 else fuel - st.sweeps
  {
    if Running(cfg, fuel, st) then RunFrom(on, off, cfg, fuel, Step(on, off, cfg, st)) else st
  }

  /** The whole loop, from the initial zeros. */
  function Run(on: seq<seq<real>>, off: seq<seq<real>>, cfg: Config, fuel: nat): (r: LoopState)
    requires Shaped(on, off)
    ensures Sweepable(on, off, cfg, r) && !Running(cfg, fuel, r)
  {
    RunFrom(on, off, cfg, fuel, Start(on, cfg))
  }
}
