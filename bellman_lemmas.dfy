/** Properties of one sweep of the value iteration and of its iterates. */
module BellmanLemmas {
  import opened Decimal
  import opened Bellman

  /** Only the columns 1 .. k-1 whose probability is non-zero are read from
      the previous value list. */
  lemma {:induction false} PartialSumLocal(row: seq<real>, prev: ValueList, prev2: ValueList, k: nat)
    requires k <= |row| <= Len(prev) && |row| <= Len(prev2)
    requires forall j :: 1 <= j < k && row[j] != 0.0 ==> prev.rest[j - 1] == prev2.rest[j - 1]
    ensures PartialSum(row, prev, k) == PartialSum(row, prev2, k)
  {
    if k > 1 {
      PartialSumLocal(row, prev, prev2, k - 1);
    }
  }

  /** A destination whose probability is exactly 0, and the slot 0 of the
      value list (the initial 0 or the header text), never influence the
      expectation. */
  lemma ExpectedLocal(row: seq<real>, prev: ValueList, prev2: ValueList)
    requires |row| <= Len(prev) && |row| <= Len(prev2)
    requires forall j :: 1 <= j < |row| && row[j] != 0.0 ==> prev.rest[j - 1] == prev2.rest[j - 1]
    ensures Expected(row, prev) == Expected(row, prev2)
  {
    PartialSumLocal(row, prev, prev2, |row|);
  }

  lemma {:induction false} PartialSumIgnoresLabel(row: seq<real>, row2: seq<real>, prev: ValueList, k: nat)
    requires k <= |row| == |row2| <= Len(prev)
    requires forall j :: 1 <= j < |row| ==> row[j] == row2[j]
    ensures PartialSum(row, prev, k) == PartialSum(row2, prev, k)
  {
    if k > 1 {
      PartialSumIgnoresLabel(row, row2, prev, k - 1);
    }
  }

  /** Column 0 of a row, its label, is not a probability: it never enters the
      expectation. */
  lemma ExpectedIgnoresLabel(row: seq<real>, row2: seq<real>, prev: ValueList)
    requires |row| == |row2| <= Len(prev)
    requires forall j :: 1 <= j < |row| ==> row[j] == row2[j]
    ensures Expected(row, prev) == Expected(row2, prev)
  {
    PartialSumIgnoresLabel(row, row2, prev, |row|);
  }

  /** After rows 1 .. k-1, slot s of the lists holds the value and the action
      of data row s, and the policy list starts with its header. */
  lemma {:induction false} SweepUpToAt(on: seq<seq<real>>, off: seq<seq<real>>, prev: ValueList, cfg: Config, k: nat)
    requires Shaped(on, off) && Len(prev) >= |on| && k <= |on|
    ensures var r := SweepUpTo(on, off, prev, cfg, k);
            r.values.slot0 == Text(ValuesHeader) && r.policy[0] == PolicyHeader &&
            forall s :: 1 <= s < k ==>
              r.values.rest[s - 1] == RowOutcome(on, off, prev, cfg, s).value &&
              r.policy[s] == RowOutcome(on, off, prev, cfg, s).action
  {
    if k > 1 {
      SweepUpToAt(on, off, prev, cfg, k - 1);
    }
  }

  /** Slot s of a sweep holds the value and the action of data row s. */
  lemma SweepAt(on: seq<seq<real>>, off: seq<seq<real>>, prev: ValueList, cfg: Config)
    requires Shaped(on, off) && Len(prev) >= |on|
    ensures var r := SweepOf(on, off, prev, cfg);
            r.values.slot0 == Text(ValuesHeader) && r.policy[0] == PolicyHeader &&
            forall s :: 1 <= s < |on| ==>
              r.values.rest[s - 1] == RowOutcome(on, off, prev, cfg, s).value &&
              r.policy[s] == RowOutcome(on, off, prev, cfg, s).action
  {
    SweepUpToAt(on, off, prev, cfg, |on|);
  }

  /** Slot s of a sweep holds the value and the action of data row s. */
  lemma SweepAtRow(on: seq<seq<real>>, off: seq<seq<real>>, prev: ValueList, cfg: Config, s: nat)
    requires Shaped(on, off) && Len(prev) >= |on| && 1 <= s < |on|
    ensures SweepOf(on, off, prev, cfg).values.rest[s - 1] == RowOutcome(on, off, prev, cfg, s).value
    ensures SweepOf(on, off, prev, cfg).policy[s] == RowOutcome(on, off, prev, cfg, s).action
  {
    SweepAt(on, off, prev, cfg);
  }

  /** Two sweeps whose rows 1 .. k-1 have the same outcomes have built the same
      lists after those rows. */
  lemma {:induction false} SweepUpToRowwise(on: seq<seq<real>>, off: seq<seq<real>>, off2: seq<seq<real>>,
                                            prev: ValueList, prev2: ValueList, cfg: Config, k: nat)
    requires Shaped(on, off) && Shaped(on, off2) && Len(prev) >= |on| && Len(prev2) >= |on| && k <= |on|
    requires forall s :: 1 <= s < k ==> RowOutcome(on, off, prev, cfg, s) == RowOutcome(on, off2, prev2, cfg, s)
    ensures SweepUpTo(on, off, prev, cfg, k) == SweepUpTo(on, off2, prev2, cfg, k)
  {
    if k > 1 {
      SweepUpToRowwise(on, off, off2, prev, prev2, cfg, k - 1);
    }
  }

  /** The row whose ON-table label is the desired temperature gets value 0 and
      the terminal policy, whatever its Bellman values are. */
  lemma TerminalRow(on: seq<seq<real>>, off: seq<seq<real>>, prev: ValueList, cfg: Config, s: nat)
    requires Shaped(on, off) && Len(prev) >= |on| && 1 <= s < |on|
    requires on[s][0] == cfg.desired
    ensures SweepOf(on, off, prev, cfg).values.rest[s - 1] == 0.0
    ensures SweepOf(on, off, prev, cfg).policy[s] == AtDesired
  {
    SweepAtRow(on, off, prev, cfg, s);
  }

  /** Any other row stores the smaller of its two (possibly rounded) values and
      the action that gives it, ties going to ON. */
  lemma NonTerminalRow(on: seq<seq<real>>, off: seq<seq<real>>, prev: ValueList, cfg: Config, s: nat)
    requires Shaped(on, off) && Len(prev) >= |on| && 1 <= s < |on|
    requires on[s][0] != cfg.desired
    ensures var vOn := cfg.costOn + Expected(on[s], prev);
            var vOff := cfg.costOff + Expected(off[s], prev);
            var rOn := if Bounded(cfg) then vOn else Round10(vOn);
            var rOff := if Bounded(cfg) then vOff else Round10(vOff);
            var r := SweepOf(on, off, prev, cfg);
            var v := r.values.rest[s - 1];
            v <= rOn && v <= rOff && (v == rOn || v == rOff) &&
            (r.policy[s] == ActOn <==> rOn <= rOff) &&
            (r.policy[s] == ActOff <==> rOn > rOff) &&
            (r.policy[s] == ActOn ==> v == rOn) &&
            (r.policy[s] == ActOff ==> v == rOff)
  {
    SweepAtRow(on, off, prev, cfg, s);
  }

  /** A sweep yields one entry per row of the ON table (at least the header),
      with the headers at index 0. */
  lemma SweepShape(on: seq<seq<real>>, off: seq<seq<real>>, prev: ValueList, cfg: Config)
    requires Shaped(on, off) && Len(prev) >= |on|
    ensures var r := SweepOf(on, off, prev, cfg);
            Len(r.values) == |r.policy| == (if |on| == 0 then 1 else |on|) &&
            r.values.slot0 == Text(ValuesHeader) && r.policy[0] == PolicyHeader
  {
    SweepAt(on, off, prev, cfg);
  }

  /** Every policy entry after the header is ON, OFF or the terminal label. */
  lemma PolicyAlphabet(on: seq<seq<real>>, off: seq<seq<real>>, prev: ValueList, cfg: Config, s: nat)
    requires Shaped(on, off) && Len(prev) >= |on|
    requires 1 <= s < |SweepOf(on, off, prev, cfg).policy|
    ensures var p := SweepOf(on, off, prev, cfg).policy[s];
            p == ActOn || p == ActOff || p == AtDesired
  {
    SweepAtRow(on, off, prev, cfg, s);
  }

  /** A sweep does not depend on slot 0 of the previous value list: the
      initial 0 and the header text give the same result. */
  lemma SweepIgnoresSlotZero(on: seq<seq<real>>, off: seq<seq<real>>, prev: ValueList, prev2: ValueList, cfg: Config)
    requires Shaped(on, off) && Len(prev) >= |on| && Len(prev2) >= |on|
    requires forall j :: 0 <= j < |on| - 1 ==> prev.rest[j] == prev2.rest[j]
    ensures SweepOf(on, off, prev, cfg) == SweepOf(on, off, prev2, cfg)
  {
    forall s | 1 <= s < |on|
      ensures RowOutcome(on, off, prev, cfg, s) == RowOutcome(on, off, prev2, cfg, s)
    {
      ExpectedLocal(on[s], prev, prev2);
      ExpectedLocal(off[s], prev, prev2);
    }
    SweepUpToRowwise(on, off, off, prev, prev2, cfg, |on|);
  }

  /** Only the ON table's labels decide which row is terminal: the labels of
      the OFF table are never consulted. */
  lemma SweepIgnoresOffLabels(on: seq<seq<real>>, off: seq<seq<real>>, off2: seq<seq<real>>, prev: ValueList, cfg: Config)
    requires Shaped(on, off) && Shaped(on, off2) && Len(prev) >= |on|
    requires forall s :: 1 <= s < |on| ==> |off[s]| == |off2[s]|
    requires forall s, j :: 1 <= s < |on| && 1 <= j < |off[s]| ==> off[s][j] == off2[s][j]
    ensures SweepOf(on, off, prev, cfg) == SweepOf(on, off2, prev, cfg)
  {
    forall s | 1 <= s < |on|
      ensures RowOutcome(on, off, prev, cfg, s) == RowOutcome(on, off2, prev, cfg, s)
    {
      ExpectedIgnoresLabel(off[s], off2[s], prev);
    }
    SweepUpToRowwise(on, off, off2, prev, prev, cfg, |on|);
  }

  /** The first sweep is never equal to the initial list: slot 0 changes from
      the number 0 to the header text, and for a non-empty table the length
      drops from `len(matriz_ON) + 1` to `len(matriz_ON)`. */
  lemma FirstSweepNeverConverges(on: seq<seq<real>>, off: seq<seq<real>>, cfg: Config)
    requires Shaped(on, off)
    ensures Iterate(on, off, cfg, 1) != Iterate(on, off, cfg, 0)
    ensures |on| >= 1 ==> Len(Iterate(on, off, cfg, 1)) == |on| < Len(Iterate(on, off, cfg, 0))
  {
    assert Iterate(on, off, cfg, 1).slot0 != Iterate(on, off, cfg, 0).slot0;
  }

  /** The two-state table: 16 moves to the desired 22 with probability 1
      under either action, and 22 stays there. */
  const TwoStates: seq<seq<real>> := [[0.0, 16.0, 22.0], [16.0, 0.0, 1.0], [22.0, 0.0, 1.0]]

  /** One sweep of the two-state table from any list whose value for 22 is 0. */
  lemma TwoStateSweep(cfg: Config, prev: ValueList)
    requires cfg.desired == 22.0 && Len(prev) >= 3 && prev.rest[1] == 0.0
    requires Bounded(cfg) || (OnGrid(cfg.costOn) && OnGrid(cfg.costOff))
    ensures var best := if cfg.costOn <= cfg.costOff then cfg.costOn else cfg.costOff;
            var act := if cfg.costOn <= cfg.costOff then ActOn else ActOff;
            Shaped(TwoStates, TwoStates) &&
            SweepOf(TwoStates, TwoStates, prev, cfg) ==
              SweepResult(ValueList(Text(ValuesHeader), [best, 0.0]), [PolicyHeader, act, AtDesired])
  {
    var t := TwoStates;
    if !Bounded(cfg) {
      Round10Fixes(cfg.costOn);
      Round10Fixes(cfg.costOff);
    }
    assert PartialSum(t[1], prev, 2) == 0.0 + prev.rest[0] * 0.0;
    assert Expected(t[1], prev) == PartialSum(t[1], prev, 2) + prev.rest[1] * 1.0;
    var r := SweepOf(t, t, prev, cfg);
    SweepAt(t, t, prev, cfg);
    var o1 := RowOutcome(t, t, prev, cfg, 1);
    var o2 := RowOutcome(t, t, prev, cfg, 2);
    assert r.values.rest == [o1.value, o2.value];
    assert r.policy == [PolicyHeader, o1.action, o2.action];
  }

  /** Two states, 16 and the desired 22, where both actions lead from 16 to 22
      with probability 1: the first sweep already holds the fixed point (value
      min(COSTE_ON, COSTE_OFF) for 16, ties to ON), yet the loop needs a second
      sweep to see it. */
  lemma TwoStateScenario(cfg: Config)
    requires cfg.desired == 22.0
    requires Bounded(cfg) || (OnGrid(cfg.costOn) && OnGrid(cfg.costOff))
    ensures var best := if cfg.costOn <= cfg.costOff then cfg.costOn else cfg.costOff;
            var act := if cfg.costOn <= cfg.costOff then ActOn else ActOff;
            Shaped(TwoStates, TwoStates) &&
            Iterate(TwoStates, TwoStates, cfg, 1) == ValueList(Text(ValuesHeader), [best, 0.0]) &&
            Iterate(TwoStates, TwoStates, cfg, 2) == Iterate(TwoStates, TwoStates, cfg, 1) &&
            SweepOf(TwoStates, TwoStates, Iterate(TwoStates, TwoStates, cfg, 1), cfg).policy ==
              [PolicyHeader, act, AtDesired]
  {
    var it0 := Iterate(TwoStates, TwoStates, cfg, 0);
    TwoStateSweep(cfg, it0);
    TwoStateSweep(cfg, Iterate(TwoStates, TwoStates, cfg, 1));
  }
}
