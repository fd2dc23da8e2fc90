# Optimal heater policy by value iteration

The program chooses, for every temperature from 16 to 25 degrees in steps of
0.5, whether the heater should be switched ON or OFF. It treats the thermostat
as a Markov decision process: each action has a fixed cost and a table of
transition probabilities. It runs value iteration on the Bellman equation
until the values stop changing, or until a configured number of cycles is
used up. The state whose label is the desired temperature (`TEMPERATURA_DESEADA`)
is absorbing. Its value is always 0 and its policy is `"TEMPERATURA DESEADA"`.

This project models the iteration loop of `code/main.py` (lines 68-69 and
90-167) in Dafny. `main.py` is a byte-identical copy with the same line
numbers, so every `code/main.py` citation below holds for `main.py` as well.

- `decimal.dfy` (module `Decimal`): `round(v, 10)`, i.e. rounding to 10
  decimal places with ties going to the even digit, on exact reals.
- `bellman.dfy` (module `Bellman`): the data model and the specification.
  - A transition table is a `seq<seq<real>>`. Row 0 is the header. Column 0 of
    each data row is its label, a temperature.
  - A value list is a `ValueList`: slot 0 (`slot0`) is either the initial
    number 0 or the header text `"VALORES ESTADOS: "`, and slot j >= 1 (the
    value of data row j) is `rest[j - 1]`. Two value lists are equal exactly
    when the program's lists compare equal, so the initial `[0] * n` never
    equals a list built by a sweep.
  - `Expected` is the expectation over columns 1..n, with no test for zero
    probabilities. `RowOutcome` is the Bellman update of one row.
    `SweepUpTo`/`SweepOf` give one sweep, and `Iterate` the value list after k
    sweeps.
  - `LoopState`, `Step` and `RunFrom`/`Run` describe the outer loop: its
    state, one pass of its body, and the loop run until its guard fails.
- `bellman_lemmas.dfy` (module `BellmanLemmas`): properties of one sweep and
  of the iterates.
- `loop_lemmas.dfy` (module `LoopLemmas`): what the state the loop stops in
  says about the iterates, the policy and the cycle counter. The invariants
  are `IterateInv`, `NoRepeatInv`, `PolicyInv` and `CounterInv`.
- `value_iteration.dfy` (module `ValueIteration`): the loops as the program
  runs them.
  - `ActionCost` is the inner accumulation loop.
  - `UpdateRow` is the body of the loop over the rows.
  - `Sweep` is the loop over the rows.
  - `OptimalPolicy` is the outer `while` loop with its convergence flag and
    cycle counter.
  - Each method is proved against the specification functions.

Behaviour modelled as the code has it:

- Python truthiness decides the mode.
  - A cycle count `N_CICLOS` that is unset or 0 means: round the values, never
    decrement the counter, and stop only on convergence.
  - A non-zero count means: no rounding, and decrement once per sweep.
- The guard `not c or c > 0` still holds at `c == 0`. So a positive count k
  allows k + 1 sweeps, not k. The module docstring (`code/main.py:8-11`) and
  the comment on `N_CICLOS` (`code/main.py:27-29`) ask for `N_CICLOS` cycles;
  the model follows the code (`RunCountsDown`).
- A negative count runs no sweep at all. The policy list then stays empty,
  and the value list stays at the initial zeros.
- The initial list has `len(matriz_ON) + 1` entries with a number in slot 0.
  Every sweep yields `len(matriz_ON)` entries (at least the header) with a
  text in slot 0. So the first sweep never compares equal, and convergence
  takes at least two sweeps. In a two-state table where both actions lead to
  the desired state with probability 1, the fixed point is reached after one
  sweep, but the loop only sees it after the second (`TwoStateScenario`).
- Slot 0 of the value list is never read (`SweepIgnoresSlotZero`).

## Model

| member | source | states |
|---|---|---|
| Decimal.Round10 | code/main.py:135-137 | the rounded value is within half a unit of the 10th decimal place of the input, and has at most 10 decimal places |
| Decimal.Round10Fixes | code/main.py:136-137 | a value with at most 10 decimal places is left unchanged by rounding |
| Decimal.Round10Idempotent | main.py:136-137 | rounding twice equals rounding once |
| Bellman.Initial | code/main.py:68-69 | the initial value list has `len(matriz_ON) + 1` slots, all the number 0 |
| Bellman.Bounded | code/main.py:159-160 | definition: a cycle count is "truthy", i.e. set and non-zero; only then is the counter decremented (and, at lines 135-137, only otherwise are the values rounded) |
| Bellman.CounterAllows | code/main.py:98 | definition: the counter part of the guard, `not c or c > 0`, which holds for an unset counter, at 0 and above 0 |
| Bellman.PartialSum | code/main.py:118-122 | definition: the previous value of column j times the probability of column j, summed over the columns 1 .. k-1, the label column 0 excluded |
| Bellman.Expected | code/main.py:118-131 | definition: the partial sum over all columns of a row, with no test for zero probabilities (`ActionCost` shows the test makes no difference) |
| Bellman.Rounded | code/main.py:135-137 | a value is kept exactly when the count is non-zero; with no count or a count of 0 it is rounded to within half a unit of the 10th decimal, onto 10 decimals |
| Bellman.OnValue | code/main.py:112-137 | definition: `v_on`, the ON cost plus the expectation under the ON row; it equals that sum when the count is non-zero, and with no count or a count of 0 it is that sum rounded to 10 decimals (within half a unit) |
| Bellman.OffValue | code/main.py:112-137 | definition: `v_off`, the OFF cost plus the expectation under the OFF row; it equals that sum when the count is non-zero, and with no count or a count of 0 it is that sum rounded to 10 decimals (within half a unit) |
| Bellman.RowOutcome | code/main.py:133-155 | the action is "TEMPERATURA DESEADA" exactly when the row's ON-table label is the desired temperature, and then the value is 0; every action is ON, OFF or that label (the choice itself: `NonTerminalRow`) |
| Bellman.SweepUpTo | code/main.py:105-155 | after data rows 1..k-1 the value list holds k-1 values after its header, and the policy list one entry more |
| Bellman.SweepOf | code/main.py:105-155 | a sweep yields one value per data row after the header, and a policy list one entry longer |
| Bellman.Iterate | code/main.py:96-167 | every value list the loop holds has at least `len(matriz_ON)` slots, so every column of a data row indexes it |
| Bellman.Start | code/main.py:69-95 | before the loop: the initial zeros, an empty policy, no convergence, the counter at `N_CICLOS`, no sweep run |
| Bellman.Step | code/main.py:105-167 | one pass of the loop body: the policy is the sweep's; convergence is flagged exactly when the sweep reproduces the retained list, which is otherwise replaced; the counter drops by one exactly when the count is non-zero |
| Bellman.Running | code/main.py:98 | definition: the loop guard, not converged and `CounterAllows`, with a fuel bound on the sweeps when there is no count or a count of 0 (a bound the program does not have; see "## Left out") |
| Bellman.RunFrom | code/main.py:98-167 | the loop terminates (under the fuel bound when there is no count or a count of 0) in a state where its guard fails |
| Bellman.Run | code/main.py:90-167 | the loop run from the state before it stops in a state where its guard fails and which can still be swept (with no count or a count of 0, possibly only through the fuel bound) |
| BellmanLemmas.PartialSumLocal | code/main.py:118-122 | a partial expectation depends only on the previous values at columns >= 1 whose probability is non-zero |
| BellmanLemmas.ExpectedLocal | main.py:118-131 | a zero-probability destination never influences `v_on`/`v_off`, even where its previous value is non-zero, and neither does slot 0 of the previous list |
| BellmanLemmas.PartialSumIgnoresLabel | code/main.py:126-130 | two rows equal at every column >= 1 give the same partial expectation, whatever their labels |
| BellmanLemmas.ExpectedIgnoresLabel | code/main.py:121-122 | column 0, the label, never contributes to the expectation |
| BellmanLemmas.SweepUpToAt | code/main.py:105-155 | after data rows 1..k-1, slot s of both lists holds the value and the action of data row s, in row order, after the two headers |
| BellmanLemmas.SweepAt | code/main.py:105-155 | slot s of a sweep holds the value and the action of data row s, after the two headers |
| BellmanLemmas.SweepAtRow | code/main.py:139-155 | the value and the action a sweep stores for data row s are those of its Bellman update |
| BellmanLemmas.SweepUpToRowwise | code/main.py:105-155 | a sweep is determined by the outcomes of its rows: equal outcomes give equal lists |
| BellmanLemmas.TerminalRow | code/main.py:140-155 | the row whose ON-table label equals the desired temperature gets value 0 and policy "TEMPERATURA DESEADA", whatever its `v_on`/`v_off` |
| BellmanLemmas.NonTerminalRow | code/main.py:133-148 | any other row stores a value that is at most both `v_on` and `v_off` (rounded when there is no count or a count of 0) and equals one of them; the policy is ON exactly when `v_on <= v_off` (ties to ON) and OFF exactly when `v_on > v_off` |
| BellmanLemmas.SweepShape | code/main.py:105-109 | a sweep yields value and policy lists of length `len(matriz_ON)` (1 for an empty table), headed by their header texts |
| BellmanLemmas.PolicyAlphabet | main.py:143-155 | every policy entry after the header is exactly "ON", "OFF" or "TEMPERATURA DESEADA" |
| BellmanLemmas.SweepIgnoresSlotZero | main.py:118-131 | a sweep gives the same lists whether slot 0 of the previous list is the initial 0 or the header text |
| BellmanLemmas.SweepIgnoresOffLabels | main.py:139-140 | only the ON table's labels decide which row is terminal: changing the OFF table's labels changes nothing |
| BellmanLemmas.FirstSweepNeverConverges | code/main.py:163-167 | the first sweep never equals the initial list, and for a non-empty table it is one slot shorter |
| BellmanLemmas.TwoStateSweep | code/main.py:105-155 | in the two-state table, with costs of at most 10 decimals when there is no count or a count of 0, a sweep of any list whose value for the desired state is 0 gives min(COSTE_ON, COSTE_OFF) with its action (ties to ON) for 16, and 0 for 22 |
| BellmanLemmas.TwoStateScenario | code/main.py:90-167 | with two states that both move to the desired one with probability 1, and costs of at most 10 decimals when there is no count or a count of 0, the first sweep gives min(COSTE_ON, COSTE_OFF) with its action, and the second sweep reproduces it |
| LoopLemmas.StartInv | code/main.py:69-95 | the iterate, policy and counter invariants hold before the first sweep |
| LoopLemmas.StepConvergesKeepsTrace | code/main.py:163-165 | a pass that reproduces the retained list keeps the invariants: it is never the first pass, and the list is a fixed point of the sweep whose policy is kept |
| LoopLemmas.StepAdvancesIterate | code/main.py:166-167 | a pass that yields a new list keeps it as the next iterate |
| LoopLemmas.StepAdvancesNoRepeat | code/main.py:163-167 | a pass that yields a new list extends the run of iterates none of which equals its successor |
| LoopLemmas.StepAdvancesPolicy | code/main.py:106-155 | a pass that yields a new list keeps the policy of the sweep of the previous iterate |
| LoopLemmas.StepKeepsCounter | code/main.py:96-160 | a pass keeps the counter at `N_CICLOS` minus the sweeps run when the count is non-zero, and unchanged with no count or a count of 0 |
| LoopLemmas.NoRepeatAll | code/main.py:163-167 | no iterate before the k-th equals its successor |
| LoopLemmas.RunFromKeeps | code/main.py:96-167 | the loop keeps the invariants until it stops |
| LoopLemmas.RunInv | code/main.py:90-167 | the state the loop stops in satisfies the invariants and fails the guard |
| LoopLemmas.RunRetainsLastNewIterate | code/main.py:163-167 | the retained list is the k-th iterate, where no earlier iterate repeated its predecessor, and k is the number of sweeps (less the last one on convergence) |
| LoopLemmas.RunConverged | code/main.py:163-165 | on convergence at least two sweeps ran, the retained list is a fixed point of the sweep, and the policy is that sweep's |
| LoopLemmas.RunPolicy | code/main.py:93-155 | without convergence the policy is that of the last sweep; with no sweep at all it is empty and the list is still the initial zeros |
| LoopLemmas.RunCountsDown | code/main.py:96-160 | a non-zero count c is decremented once per sweep and allows at most c + 1 sweeps: exactly c + 1 unless it converges first, and none when c < 0 |
| LoopLemmas.RunUntilConverged | code/main.py:96-160 | with no count or a count of 0 the counter never changes and never fails the guard; only convergence stops the loop, or else the fuel bound in a state where the program's own guard still holds |
| ValueIteration.ActionCost | code/main.py:112-131 | the accumulation that skips the label and every zero probability equals the action's cost plus the full expectation over columns 1..n |
| ValueIteration.UpdateRow | code/main.py:110-155 | the update of one data row is its specified Bellman outcome: rounded when there is no count or a count of 0, the cheaper action with ties to ON, or the terminal override |
| ValueIteration.Sweep | code/main.py:105-155 | the lists built by appending row after row are exactly the specified sweep of the previous values |
| ValueIteration.OptimalPolicy | code/main.py:90-167 | the final values, policy, convergence flag, counter and sweep count are those of `Run`, whose properties the `LoopLemmas` lemmas state |

## Left out

- Loading the probability tables from CSV files (`obtener_matrices_probs`) is
  file I/O. Its result is the table parameters. Their shape is the
  precondition `Shaped`:
  - the OFF table has at least as many rows as the ON table;
  - every data row of the ON table has a label;
  - no data row has more cells than the ON table has rows.
  The program indexes `matriz_OFF[estado]` and the value list without checking
  either.
- Configuration checks (ladder membership of the desired temperature, the
  type tests on the costs and on `N_CICLOS`) are dynamic type tests that run
  before the loop. They are not modelled. The model accepts any real desired
  temperature (a temperature that labels no row makes every row
  non-terminal) and any integer cycle count. That includes the negative
  counts which the inverted `N_CICLOS` check lets through.
- Printing the final policy is presentation only.
- Floating point: the model computes in exact reals. `Round10` rounds the
  exact value as Python's `round(v, 10)` does. The final conversion back to the
  nearest double is not modelled.
- ValueIteration.OptimalPolicy: with no cycle count (or a count of 0) the
  program loops until convergence, which nothing guarantees. The model takes
  a `fuel` bound and stops there after `fuel` sweeps without convergence.
  Divergence of the unbounded loop is therefore not modelled. `sweeps` is
  likewise a count the program does not keep.
- Bellman.RunFrom: termination with no count or a count of 0 is shown only
  under the same `fuel` bound.
- Bellman.Running: the guard has an extra conjunct, `sweeps < fuel`, when
  there is no count or a count of 0. The guard at `code/main.py:98` has no
  such bound. A loop that may never stop has no termination measure to
  prove, so divergence is not modelled.
- Bellman.Run: with no count or a count of 0, the state it stops in may fail
  only the fuel conjunct of `Running`. There the program would sweep again.
- LoopLemmas.RunUntilConverged: it concludes `converged || sweeps == fuel`.
  The second case is the fuel stop, which the program does not have. The
  lemma also states that the program's own guard still holds there.
