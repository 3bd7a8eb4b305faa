# Memory-allocator load generator: the experiment driver in Dafny

This project models the experiment driver of a synthetic memory-allocator
stress program, `StartExperiment` in `ramcloud_load/load.cpp`. The driver
works on one global bookkeeping table `mem`: a fixed array of records, each
holding a block pointer and the logical size it was allocated with. It keeps
three counters: `totalUsage`, `footprint` and the slot cursor `cnt`. It runs
four loops:

- **fill**: allocate at the cursor until usage reaches the phase-one bound `size10G`;
- **phase-one churn**: pick a random size and slot, apply a guarded free, then
  a guarded re-allocation, until the cumulative footprint reaches `size50G`;
- **bulk delete**: free `floor(deleteFraction * cnt)` occupied slots picked at random;
- **phase-two churn**: as phase one, with the latter size range, skipping empty slots.

An `assert(totalUsage < size10G)` sits between phase one and phase two.

The model has five modules:

- `Params` (params.dfy): the constants and the eight-column parameter tables,
  with the well-formedness the driver relies on.
- `Table` (table.dfy): the record type and its slot invariant (`data` is
  null exactly when `size` is zero), and the sum of sizes and occupied
  count of a table, with their update lemmas.
- `Steps` (steps.dfy): the table and counters as a value (`State`), the
  table invariant `Valid`, and one function per loop body. Each has a lemma
  that states its effect: what it writes, what it leaves unchanged, and how
  usage, footprint and the excess of usage over the recorded sizes move.
- `Loops` (loops.dfy): one recursive function per loop, driven by a finite
  sequence of random draws, and the whole run `StartExperiment`. Lemmas about
  them cover the fill bound, stalling, deletion counts and the assertion.
- `Driver` (driver.dfy): the imperative driver. Class `Experiment` holds the
  table as an `array<Record>` of capacity `low / MinimalSize + 2` and the
  counters as fields. One method per loop body updates the array in place,
  and one method per loop runs `while` loops. Each method is proved to
  compute the function of the same name in `Steps` or `Loops`.

The bounds `size10G` and `size50G` are the parameters `low` and `high`. The
source's own values are `Params.Size10G` and `Params.Size50G`.
`Params.SourceBudgetsFit` shows that with these values the cursor fits a
32-bit `uint` and the bounded counters fit a 64-bit `size_t`.

## Behaviour as written

The model follows the code, also where the code departs from what its
comments intend:

- The cursor `cnt` is declared without an initial value
  (`ramcloud_load/load.cpp:53`). The model starts it at 0, which the fill
  loop's use of it as the next free slot requires.
- The free in the phase-one churn is guarded by `mem[pos].data == nullptr`
  (`ramcloud_load/load.cpp:76`), the inverse of the intended guard. On a
  valid table the guarded free never changes anything
  (`Steps.FreeIfNullIsIdle`). The fill leaves `totalUsage >= size10G`, so the
  allocation guard never holds afterwards. The phase-one churn therefore
  leaves the filled table unchanged and uses up every finite sequence of
  draws (`Loops.ChurnOneStalls`). Phase one can end only when the fill's own
  footprint already reached `size50G`. Then the assertion at
  `ramcloud_load/load.cpp:91` fails, so with assertions compiled in, phase
  two is never reached (`Loops.PhaseOneNeverPasses`).
- The assertion checks the state after the phase-one churn, not after the
  fill.
- In the phase-two churn the `continue` on an empty slot
  (`ramcloud_load/load.cpp:119`) makes the guarded free at 120-125 dead code.
- Both re-allocations (`ramcloud_load/load.cpp:83` and `:127`) overwrite a
  live record without freeing it. The model tracks this as the excess of
  `totalUsage` over the sum of recorded sizes. The excess grows by the
  overwritten size at each such allocation and never shrinks.
- In the phase-two churn no free ever fires, so the footprint grows exactly
  as `totalUsage` does and stays below `size10G` after the reset at
  `ramcloud_load/load.cpp:101` (`Loops.ChurnTwoLoopAccounting`). Whenever
  `0 < size10G <= size50G`, the phase-two churn therefore uses up every finite
  sequence of draws (`Loops.ChurnTwoStalls`, `Loops.PhaseTwoNeverFinishes`).
- With the source's own budgets no run returns (`Loops.SourceRunsNeverReturn`).

The source's comments promise three things the code does not do; the model
follows the code:

- **The assertion.** The comment at `ramcloud_load/load.cpp:90` ("It should
  work") expects `totalUsage < size10G` after phase one. The fill allocates
  until usage reaches `size10G` (`ramcloud_load/load.cpp:9`), overshooting
  by less than one drawn size (`Loops.FillLoopStopsAtBound`), and nothing
  lowers it afterwards.
- **Keeping usage below `size10G` while churning.** The comment at
  `ramcloud_load/load.cpp:13` says the program keeps "allocating and
  deleting existing object at random to keep the total memory below
  size10G" and "stops when a total of size50G memory has been allocated".
  As written, the churn loops never delete and never stop.
- **"Same as above except for object size"**
  (`ramcloud_load/load.cpp:115`). The phase-two churn also skips empty slots
  first, unlike phase one.

## Model

| member | source | states |
|---|---|---|
| `Params.ExperimentParams` | ramcloud_load/load.cpp:18-30 | every experiment 0-7 has former range lower <= upper with lower >= minimalSize, latter lower <= upper, a positive latter lower bound when it has phase two, and a deletion fraction in [0, 1); the former range is degenerate exactly for experiments 0-2 and only experiment 0 lacks phase two |
| `Params.ObjectsToDelete` | ramcloud_load/load.cpp:102 | `floor(deleteFraction * cnt)` never exceeds `cnt` and is the floor of `tenths * cnt / 10` |
| `Params.SourceBudgetsFit` | ramcloud_load/load.cpp:10-40 | with the source's budgets the table capacity `size10G/minimalSize + 2` is below 2^32, usage below `size10G + MaxSize` and footprint below `size50G + MaxSize` stay below 2^64, and `size50G` exceeds `size10G` by more than any size |
| `Steps.Initial` | ramcloud_load/load.cpp:40-53 | the zero-initialised table with zero counters satisfies the table invariant, with no occupied slot and a zero sum of sizes |
| `Steps.FillStep` | ramcloud_load/load.cpp:63-68 | one fill iteration: write the drawn record at the cursor, advance it, add the size to both counters; its properties are stated by `Steps.FillStepKeepsFilling` |
| `Steps.FreeIfNull` | ramcloud_load/load.cpp:76-81 | the guarded free with its guard as written (slot empty); `Steps.FreeIfNullIsIdle` shows it is the identity on a valid table |
| `Steps.AllocIfFits` | ramcloud_load/load.cpp:82-87 | the guarded allocation: write the drawn record at `pos` when `totalUsage + size < size10G`; its effect is stated by `Steps.ChurnOneStepEffect` and `Steps.ChurnTwoStepEffect` |
| `Steps.ChurnOneStep` | ramcloud_load/load.cpp:74-87 | one phase-one churn iteration, the guarded free then the guarded allocation; its effect is stated by `Steps.ChurnOneStepEffect` |
| `Steps.DeleteStep` | ramcloud_load/load.cpp:106-112 | one bulk-delete iteration, with a flag for `objectsDeleted++`; its effect is stated by `Steps.DeleteStepEffect` |
| `Steps.ChurnTwoStep` | ramcloud_load/load.cpp:117-131 | one phase-two churn iteration, skipping an empty slot; its effect is stated by `Steps.ChurnTwoStepEffect` |
| `Steps.FillStepKeepsFilling` | ramcloud_load/load.cpp:62-69 | a fill step taken below the bound writes an index inside the table (cursor + 1 < capacity), because every drawn size is >= minimalSize; it keeps `totalUsage == footprint == sum of sizes`, adds the size, and the written slot holds a block |
| `Steps.FreeIfNullIsIdle` | ramcloud_load/load.cpp:76-81 | the free guarded by "slot is empty" leaves a valid state unchanged: freeing the empty slot again is idempotent and does not alter `totalUsage` |
| `Steps.ChurnOneStepEffect` | ramcloud_load/load.cpp:73-88 | a phase-one churn step allocates exactly when `totalUsage + size < size10G`, leaving `totalUsage < size10G`, growing `footprint` by exactly the size and the excess by the overwritten size; otherwise the state is unchanged; usage and footprint never drop; invariant kept |
| `Steps.DeleteStepEffect` | ramcloud_load/load.cpp:105-113 | picking an empty slot changes nothing; otherwise exactly that slot is reset to (null, 0), `totalUsage` drops by its old size and one deletion is counted; invariant and excess kept, occupied count drops by one |
| `Steps.ChurnTwoStepEffect` | ramcloud_load/load.cpp:116-131 | an empty slot is never modified and the guarded free at 120-125 is dead; an allocation happens exactly on an occupied slot when the size fits, and then `totalUsage` exceeds the sum of sizes by strictly more than before; occupancy of every slot is unchanged |
| `Loops.FillLoop` | ramcloud_load/load.cpp:62-69 | the fill keeps the fill invariant and stays inside the table, advances the cursor once per allocation, and ends only with `totalUsage >= size10G` or the draws used up |
| `Loops.FillLoopWrites` | ramcloud_load/load.cpp:62-69 | the fill writes the drawn records in order from the cursor on and changes no slot below it |
| `Loops.FillLoopStopsAtBound` | ramcloud_load/load.cpp:62-69 | usage was below the bound before the fill's last step, so the fill overshoots `size10G` by less than one former size |
| `Loops.FillOccupancy` | ramcloud_load/load.cpp:62-69 | after the fill the occupied count equals `cnt` and `totalUsage == footprint == sum of sizes` |
| `Loops.FixedSizeFill` | ramcloud_load/load.cpp:60-69 | with a degenerate former range every filled slot has that size and a fill that reached `size10G` has `size10G <= cnt * size < size10G + size`; for size 100, `cnt == ceil(size10G / 100)` |
| `Loops.ChurnOneLoop` | ramcloud_load/load.cpp:73-88 | the phase-one churn keeps the invariant and the cursor, never lowers usage, footprint or excess, overshoots `size50G` by less than the largest size, and ends only with `footprint >= size50G` or the draws used up |
| `Loops.ChurnOneStalls` | ramcloud_load/load.cpp:62-88 | from usage at or above `size10G` and footprint below `size50G`, the phase-one churn returns the state unchanged after using every draw: it never terminates |
| `Loops.DeleteLoop` | ramcloud_load/load.cpp:102-113 | the bulk delete keeps the invariant, cursor, footprint and excess, never counts past `objectsToDelete`, and ends only on reaching it or with the draws used up |
| `Loops.DeleteLoopClears` | ramcloud_load/load.cpp:105-113 | every slot after the bulk delete is unchanged or empty, and the occupied count drops by exactly the deletions counted |
| `Loops.ChurnTwoLoop` | ramcloud_load/load.cpp:116-132 | the phase-two churn keeps the invariant and the cursor, never changes which slots are occupied, never lowers footprint or excess, overshoots `size50G` by less than the largest size, and ends only with `footprint >= size50G` or the draws used up |
| `Loops.PhaseTwo` | ramcloud_load/load.cpp:96-133 | without phase two nothing changes; with it, exactly `floor(deleteFraction * cnt)` slots end up emptied, or fewer when the positions ran out during the bulk delete; a finished phase two emptied exactly that many and reached `footprint >= size50G` |
| `Loops.PhaseOneNeverPasses` | ramcloud_load/load.cpp:62-91 | the fill leaves `totalUsage >= size10G`; if its footprint is below `size50G` the run never leaves phase-one churn, phase one ends only when the fill alone reached `size50G`, and with assertions compiled in the run ends out of draws or failing the assertion at line 91 |
| `Loops.RunDeletesFraction` | ramcloud_load/load.cpp:96-113 | a run that reaches phase two of an experiment that has one leaves exactly `cnt - floor(deleteFraction * cnt)` occupied slots, or more when the positions ran out during the bulk delete |
| `Loops.ChurnTwoLoopAccounting` | ramcloud_load/load.cpp:116-132 | the phase-two churn raises the footprint exactly as much as `totalUsage`, and usage either stays put or ends below `size10G` |
| `Loops.ChurnTwoStalls` | ramcloud_load/load.cpp:116-132 | when the room below `size10G` cannot carry the footprint to `size50G`, the phase-two churn uses every draw and ends below `size50G`: it never terminates |
| `Loops.PhaseTwoNeverFinishes` | ramcloud_load/load.cpp:96-133 | with `0 < size10G <= size50G` phase two of an experiment that has one never finishes |
| `Loops.NoRunReturns` | ramcloud_load/load.cpp:50-135 | when `size50G >= size10G + MaxSize` every run ends with a loop out of draws: the fill ends below `size50G` and the phase-one churn stalls |
| `Loops.SourceRunsNeverReturn` | ramcloud_load/load.cpp:9-14 | with the source's budgets `size10G` and `size50G`, no run of any experiment returns |
| `Loops.StartExperiment` | ramcloud_load/load.cpp:50-135 | one run: fill, phase-one churn, the assertion at line 91 when compiled in, then phase two; its behaviour is stated by `Loops.PhaseOneNeverPasses`, `Loops.NoRunReturns` and `Loops.RunDeletesFraction` |
| `Driver.Experiment.constructor` | ramcloud_load/load.cpp:40-53 | the table has capacity `size10G/minimalSize + 2`, every record is (null, 0) and every counter, including `cnt`, is zero |
| `Driver.Experiment.FillIteration` | ramcloud_load/load.cpp:63-68 | writes only `mem[cnt]`, increments `cnt`, adds the size to `totalUsage` and `footprint`, and keeps the fill invariant |
| `Driver.Experiment.Fill` | ramcloud_load/load.cpp:62-69 | the in-place fill loop ends in the state and draw count of `Loops.FillLoop` |
| `Driver.Experiment.FreeIfNullSlot` | ramcloud_load/load.cpp:76-81 | the in-place guarded free computes `Steps.FreeIfNull` and keeps the invariant |
| `Driver.Experiment.AllocateIfFits` | ramcloud_load/load.cpp:82-87 | the in-place guarded allocation computes `Steps.AllocIfFits` and keeps the invariant |
| `Driver.Experiment.ChurnOneIteration` | ramcloud_load/load.cpp:74-87 | one in-place phase-one churn iteration computes `Steps.ChurnOneStep` and keeps the invariant |
| `Driver.Experiment.ChurnOne` | ramcloud_load/load.cpp:73-88 | the in-place phase-one churn loop ends in the state and draw count of `Loops.ChurnOneLoop` |
| `Driver.Experiment.DeleteIteration` | ramcloud_load/load.cpp:106-112 | one in-place bulk-delete iteration computes `Steps.DeleteStep`, reporting whether the deletion counter advances |
| `Driver.Experiment.BulkDelete` | ramcloud_load/load.cpp:103-113 | the in-place bulk-delete loop ends in the state, deletion count and draw count of `Loops.DeleteLoop` |
| `Driver.Experiment.ChurnTwoIteration` | ramcloud_load/load.cpp:117-131 | one in-place phase-two churn iteration computes `Steps.ChurnTwoStep` and keeps the invariant |
| `Driver.Experiment.ChurnTwo` | ramcloud_load/load.cpp:116-132 | the in-place phase-two churn loop ends in the state and draw count of `Loops.ChurnTwoLoop` |
| `Driver.Experiment.PhaseTwo` | ramcloud_load/load.cpp:96-133 | in-place phase two (footprint reset, bulk delete, phase-two churn) ends as `Loops.PhaseTwo` does |
| `Driver.StartExperiment` | ramcloud_load/load.cpp:50-135 | one in-place run of an experiment ends as `Loops.StartExperiment` does, with a valid table |

## Left out

- `GetMeminfo` (`/proc/self/status` copied to standard output) is I/O and is
  not modelled. Neither is `main`'s read of the experiment number; the type
  `Params.ExperimentNo` admits only the values 0-7 that reach the driver.
- `malloc` and `free` are calls into the C library. A block is an opaque
  value. `malloc` is assumed to return a non-null block, which each draw
  carries; `malloc` returning null is not modelled. `free` changes no
  bookkeeping. The byte count `size * 8`, the memory itself, fragmentation
  and resident-set size are not modelled.
- The pseudo-random generator and its uniform distributions are library
  code. Every random choice is a draw passed in, constrained to its
  distribution's range. Each loop consumes a finite sequence of draws and
  reports when the sequence runs out. Termination of the random loops is
  probabilistic and is not modelled.
- The floating-point product `deleteFraction * cnt` and `floor` are replaced
  by exact tenths (0, 5 and 9); rounding of the `double` value 0.9 is not
  modelled.
- The `DEBUG` `printf` calls and the mid-run memory report are output only.
  The unused `*InBits` constants are not modelled.
- The 64-bit `size_t` and 32-bit `uint` arithmetic is not modelled as
  wrap-around. The table invariant bounds `totalUsage` below
  `size10G + MaxSize` and keeps every subtraction non-negative, and
  `Params.SourceBudgetsFit` shows these bounds fit the source's types.
- Whether `assert` is compiled in (it is removed under `NDEBUG`) is a
  parameter of `StartExperiment`.
- `Driver.Experiment.PhaseTwo`: it runs from any valid table. As written,
  phase two is reached only with assertions compiled out and after a fill
  whose footprint already reached `size50G`.
