/** The four loops of the experiment driver, each driven by a finite sequence
    of draws, and the whole experiment built from them. A loop stops either by
    its own condition or because the draws ran out; the second stands for a
    loop that the random sequence has not yet ended. */
module Loops {
  import opened Params
  import opened Table
  import opened Steps

  /** The state a loop ends in and how many draws it used. */
  datatype Run = Run(state: State, consumed: nat)

  /** The state the bulk delete ends in, its deletion counter and how many
      positions it drew. */
  datatype DeleteRun = DeleteRun(state: State, deleted: nat, consumed: nat)

  /** Every fill size is drawn from the former range. */
  predicate FillDraws(p: Params, allocs: seq<Alloc>) {
    forall k | 0 <= k < |allocs| :: p.formerLower <= allocs[k].size <= p.formerUpper
  }

  /** Every churn size is drawn from `[lower, upper]` and every slot from `[0, cnt - 1]`. */
  predicate ChurnDraws(cnt: nat, lower: nat, upper: nat, draws: seq<ChurnDraw>) {
    forall k | 0 <= k < |draws| :: draws[k].pos < cnt && lower <= draws[k].size <= upper
  }

  /** Every slot is drawn from `[0, cnt - 1]`. */
  predicate Positions(cnt: nat, ps: seq<nat>) {
    forall k | 0 <= k < |ps| :: ps[k] < cnt
  }

  /** The fill loop: allocate at the cursor while usage is below `low`. It
      keeps the fill invariant, advances the cursor once per draw used, and
      ends only by reaching `low` or using up the draws. */
  function FillLoop(s: State, low: nat, p: Params, allocs: seq<Alloc>): (r: Run)
    requires WellFormed(p) && Filling(s, low, p) && FillDraws(p, allocs)
    ensures Filling(r.state, low, p)
    ensures r.consumed <= |allocs| && r.state.cnt == s.cnt + r.consumed
    ensures r.consumed == |allocs| || low <= r.state.totalUsage
    ensures low <= s.totalUsage ==> r == Run(s, 0)
    decreases |allocs|
  {
    if low <= s.totalUsage || allocs == [] then
      Run(s, 0)
    else
      FillStepKeepsFilling(s, low, p, allocs[0]);
      assert FillDraws(p, allocs[1..]) by {
        forall k | 0 <= k < |allocs| - 1 ensures allocs[1..][k] == allocs[k + 1] { }
      }
      var r := FillLoop(FillStep(s, allocs[0]), low, p, allocs[1..]);
      Run(r.state, r.consumed + 1)
  }

  /** The fill loop writes the drawn records in order from the cursor on and
      leaves the slots below the cursor as they were. */
  lemma {:induction false} FillLoopWrites(s: State, low: nat, p: Params, allocs: seq<Alloc>)
    requires WellFormed(p) && Filling(s, low, p) && FillDraws(p, allocs)
    ensures var r := FillLoop(s, low, p, allocs);
      && (forall i | 0 <= i < s.cnt :: r.state.mem[i] == s.mem[i])
      && (forall i | s.cnt <= i < r.state.cnt ::
            r.state.mem[i] == Occupy(allocs[i - s.cnt].size, allocs[i - s.cnt].block))
    decreases |allocs|
  {
    if s.totalUsage < low && allocs != [] {
      FillLoopUnfold(s, low, p, allocs);
      var t := FillStep(s, allocs[0]);
      FillLoopWrites(t, low, p, allocs[1..]);
      var r := FillLoop(t, low, p, allocs[1..]);
      forall i | s.cnt <= i < r.state.cnt
        ensures r.state.mem[i] == Occupy(allocs[i - s.cnt].size, allocs[i - s.cnt].block)
      {
        if i == s.cnt {
          assert r.state.mem[i] == t.mem[i];
        } else {
          assert allocs[1..][i - t.cnt] == allocs[i - s.cnt];
        }
      }
    }
  }

  /** The fill loop stops at the first step that reaches `low`: usage was
      below `low` before its last step, so it overshoots `low` by less than
      one former size. */
  lemma {:induction false} FillLoopStopsAtBound(s: State, low: nat, p: Params, allocs: seq<Alloc>)
    requires WellFormed(p) && Filling(s, low, p) && FillDraws(p, allocs)
    ensures var r := FillLoop(s, low, p, allocs);
      && (s.totalUsage < low ==> r.state.totalUsage < low + p.formerUpper)
      && (0 < r.consumed ==> r.state.totalUsage - r.state.mem[r.state.cnt - 1].size < low)
    decreases |allocs|
  {
    if s.totalUsage < low && allocs != [] {
      FillLoopUnfold(s, low, p, allocs);
      var t := FillStep(s, allocs[0]);
      FillLoopStopsAtBound(t, low, p, allocs[1..]);
      if low <= t.totalUsage {
        assert FillLoop(t, low, p, allocs[1..]) == Run(t, 0);
      }
    }
  }

  /** One turn of the fill loop below the bound: a fill step, then the rest
      of the loop on the remaining draws. */
  lemma FillLoopUnfold(s: State, low: nat, p: Params, allocs: seq<Alloc>)
    requires WellFormed(p) && Filling(s, low, p) && FillDraws(p, allocs)
    requires s.totalUsage < low && allocs != []
    ensures Filling(FillStep(s, allocs[0]), low, p) && FillDraws(p, allocs[1..])
    ensures var r := FillLoop(FillStep(s, allocs[0]), low, p, allocs[1..]);
      FillLoop(s, low, p, allocs) == Run(r.state, r.consumed + 1)
  {
    FillStepKeepsFilling(s, low, p, allocs[0]);
  }

  /** The phase-one churn loop: a churn step while the footprint is below
      `high`. Usage, footprint and excess never drop, the cursor stays put, the
      footprint overshoots `high` by less than the largest size, and the loop
      ends only by using up the draws or reaching `high`. */
  function ChurnOneLoop(s: State, low: nat, high: nat, p: Params, draws: seq<ChurnDraw>): (r: Run)
    requires WellFormed(p) && Valid(s, low)
    requires ChurnDraws(s.cnt, p.formerLower, p.formerUpper, draws)
    ensures Valid(r.state, low) && r.state.cnt == s.cnt
    ensures r.consumed <= |draws| && (r.consumed == |draws| || high <= r.state.footprint)
    ensures s.totalUsage <= r.state.totalUsage && s.footprint <= r.state.footprint
    ensures Excess(s) <= Excess(r.state)
    ensures s.footprint < high + MaxSize ==> r.state.footprint < high + MaxSize
    ensures high <= s.footprint ==> r == Run(s, 0)
    decreases |draws|
  {
    if high <= s.footprint || draws == [] then
      Run(s, 0)
    else
      ChurnOneStepEffect(s, low, p, draws[0]);
      var r := ChurnOneLoop(ChurnOneStep(s, low, draws[0]), low, high, p, draws[1..]);
      Run(r.state, r.consumed + 1)
  }

  /** One turn of the phase-one churn loop below `high`. */
  lemma ChurnOneLoopUnfold(s: State, low: nat, high: nat, p: Params, draws: seq<ChurnDraw>)
    requires WellFormed(p) && Valid(s, low)
    requires ChurnDraws(s.cnt, p.formerLower, p.formerUpper, draws)
    requires s.footprint < high && draws != []
    ensures var t := ChurnOneStep(s, low, draws[0]);
      && Valid(t, low) && t.cnt == s.cnt
      && ChurnDraws(t.cnt, p.formerLower, p.formerUpper, draws[1..])
      && var r := ChurnOneLoop(t, low, high, p, draws[1..]);
         ChurnOneLoop(s, low, high, p, draws) == Run(r.state, r.consumed + 1)
  {
    ChurnOneStepEffect(s, low, p, draws[0]);
  }

  /** Once usage has reached `low`, as the fill loop leaves it, the phase-one
      churn loop never changes the state: its guarded free only ever frees an
      empty slot and its allocation never fits. With the footprint below
      `high` it therefore uses up every finite sequence of draws. */
  lemma {:induction false} ChurnOneStalls(s: State, low: nat, high: nat, p: Params, draws: seq<ChurnDraw>)
    requires WellFormed(p) && Valid(s, low)
    requires ChurnDraws(s.cnt, p.formerLower, p.formerUpper, draws)
    requires low <= s.totalUsage && s.footprint < high
    ensures ChurnOneLoop(s, low, high, p, draws) == Run(s, |draws|)
  {
    if draws != [] {
      ChurnOneStepEffect(s, low, p, draws[0]);
      ChurnOneStalls(s, low, high, p, draws[1..]);
    }
  }

  /** The bulk-delete loop: free occupied slots until `toDelete` deletions are
      counted. The counter never passes `toDelete` and the loop ends only by
      reaching it or using up the positions; the cursor and the footprint are
      kept, and usage drops with the sizes freed so the excess is kept. */
  function DeleteLoop(s: State, low: nat, toDelete: nat, deleted: nat, ps: seq<nat>): (r: DeleteRun)
    requires Valid(s, low) && Positions(s.cnt, ps)
    ensures Valid(r.state, low) && r.state.cnt == s.cnt && r.state.footprint == s.footprint
    ensures Excess(r.state) == Excess(s)
    ensures r.consumed <= |ps| && deleted <= r.deleted
    ensures r.consumed == |ps| || toDelete <= r.deleted
    ensures deleted <= toDelete ==> r.deleted <= toDelete
    decreases |ps|
  {
    if toDelete <= deleted || ps == [] then
      DeleteRun(s, deleted, 0)
    else
      DeleteStepEffect(s, low, ps[0]);
      var step := DeleteStep(s, ps[0]);
      var r := DeleteLoop(step.0, low, toDelete, if step.1 then deleted + 1 else deleted, ps[1..]);
      DeleteRun(r.state, r.deleted, r.consumed + 1)
  }

  /** Every slot the bulk delete leaves is either as it was or cleared, and
      the occupied count drops by exactly the deletions it counts. */
  lemma {:induction false} DeleteLoopClears(s: State, low: nat, toDelete: nat, deleted: nat, ps: seq<nat>)
    requires Valid(s, low) && Positions(s.cnt, ps)
    ensures var r := DeleteLoop(s, low, toDelete, deleted, ps);
      && Occupied(r.state.mem) + (r.deleted - deleted) == Occupied(s.mem)
      && forall i | 0 <= i < |s.mem| :: r.state.mem[i] == s.mem[i] || r.state.mem[i] == Empty
    decreases |ps|
  {
    if deleted < toDelete && ps != [] {
      DeleteLoopUnfold(s, low, toDelete, deleted, ps);
      DeleteStepEffect(s, low, ps[0]);
      var step := DeleteStep(s, ps[0]);
      DeleteLoopClears(step.0, low, toDelete, if step.1 then deleted + 1 else deleted, ps[1..]);
    }
  }

  /** One turn of the bulk-delete loop below `toDelete`. */
  lemma DeleteLoopUnfold(s: State, low: nat, toDelete: nat, deleted: nat, ps: seq<nat>)
    requires Valid(s, low) && Positions(s.cnt, ps)
    requires deleted < toDelete && ps != []
    ensures var step := DeleteStep(s, ps[0]);
      && Valid(step.0, low) && step.0.cnt == s.cnt && Positions(s.cnt, ps[1..])
      && var r := DeleteLoop(step.0, low, toDelete, if step.1 then deleted + 1 else deleted, ps[1..]);
         DeleteLoop(s, low, toDelete, deleted, ps) == DeleteRun(r.state, r.deleted, r.consumed + 1)
  {
    DeleteStepEffect(s, low, ps[0]);
  }

  /** The phase-two churn loop: a phase-two churn step while the footprint is
      below `high`. No slot changes from empty to occupied or back, footprint
      and excess never drop, the footprint overshoots `high` by less than the
      largest size, and the loop ends only by using up the draws or reaching
      `high`. */
  function ChurnTwoLoop(s: State, low: nat, high: nat, p: Params, draws: seq<ChurnDraw>): (r: Run)
    requires WellFormed(p) && p.hasPhaseTwo && Valid(s, low)
    requires ChurnDraws(s.cnt, p.latterLower, p.latterUpper, draws)
    ensures Valid(r.state, low) && r.state.cnt == s.cnt
    ensures r.consumed <= |draws| && (r.consumed == |draws| || high <= r.state.footprint)
    ensures s.footprint <= r.state.footprint && Excess(s) <= Excess(r.state)
    ensures forall i | 0 <= i < |s.mem| :: r.state.mem[i].data.Live? == s.mem[i].data.Live?
    ensures Occupied(r.state.mem) == Occupied(s.mem)
    ensures s.footprint < high + MaxSize ==> r.state.footprint < high + MaxSize
    ensures high <= s.footprint ==> r == Run(s, 0)
    decreases |draws|
  {
    if high <= s.footprint || draws == [] then
      Run(s, 0)
    else
      ChurnTwoStepEffect(s, low, p, draws[0]);
      var r := ChurnTwoLoop(ChurnTwoStep(s, low, draws[0]), low, high, p, draws[1..]);
      Run(r.state, r.consumed + 1)
  }

  /** One turn of the phase-two churn loop below `high`. */
  lemma ChurnTwoLoopUnfold(s: State, low: nat, high: nat, p: Params, draws: seq<ChurnDraw>)
    requires WellFormed(p) && p.hasPhaseTwo && Valid(s, low)
    requires ChurnDraws(s.cnt, p.latterLower, p.latterUpper, draws)
    requires s.footprint < high && draws != []
    ensures var t := ChurnTwoStep(s, low, draws[0]);
      && Valid(t, low) && t.cnt == s.cnt
      && ChurnDraws(t.cnt, p.latterLower, p.latterUpper, draws[1..])
      && var r := ChurnTwoLoop(t, low, high, p, draws[1..]);
         ChurnTwoLoop(s, low, high, p, draws) == Run(r.state, r.consumed + 1)
  {
    ChurnTwoStepEffect(s, low, p, draws[0]);
  }

  /** No free ever fires in the phase-two churn, so the footprint grows
      exactly as the usage does, and the usage either stays where it was or
      ends below `low`. */
  lemma {:induction false} ChurnTwoLoopAccounting(s: State, low: nat, high: nat, p: Params, draws: seq<ChurnDraw>)
    requires WellFormed(p) && p.hasPhaseTwo && Valid(s, low)
    requires ChurnDraws(s.cnt, p.latterLower, p.latterUpper, draws)
    ensures var r := ChurnTwoLoop(s, low, high, p, draws);
      && r.state.footprint + s.totalUsage == s.footprint + r.state.totalUsage
      && (r.state.totalUsage == s.totalUsage || r.state.totalUsage < low)
    decreases |draws|
  {
    if s.footprint < high && draws != [] {
      ChurnTwoLoopUnfold(s, low, high, p, draws);
      ChurnTwoStepEffect(s, low, p, draws[0]);
      ChurnTwoLoopAccounting(ChurnTwoStep(s, low, draws[0]), low, high, p, draws[1..]);
    }
  }

  /** The phase-two churn cannot raise the footprint by more than the room
      left below `low`. When that room does not carry the footprint to
      `high`, as after the footprint reset whenever `low <= high`, the loop
      uses up every finite sequence of draws: it never terminates. */
  lemma ChurnTwoStalls(s: State, low: nat, high: nat, p: Params, draws: seq<ChurnDraw>)
    requires WellFormed(p) && p.hasPhaseTwo && Valid(s, low)
    requires ChurnDraws(s.cnt, p.latterLower, p.latterUpper, draws)
    requires s.footprint < high && s.footprint + low <= high + s.totalUsage
    ensures var r := ChurnTwoLoop(s, low, high, p, draws);
      r.state.footprint < high && r.consumed == |draws|
  {
    ChurnTwoLoopAccounting(s, low, high, p, draws);
  }

  /** The random draws of one run, loop by loop, with the blocks malloc returns. */
  datatype Draws = Draws(
    fill: seq<Alloc>, churnOne: seq<ChurnDraw>,
    deletes: seq<nat>, churnTwo: seq<ChurnDraw>)

  /** How a run ends: a loop used up its draws, the assertion after phase one
      aborted the process, or the experiment returned. */
  datatype Outcome = OutOfDraws(state: State) | AssertFailed(state: State) | Finished(state: State)

  /** The draws respect the distributions: sizes from each phase's range and
      slots from `[0, cnt - 1]` for the `cnt` the fill loop leaves. */
  predicate DrawsFit(p: Params, low: nat, d: Draws) {
    && WellFormed(p)
    && FillDraws(p, d.fill)
    && var cnt := FillLoop(Initial(low), low, p, d.fill).state.cnt;
       && ChurnDraws(cnt, p.formerLower, p.formerUpper, d.churnOne)
       && Positions(cnt, d.deletes)
       && ChurnDraws(cnt, p.latterLower, p.latterUpper, d.churnTwo)
  }

  /** Phase two from state `s`: when the experiment has one, reset the
      footprint, delete `floor(deleteFraction * cnt)` objects, then churn with
      the latter sizes. Exactly that many slots end up emptied, unless the
      positions ran out during the bulk delete, which leaves fewer emptied;
      the churn never changes which slots are occupied. A finished phase two
      has completed its bulk delete and reached `high`. */
  function PhaseTwo(s: State, low: nat, high: nat, p: Params, d: Draws): (e: Outcome)
    requires WellFormed(p) && Valid(s, low)
    requires Positions(s.cnt, d.deletes) && ChurnDraws(s.cnt, p.latterLower, p.latterUpper, d.churnTwo)
    ensures Valid(e.state, low) && e.state.cnt == s.cnt && !e.AssertFailed?
    ensures !p.hasPhaseTwo ==> e == Finished(s)
    ensures p.hasPhaseTwo ==>
              || Occupied(e.state.mem) + ObjectsToDelete(p, s.cnt) == Occupied(s.mem)
              || (e.OutOfDraws? && Occupied(s.mem) < Occupied(e.state.mem) + ObjectsToDelete(p, s.cnt))
    ensures p.hasPhaseTwo && e.Finished? ==>
              && Occupied(e.state.mem) + ObjectsToDelete(p, s.cnt) == Occupied(s.mem)
              && high <= e.state.footprint
  {
    if !p.hasPhaseTwo then
      Finished(s)
    else
      var toDelete := ObjectsToDelete(p, s.cnt);
      var del := DeleteLoop(s.(footprint := 0), low, toDelete, 0, d.deletes);
      DeleteLoopClears(s.(footprint := 0), low, toDelete, 0, d.deletes);
      if del.deleted < toDelete then
        OutOfDraws(del.state)
      else
        var churn := ChurnTwoLoop(del.state, low, high, p, d.churnTwo);
        if churn.state.footprint < high then OutOfDraws(churn.state) else Finished(churn.state)
  }

  /** With `0 < low <= high`, phase two of an experiment that has one never
      finishes: after the footprint reset the phase-two churn stalls. */
  lemma PhaseTwoNeverFinishes(s: State, low: nat, high: nat, p: Params, d: Draws)
    requires WellFormed(p) && Valid(s, low)
    requires Positions(s.cnt, d.deletes) && ChurnDraws(s.cnt, p.latterLower, p.latterUpper, d.churnTwo)
    requires p.hasPhaseTwo && 0 < low <= high
    ensures PhaseTwo(s, low, high, p, d).OutOfDraws?
  {
    var toDelete := ObjectsToDelete(p, s.cnt);
    var del := DeleteLoop(s.(footprint := 0), low, toDelete, 0, d.deletes);
    if toDelete <= del.deleted {
      ChurnTwoStalls(del.state, low, high, p, d.churnTwo);
    }
  }

  /** One run of experiment `no` with bounds `low` and `high`: fill, phase-one
      churn, the assertion `totalUsage < low` (compiled in when
      `assertsEnabled`), then phase two. The bookkeeping cursor starts at 0. */
  function StartExperiment(no: ExperimentNo, low: nat, high: nat, assertsEnabled: bool, d: Draws): Outcome
    requires DrawsFit(ExperimentParams(no), low, d)
  {
    var p := ExperimentParams(no);
    var fill := FillLoop(Initial(low), low, p, d.fill);
    if fill.state.totalUsage < low then
      OutOfDraws(fill.state)
    else
      var churn := ChurnOneLoop(fill.state, low, high, p, d.churnOne);
      if churn.state.footprint < high then
        OutOfDraws(churn.state)
      else if assertsEnabled && low <= churn.state.totalUsage then
        AssertFailed(churn.state)
      else
        PhaseTwo(churn.state, low, high, p, d)
  }

  /** After a completed fill every slot below the cursor holds a block and
      the slots after it are empty, so the occupied count is the cursor. */
  lemma FillOccupancy(low: nat, p: Params, allocs: seq<Alloc>)
    requires WellFormed(p) && FillDraws(p, allocs)
    ensures var s := FillLoop(Initial(low), low, p, allocs).state;
      Occupied(s.mem) == s.cnt && s.totalUsage == s.footprint == Sum(s.mem)
  {
    var s := FillLoop(Initial(low), low, p, allocs).state;
    OccupiedOfPrefix(s.mem, s.cnt);
  }

  /** With a fixed former size the fill writes only records of that size, and
      a completed fill has `cnt * size` between `low` and `low + size`; for the
      size 100 of experiments 0 to 2 that makes `cnt` the ceiling of `low / 100`. */
  lemma FixedSizeFill(low: nat, p: Params, allocs: seq<Alloc>)
    requires WellFormed(p) && FillDraws(p, allocs) && p.formerLower == p.formerUpper
    ensures var r := FillLoop(Initial(low), low, p, allocs);
      && (forall i | 0 <= i < r.state.cnt :: r.state.mem[i].size == p.formerLower)
      && (low <= r.state.totalUsage ==>
            && low <= r.state.cnt * p.formerLower < low + p.formerLower
            && (p.formerLower == 100 ==> r.state.cnt == (low + 99) / 100))
  {
    var r := FillLoop(Initial(low), low, p, allocs);
    var s := r.state;
    FillLoopStopsAtBound(Initial(low), low, p, allocs);
    SumOfPrefix(s.mem, s.cnt, p.formerLower);
    if low <= s.totalUsage && p.formerLower == 100 {
      assert low <= s.cnt * 100 < low + 100;
    }
  }

  /** The assertion after phase one can never pass: the fill leaves usage at
      or above `low` and the phase-one churn never lowers it. If the fill's
      footprint is below `high`, the phase-one churn returns the filled table
      unchanged after using every draw (it never terminates); phase one can
      only end when the fill alone reached `high`. With assertions compiled in,
      phase two is therefore never reached. */
  lemma PhaseOneNeverPasses(no: ExperimentNo, low: nat, high: nat, assertsEnabled: bool, d: Draws)
    requires DrawsFit(ExperimentParams(no), low, d)
    ensures var p := ExperimentParams(no);
      var fill := FillLoop(Initial(low), low, p, d.fill).state;
      var e := StartExperiment(no, low, high, assertsEnabled, d);
      && (low <= fill.totalUsage && fill.footprint < high ==> e == OutOfDraws(fill))
      && (!e.OutOfDraws? ==> low <= fill.totalUsage && high <= fill.footprint)
      && (assertsEnabled ==> e.OutOfDraws? || e == AssertFailed(fill))
  {
    var p := ExperimentParams(no);
    var fill := FillLoop(Initial(low), low, p, d.fill).state;
    if low <= fill.totalUsage && fill.footprint < high {
      ChurnOneStalls(fill, low, high, p, d.churnOne);
    }
  }

  /** A run that reaches phase two of an experiment that has one (assertions
      compiled out and phase one ended) empties exactly
      `floor(deleteFraction * cnt)` of the `cnt` slots the fill populated,
      unless the positions run out during the bulk delete, leaving fewer
      emptied. */
  lemma RunDeletesFraction(no: ExperimentNo, low: nat, high: nat, d: Draws)
    requires DrawsFit(ExperimentParams(no), low, d)
    ensures var p := ExperimentParams(no);
      var fill := FillLoop(Initial(low), low, p, d.fill).state;
      var e := StartExperiment(no, low, high, false, d);
      var left := fill.cnt - ObjectsToDelete(p, fill.cnt);
      p.hasPhaseTwo && low <= fill.totalUsage && high <= fill.footprint ==>
        || Occupied(e.state.mem) == left
        || (e.OutOfDraws? && left < Occupied(e.state.mem))
  {
    FillOccupancy(low, ExperimentParams(no), d.fill);
  }

  /** When `high` exceeds `low` by at least the largest size, as with the
      source's budgets, no run returns: the fill ends below `high`, so the
      phase-one churn stalls whatever the draws. */
  lemma NoRunReturns(no: ExperimentNo, low: nat, high: nat, assertsEnabled: bool, d: Draws)
    requires DrawsFit(ExperimentParams(no), low, d)
    requires 0 < low && low + MaxSize <= high
    ensures StartExperiment(no, low, high, assertsEnabled, d).OutOfDraws?
  {
    FillLoopStopsAtBound(Initial(low), low, ExperimentParams(no), d.fill);
    PhaseOneNeverPasses(no, low, high, assertsEnabled, d);
  }

  /** With the source's own budgets `size10G` and `size50G`, every run of
      every experiment ends with a loop that has used up its draws. */
  lemma SourceRunsNeverReturn(no: ExperimentNo, assertsEnabled: bool, d: Draws)
    requires DrawsFit(ExperimentParams(no), Size10G, d)
    ensures StartExperiment(no, Size10G, Size50G, assertsEnabled, d).OutOfDraws?
  {
    NoRunReturns(no, Size10G, Size50G, assertsEnabled, d);
  }
}
