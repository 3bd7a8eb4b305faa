/** The experiment driver as the source runs it: one table of records updated
    in place by index and three counters updated step by step. Every step and
    every loop is proved to compute the function of the same name in `Steps`
    and `Loops`, whose properties are proved there. */
module Driver {
  import opened Params
  import opened Table
  import opened Steps
  import opened Loops

  /** The bookkeeping table `mem` and the counters of one `StartExperiment` call. */
  class Experiment {
    /** The phase-one bound (`size10G`). */
    const low: nat
    /** The cumulative bound of a churn loop (`size50G`). */
    const high: nat
    /** The experiment's column of the parameter tables. */
    const p: Params
    /** The global table, `low / minimalSize + 2` records, never resized. */
    const mem: array<Record>
    var totalUsage: nat
    var footprint: nat
    var cnt: nat

    /** The table and counters as a value. */
    ghost function Snapshot(): State
      reads this, mem
    {
      State(mem[..], totalUsage, footprint, cnt)
    }

    ghost predicate Valid()
      reads this, mem
    {
      WellFormed(p) && Steps.Valid(Snapshot(), low)
    }

    /** A zero-initialised table and zero counters; the cursor starts at 0. */
    constructor (no: ExperimentNo, low: nat, high: nat)
      ensures Valid() && fresh(mem)
      ensures this.low == low && this.high == high && p == ExperimentParams(no)
      ensures Snapshot() == Initial(low)
    {
      this.low := low;
      this.high := high;
      p := ExperimentParams(no);
      mem := new Record[Capacity(low)](_ => Empty);
      totalUsage, footprint, cnt := 0, 0, 0;
      new;
      assert mem[..] == Initial(low).mem;
    }

    /** One iteration of the fill loop. */
    method FillIteration(a: Alloc)
      requires WellFormed(p) && Filling(Snapshot(), low, p) && totalUsage < low
      requires p.formerLower <= a.size <= p.formerUpper
      modifies this, mem
      ensures Snapshot() == FillStep(old(Snapshot()), a)
      ensures Filling(Snapshot(), low, p)
    {
      FillStepKeepsFilling(Snapshot(), low, p, a);
      mem[cnt] := Occupy(a.size, a.block);
      cnt := cnt + 1;
      totalUsage := totalUsage + a.size;
      footprint := footprint + a.size;
    }

    /** The fill loop, run until usage reaches `low` or the draws run out. */
    method Fill(allocs: seq<Alloc>) returns (consumed: nat)
      requires WellFormed(p) && Filling(Snapshot(), low, p) && FillDraws(p, allocs)
      modifies this, mem
      ensures Run(Snapshot(), consumed) == FillLoop(old(Snapshot()), low, p, allocs)
    {
      consumed := 0;
      while totalUsage < low && consumed < |allocs|
        invariant consumed <= |allocs|
        invariant Filling(Snapshot(), low, p) && FillDraws(p, allocs[consumed..])
        invariant var r := FillLoop(Snapshot(), low, p, allocs[consumed..]);
          FillLoop(old(Snapshot()), low, p, allocs) == Run(r.state, r.consumed + consumed)
        decreases |allocs| - consumed
      {
        FillLoopUnfold(Snapshot(), low, p, allocs[consumed..]);
        assert allocs[consumed..][1..] == allocs[consumed + 1..];
        FillIteration(allocs[consumed]);
        consumed := consumed + 1;
      }
    }

    /** The guarded free shared by both churn loops, with its guard as
        written: it acts only on an empty slot. */
    method FreeIfNullSlot(pos: nat)
      requires Valid() && pos < cnt
      modifies this, mem
      ensures Snapshot() == FreeIfNull(old(Snapshot()), pos)
      ensures Valid()
    {
      FreeIfNullIsIdle(Snapshot(), low, pos);
      if mem[pos].data == Null {
        // free(mem[pos].data) releases the null pointer: nothing to model
        totalUsage := totalUsage - mem[pos].size;
        mem[pos] := Empty;
      }
    }

    /** The guarded allocation shared by both churn loops. */
    method AllocateIfFits(d: ChurnDraw)
      requires Valid() && d.pos < cnt && 0 < d.size
      modifies this, mem
      ensures Snapshot() == AllocIfFits(old(Snapshot()), low, d)
      ensures Valid()
    {
      if totalUsage + d.size < low {
        SumUpdate(mem[..], d.pos, Occupy(d.size, d.block));
        mem[d.pos] := Occupy(d.size, d.block);
        totalUsage := totalUsage + d.size;
        footprint := footprint + d.size;
      }
    }

    /** One iteration of the phase-one churn loop. */
    method ChurnOneIteration(d: ChurnDraw)
      requires Valid() && d.pos < cnt && p.formerLower <= d.size <= p.formerUpper
      modifies this, mem
      ensures Snapshot() == ChurnOneStep(old(Snapshot()), low, d)
      ensures Valid()
    {
      FreeIfNullSlot(d.pos);
      AllocateIfFits(d);
    }

    /** The phase-one churn loop, run until the footprint reaches `high` or
        the draws run out. */
    method ChurnOne(draws: seq<ChurnDraw>) returns (consumed: nat)
      requires Valid() && ChurnDraws(cnt, p.formerLower, p.formerUpper, draws)
      modifies this, mem
      ensures Run(Snapshot(), consumed) == ChurnOneLoop(old(Snapshot()), low, high, p, draws)
      ensures Valid()
    {
      consumed := 0;
      while footprint < high && consumed < |draws|
        invariant consumed <= |draws| && cnt == old(cnt)
        invariant Valid() && ChurnDraws(cnt, p.formerLower, p.formerUpper, draws[consumed..])
        invariant var r := ChurnOneLoop(Snapshot(), low, high, p, draws[consumed..]);
          ChurnOneLoop(old(Snapshot()), low, high, p, draws) == Run(r.state, r.consumed + consumed)
        decreases |draws| - consumed
      {
        ChurnOneLoopUnfold(Snapshot(), low, high, p, draws[consumed..]);
        assert draws[consumed..][1..] == draws[consumed + 1..];
        ChurnOneIteration(draws[consumed]);
        consumed := consumed + 1;
      }
    }

    /** One iteration of the bulk-delete loop; `deleted` says whether the
        counter of deleted objects advances. */
    method DeleteIteration(pos: nat) returns (deleted: bool)
      requires Valid() && pos < cnt
      modifies this, mem
      ensures (Snapshot(), deleted) == DeleteStep(old(Snapshot()), pos)
      ensures Valid()
    {
      if mem[pos].data == Null {
        return false;
      }
      DeleteStepEffect(Snapshot(), low, pos);
      totalUsage := totalUsage - mem[pos].size;
      mem[pos] := Empty;
      deleted := true;
    }

    /** The bulk-delete loop, run until `toDelete` objects are deleted or the
        positions run out. */
    method BulkDelete(toDelete: nat, ps: seq<nat>) returns (deleted: nat, consumed: nat)
      requires Valid() && Positions(cnt, ps)
      modifies this, mem
      ensures DeleteRun(Snapshot(), deleted, consumed) == DeleteLoop(old(Snapshot()), low, toDelete, 0, ps)
      ensures Valid()
    {
      deleted, consumed := 0, 0;
      while deleted < toDelete && consumed < |ps|
        invariant consumed <= |ps| && cnt == old(cnt)
        invariant Valid() && Positions(cnt, ps[consumed..])
        invariant var r := DeleteLoop(Snapshot(), low, toDelete, deleted, ps[consumed..]);
          DeleteLoop(old(Snapshot()), low, toDelete, 0, ps) == DeleteRun(r.state, r.deleted, r.consumed + consumed)
        decreases |ps| - consumed
      {
        DeleteLoopUnfold(Snapshot(), low, toDelete, deleted, ps[consumed..]);
        assert ps[consumed..][1..] == ps[consumed + 1..];
        var freed := DeleteIteration(ps[consumed]);
        if freed {
          deleted := deleted + 1;
        }
        consumed := consumed + 1;
      }
    }

    /** One iteration of the phase-two churn loop: an empty slot is skipped. */
    method ChurnTwoIteration(d: ChurnDraw)
      requires Valid() && p.hasPhaseTwo && d.pos < cnt
      requires p.latterLower <= d.size <= p.latterUpper
      modifies this, mem
      ensures Snapshot() == ChurnTwoStep(old(Snapshot()), low, d)
      ensures Valid()
    {
      if mem[d.pos].data == Null {
        return;
      }
      FreeIfNullSlot(d.pos);
      AllocateIfFits(d);
    }

    /** The phase-two churn loop, run until the footprint reaches `high` or
        the draws run out. */
    method ChurnTwo(draws: seq<ChurnDraw>) returns (consumed: nat)
      requires Valid() && p.hasPhaseTwo && ChurnDraws(cnt, p.latterLower, p.latterUpper, draws)
      modifies this, mem
      ensures Run(Snapshot(), consumed) == ChurnTwoLoop(old(Snapshot()), low, high, p, draws)
      ensures Valid()
    {
      consumed := 0;
      while footprint < high && consumed < |draws|
        invariant consumed <= |draws| && cnt == old(cnt)
        invariant Valid() && ChurnDraws(cnt, p.latterLower, p.latterUpper, draws[consumed..])
        invariant var r := ChurnTwoLoop(Snapshot(), low, high, p, draws[consumed..]);
          ChurnTwoLoop(old(Snapshot()), low, high, p, draws) == Run(r.state, r.consumed + consumed)
        decreases |draws| - consumed
      {
        ChurnTwoLoopUnfold(Snapshot(), low, high, p, draws[consumed..]);
        assert draws[consumed..][1..] == draws[consumed + 1..];
        ChurnTwoIteration(draws[consumed]);
        consumed := consumed + 1;
      }
    }

    /** Phase two: when the experiment has one, reset the footprint, delete
        `floor(deleteFraction * cnt)` objects and churn with the latter sizes. */
    method PhaseTwo(d: Draws) returns (finished: bool)
      requires Valid()
      requires Positions(cnt, d.deletes) && ChurnDraws(cnt, p.latterLower, p.latterUpper, d.churnTwo)
      modifies this, mem
      ensures Loops.PhaseTwo(old(Snapshot()), low, high, p, d) == Tag(if finished then Returned else RanOut, Snapshot())
      ensures Valid()
    {
      if !p.hasPhaseTwo {
        return true;
      }
      footprint := 0;
      var toDelete := ObjectsToDelete(p, cnt);
      var deleted, _ := BulkDelete(toDelete, d.deletes);
      if deleted < toDelete {
        return false;
      }
      var _ := ChurnTwo(d.churnTwo);
      finished := high <= footprint;
    }
  }

  /** How a run ended, without its state. */
  datatype Status = RanOut | Aborted | Returned

  /** The outcome that a status and a final state stand for. */
  function Tag(status: Status, s: State): (e: Outcome)
    ensures e.state == s
  {
    match status
    case RanOut => OutOfDraws(s)
    case Aborted => AssertFailed(s)
    case Returned => Finished(s)
  }

  /** One run of experiment `no`: fill, phase-one churn, the assertion
      `totalUsage < low` when assertions are compiled in, then phase two. */
  method StartExperiment(no: ExperimentNo, low: nat, high: nat, assertsEnabled: bool, d: Draws)
    returns (e: Experiment, status: Status)
    requires DrawsFit(ExperimentParams(no), low, d)
    ensures fresh(e) && e.Valid()
    ensures Loops.StartExperiment(no, low, high, assertsEnabled, d) == Tag(status, e.Snapshot())
  {
    e := new Experiment(no, low, high);
    var _ := e.Fill(d.fill);
    if e.totalUsage < low {
      return e, RanOut;
    }
    var _ := e.ChurnOne(d.churnOne);
    if e.footprint < high {
      return e, RanOut;
    }
    if assertsEnabled && low <= e.totalUsage {
      return e, Aborted;
    }
    var finished := e.PhaseTwo(d);
    status := if finished then Returned else RanOut;
  }
}
