/** The state of one run of the experiment driver as a value, and one function
    per loop body of the driver, each proved to keep the table's invariant. */
module Steps {
  import opened Params
  import opened Table

  /** The bookkeeping table `mem` with the driver's three counters. */
  datatype State = State(mem: seq<Record>, totalUsage: nat, footprint: nat, cnt: nat)

  /** One iteration of the fill loop: the drawn size and the block malloc returned. */
  datatype Alloc = Alloc(size: nat, block: Block)

  /** One iteration of a churn loop: the drawn size, the drawn slot and the
      block malloc returns if the iteration allocates. */
  datatype ChurnDraw = ChurnDraw(size: nat, pos: nat, block: Block)

  /** The record written by an allocation. */
  function Occupy(size: nat, block: Block): Record {
    Record(Live(block), size)
  }

  /** The invariant of the table: it has the capacity the phase-one bound
      asks for, the cursor is inside it, every slot is consistent, the slots
      from the cursor on were never written, and `totalUsage` is at least the
      sum of the sizes (more when a live record was overwritten) and bounded. */
  predicate Valid(s: State, low: nat) {
    && |s.mem| == Capacity(low)
    && s.cnt < |s.mem|
    && (forall i | 0 <= i < |s.mem| :: s.mem[i].Consistent())
    && (forall i | s.cnt <= i < |s.mem| :: s.mem[i] == Empty)
    && Sum(s.mem) <= s.totalUsage < low + MaxSize
  }

  /** How much `totalUsage` exceeds the sizes still recorded: the total size of
      the records that were overwritten while their block was live. */
  function Excess(s: State): int {
    s.totalUsage - Sum(s.mem)
  }

  /** What holds throughout the fill loop: usage and footprint both equal the
      sum of the sizes, and every slot below the cursor holds a block whose
      size was drawn from the former range. */
  predicate Filling(s: State, low: nat, p: Params) {
    && Valid(s, low)
    && s.totalUsage == s.footprint == Sum(s.mem)
    && forall i | 0 <= i < s.cnt ::
         s.mem[i].data.Live? && p.formerLower <= s.mem[i].size <= p.formerUpper
  }

  /** The state on entry: every slot empty, every counter zero. */
  function Initial(low: nat): (s: State)
    ensures Valid(s, low)
    ensures s.cnt == 0 && s.totalUsage == 0 && s.footprint == 0
    ensures Sum(s.mem) == 0 && Occupied(s.mem) == 0
  {
    var mem := seq(Capacity(low), _ => Empty);
    SumOfPrefix(mem, 0, 0);
    OccupiedOfPrefix(mem, 0);
    State(mem, 0, 0, 0)
  }

  /** Body of the fill loop: store the new block at the cursor, advance it
      and add the size to both counters. */
  function FillStep(s: State, a: Alloc): State
    requires s.cnt < |s.mem|
  {
    State(s.mem[s.cnt := Occupy(a.size, a.block)],
          s.totalUsage + a.size, s.footprint + a.size, s.cnt + 1)
  }

  /** The guarded free of both churn loops, with the guard as written: it
      fires when the slot is EMPTY, frees the null pointer, subtracts the
      slot's size and clears the slot. */
  function FreeIfNull(s: State, pos: nat): State
    requires pos < |s.mem| && s.mem[pos].Consistent()
  {
    if s.mem[pos].data.Null? then
      s.(totalUsage := s.totalUsage - s.mem[pos].size, mem := s.mem[pos := Empty])
    else
      s
  }

  /** The guarded allocation of both churn loops: when the new size keeps the
      usage below `low`, the slot receives the new block whatever it held. */
  function AllocIfFits(s: State, low: nat, d: ChurnDraw): State
    requires d.pos < |s.mem|
  {
    if s.totalUsage + d.size < low then
      s.(mem := s.mem[d.pos := Occupy(d.size, d.block)],
         totalUsage := s.totalUsage + d.size,
         footprint := s.footprint + d.size)
    else
      s
  }

  /** Body of the phase-one churn loop. */
  function ChurnOneStep(s: State, low: nat, d: ChurnDraw): State
    requires d.pos < |s.mem| && s.mem[d.pos].Consistent()
  {
    AllocIfFits(FreeIfNull(s, d.pos), low, d)
  }

  /** Body of the bulk-delete loop; the flag says whether a record was freed. */
  function DeleteStep(s: State, pos: nat): (State, bool)
    requires pos < |s.mem| && Sum(s.mem) <= s.totalUsage
  {
    if s.mem[pos].data.Null? then
      (s, false)
    else
      SumUpdate(s.mem, pos, Empty);
      (s.(totalUsage := s.totalUsage - s.mem[pos].size, mem := s.mem[pos := Empty]), true)
  }

  /** Body of the phase-two churn loop: skip an empty slot, otherwise the same
      guarded free and guarded allocation as in phase one. */
  function ChurnTwoStep(s: State, low: nat, d: ChurnDraw): State
    requires d.pos < |s.mem| && s.mem[d.pos].Consistent()
  {
    if s.mem[d.pos].data.Null? then s else AllocIfFits(FreeIfNull(s, d.pos), low, d)
  }

  /** A fill step taken below the bound writes inside the table (the index it
      writes is below the capacity `low / MinimalSize + 2`) and keeps the fill
      invariant: each step adds its size to both counters. */
  lemma FillStepKeepsFilling(s: State, low: nat, p: Params, a: Alloc)
    requires WellFormed(p) && Filling(s, low, p) && s.totalUsage < low
    requires p.formerLower <= a.size <= p.formerUpper
    ensures s.cnt + 1 < Capacity(low)
    ensures Filling(FillStep(s, a), low, p)
    ensures FillStep(s, a).totalUsage == s.totalUsage + a.size
  {
    SumAtLeast(s.mem, s.cnt);
    assert s.cnt * MinimalSize < low;
    assert s.cnt <= low / MinimalSize;
    SumUpdate(s.mem, s.cnt, Occupy(a.size, a.block));
  }

  /** The free guarded by "slot is empty" never changes a valid state: the
      empty slot has size zero and is already clear, so freeing it again is
      idempotent and leaves `totalUsage` as it was. */
  lemma FreeIfNullIsIdle(s: State, low: nat, pos: nat)
    requires Valid(s, low) && pos < |s.mem|
    ensures FreeIfNull(s, pos) == s
  {
    if s.mem[pos].data.Null? {
      assert s.mem[pos] == Empty;
      assert s.mem[pos := Empty] == s.mem;
    }
  }

  /** A phase-one churn step allocates exactly when the new size fits below
      `low`; then it overwrites the slot (leaking a live block, which shows
      in the excess), leaves `totalUsage` below `low` and grows the footprint
      by the size. Otherwise nothing changes. Usage and footprint never drop. */
  lemma ChurnOneStepEffect(s: State, low: nat, p: Params, d: ChurnDraw)
    requires WellFormed(p) && Valid(s, low) && d.pos < s.cnt
    requires p.formerLower <= d.size <= p.formerUpper
    ensures var t := ChurnOneStep(s, low, d);
      && Valid(t, low) && t.cnt == s.cnt
      && s.totalUsage <= t.totalUsage && s.footprint <= t.footprint
      && (s.totalUsage + d.size < low ==>
            && t.mem == s.mem[d.pos := Occupy(d.size, d.block)]
            && t.totalUsage == s.totalUsage + d.size < low
            && t.footprint == s.footprint + d.size
            && Excess(t) == Excess(s) + s.mem[d.pos].size)
      && (low <= s.totalUsage + d.size ==> t == s)
  {
    FreeIfNullIsIdle(s, low, d.pos);
    SumUpdate(s.mem, d.pos, Occupy(d.size, d.block));
  }

  /** A bulk-delete step on an empty slot changes nothing; on an occupied slot
      it clears exactly that slot, lowers `totalUsage` by the old size and
      reports one deletion. The invariant, the excess and the footprint are
      kept, and the occupied count drops by the deletions reported. */
  lemma DeleteStepEffect(s: State, low: nat, pos: nat)
    requires Valid(s, low) && pos < s.cnt
    ensures s.mem[pos].size <= s.totalUsage
    ensures var r := DeleteStep(s, pos);
      && (r.1 <==> s.mem[pos].data.Live?)
      && (!r.1 ==> r.0 == s)
      && (r.1 ==> r.0 == s.(mem := s.mem[pos := Empty], totalUsage := s.totalUsage - s.mem[pos].size))
      && Valid(r.0, low) && Excess(r.0) == Excess(s)
      && Occupied(r.0.mem) + (if r.1 then 1 else 0) == Occupied(s.mem)
  {
    SumUpdate(s.mem, pos, Empty);
    OccupiedUpdate(s.mem, pos, Empty);
  }

  /** A phase-two churn step never touches an empty slot, and on an occupied
      slot its guarded free is dead code. It allocates exactly when the slot
      is occupied and the size fits below `low`; then it overwrites a live
      record, so `totalUsage` afterwards strictly exceeds the sum of sizes by
      more than before. Which slots are occupied never changes. */
  lemma ChurnTwoStepEffect(s: State, low: nat, p: Params, d: ChurnDraw)
    requires WellFormed(p) && p.hasPhaseTwo && Valid(s, low) && d.pos < s.cnt
    requires p.latterLower <= d.size <= p.latterUpper
    ensures s.mem[d.pos].data.Live? ==> FreeIfNull(s, d.pos) == s
    ensures var t := ChurnTwoStep(s, low, d);
      var allocates := s.mem[d.pos].data.Live? && s.totalUsage + d.size < low;
      && Valid(t, low) && t.cnt == s.cnt
      && (allocates ==>
            && t.mem == s.mem[d.pos := Occupy(d.size, d.block)]
            && t.totalUsage == s.totalUsage + d.size < low
            && t.footprint == s.footprint + d.size
            && Excess(t) == Excess(s) + s.mem[d.pos].size
            && Excess(s) < Excess(t))
      && (!allocates ==> t == s)
      && (forall i | 0 <= i < |s.mem| :: t.mem[i].data.Live? == s.mem[i].data.Live?)
      && Occupied(t.mem) == Occupied(s.mem)
  {
    SumUpdate(s.mem, d.pos, Occupy(d.size, d.block));
    OccupiedUpdate(s.mem, d.pos, Occupy(d.size, d.block));
  }
}
