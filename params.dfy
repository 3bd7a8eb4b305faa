/** The compile-time constants of the load generator: the two memory budgets,
    the minimal allocation size and the per-experiment parameter tables. */
module Params {

  /** Phase-one bound: the program first allocates this much, in logical units. */
  const Size10G: nat := 10 * 1024 * 1024 * 1024

  /** Cumulative allocation after which a churn loop stops. */
  const Size50G: nat := 50 * 1024 * 1024 * 1024

  /** The smallest size any experiment draws; it sizes the bookkeeping table. */
  const MinimalSize: nat := 50

  /** The largest size any experiment draws (the latter upper bound of experiment 7). */
  const MaxSize: nat := 15000

  /** One past the largest value of a 32-bit `uint`. */
  const UintLimit: nat := 0x1_0000_0000

  /** One past the largest value of a 64-bit `size_t`. */
  const SizeLimit: nat := 0x1_0000_0000_0000_0000

  const FormerSizeRangeLower: seq<nat> := [100, 100, 100, 100, 100, 100, 1000, 50]
  const FormerSizeRangeUpper: seq<nat> := [100, 100, 100, 150, 150, 200, 2000, 150]
  const HasPhaseTwo: seq<bool> := [false, true, true, true, true, true, true, true]
  /** The deletion fractions 0, 0.9 and 0.5, written in tenths. */
  const DeleteTenths: seq<nat> := [0, 0, 9, 0, 9, 5, 9, 9]
  const LatterSizeRangeLower: seq<nat> := [0, 130, 130, 200, 200, 1000, 1500, 5000]
  const LatterSizeRangeUpper: seq<nat> := [0, 130, 130, 250, 250, 2000, 2500, 15000]

  /** The experiment numbers that reach the driver. */
  type ExperimentNo = n: nat | n < 8

  /** One column of the parameter tables. */
  datatype Params = Params(
    formerLower: nat, formerUpper: nat,
    hasPhaseTwo: bool, deleteTenths: nat,
    latterLower: nat, latterUpper: nat)

  /** What the driver relies on: non-empty size ranges, former sizes at least
      the minimal size, positive latter sizes wherever phase two runs, and a
      deletion fraction in [0, 1). */
  predicate WellFormed(p: Params) {
    && MinimalSize <= p.formerLower <= p.formerUpper <= MaxSize
    && p.latterLower <= p.latterUpper <= MaxSize
    && (p.hasPhaseTwo ==> 0 < p.latterLower)
    && p.deleteTenths < 10
  }

  /** The parameters of experiment `no`, read from the tables. */
  function ExperimentParams(no: ExperimentNo): (p: Params)
    ensures WellFormed(p)
    ensures p.formerLower == p.formerUpper <==> no <= 2
    ensures p.hasPhaseTwo <==> no != 0
  {
    Params(FormerSizeRangeLower[no], FormerSizeRangeUpper[no],
           HasPhaseTwo[no], DeleteTenths[no],
           LatterSizeRangeLower[no], LatterSizeRangeUpper[no])
  }

  /** Number of slots of the bookkeeping table for a phase-one bound `low`. */
  function Capacity(low: nat): nat {
    low / MinimalSize + 2
  }

  /** `floor(deleteFraction * cnt)`, the number of objects the bulk delete removes. */
  function ObjectsToDelete(p: Params, cnt: nat): (n: nat)
    requires p.deleteTenths < 10
    ensures n <= cnt
    ensures n * 10 <= p.deleteTenths * cnt < n * 10 + 10
  {
    p.deleteTenths * cnt / 10
  }

  /** With the source's budgets, every slot index fits in a `uint`, both
      counters fit in a `size_t` under the bounds the model keeps (usage below
      `size10G + MaxSize`, footprint below `size50G + MaxSize`), and the
      phase-two bound exceeds the phase-one bound by more than any size. */
  lemma SourceBudgetsFit()
    ensures Capacity(Size10G) < UintLimit
    ensures Size10G + MaxSize < SizeLimit && Size50G + MaxSize < SizeLimit
    ensures 0 < Size10G && Size10G + MaxSize <= Size50G
  {
  }
}
