/** One slot of the bookkeeping table and the two quantities read off a
    sequence of slots: the sum of their sizes and the number of occupied ones. */
module Table {
  import opened Params

  /** A block returned by the allocator; nothing is known about it but equality. */
  type Block(==)

  /** The `data` pointer of a record: null, or a block the allocator returned. */
  datatype Handle = Null | Live(block: Block)

  /** A record of the table: the block and the size it was requested with. */
  datatype Record = Record(data: Handle, size: nat) {
    /** The slot invariant: a record is empty exactly when its size is zero. */
    predicate Consistent() {
      data.Null? <==> size == 0
    }
  }

  /** The record a slot holds before its first allocation and after a free. */
  const Empty: Record := Record(Null, 0)

  /** Sum of the sizes of `rs`. */
  function Sum(rs: seq<Record>): nat {
    if rs == [] then 0 else Sum(rs[..|rs| - 1]) + rs[|rs| - 1].size
  }

  /** Number of records of `rs` that hold a block. */
  function Occupied(rs: seq<Record>): nat {
    if rs == [] then 0 else Occupied(rs[..|rs| - 1]) + (if rs[|rs| - 1].data.Live? then 1 else 0)
  }

  /** Replacing one record changes the sum by the difference of the two sizes;
      in particular no record is larger than the sum. */
  lemma {:induction false} SumUpdate(rs: seq<Record>, i: nat, r: Record)
    requires i < |rs|
    ensures Sum(rs[i := r]) + rs[i].size == Sum(rs) + r.size
    ensures rs[i].size <= Sum(rs)
  {
    var n := |rs| - 1;
    if i == n {
      assert rs[i := r][..n] == rs[..n];
    } else {
      assert rs[i := r][..n] == rs[..n][i := r];
      SumUpdate(rs[..n], i, r);
    }
  }

  /** Replacing one record changes the occupied count by at most one, as the
      emptiness of the two records says. */
  lemma {:induction false} OccupiedUpdate(rs: seq<Record>, i: nat, r: Record)
    requires i < |rs|
    ensures Occupied(rs[i := r]) + (if rs[i].data.Live? then 1 else 0)
         == Occupied(rs) + (if r.data.Live? then 1 else 0)
  {
    var n := |rs| - 1;
    if i == n {
      assert rs[i := r][..n] == rs[..n];
    } else {
      assert rs[i := r][..n] == rs[..n][i := r];
      OccupiedUpdate(rs[..n], i, r);
    }
  }

  /** When the first `k` records are at least the minimal size, the sum is at
      least `k` times the minimal size. */
  lemma {:induction false} SumAtLeast(rs: seq<Record>, k: nat)
    requires k <= |rs|
    requires forall i | 0 <= i < k :: MinimalSize <= rs[i].size
    ensures k * MinimalSize <= Sum(rs)
  {
    if rs != [] {
      var n := |rs| - 1;
      if k == |rs| {
        SumAtLeast(rs[..n], k - 1);
      } else {
        SumAtLeast(rs[..n], k);
      }
    }
  }

  /** A table whose first `k` records all have size `size` and whose other
      records are empty sums to `k * size`. */
  lemma {:induction false} SumOfPrefix(rs: seq<Record>, k: nat, size: nat)
    requires k <= |rs|
    requires forall i | 0 <= i < k :: rs[i].size == size
    requires forall i | k <= i < |rs| :: rs[i] == Empty
    ensures Sum(rs) == k * size
  {
    if rs != [] {
      var n := |rs| - 1;
      if k == |rs| {
        SumOfPrefix(rs[..n], k - 1, size);
        assert Sum(rs) == (k - 1) * size + size;
      } else {
        SumOfPrefix(rs[..n], k, size);
      }
    }
  }

  /** A table whose records past index `k` are empty and whose first `k`
      records hold blocks has exactly `k` occupied records. */
  lemma {:induction false} OccupiedOfPrefix(rs: seq<Record>, k: nat)
    requires k <= |rs|
    requires forall i | 0 <= i < k :: rs[i].data.Live?
    requires forall i | k <= i < |rs| :: rs[i] == Empty
    ensures Occupied(rs) == k
  {
    if rs != [] {
      var n := |rs| - 1;
      if k == |rs| {
        OccupiedOfPrefix(rs[..n], k - 1);
      } else {
        OccupiedOfPrefix(rs[..n], k);
      }
    }
  }
}
