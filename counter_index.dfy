/** A mixed-radix counter over the bins of a multi-dimensional histogram.
    Digit 0 runs fastest; one extra digit past the last is the "at end" bit,
    set when the counter runs off the end of the grid. */
module CounterIndices {
  import opened Errors

  // ---------------------------------------------------------------------
  // The counter's value
  // ---------------------------------------------------------------------

  /** The value of the digits `idx[j..]` in the mixed radix `m[j..]` by
      Horner's rule, the end bit `idx[|m|]` being the top digit. */
  function Weighted(idx: seq<nat>, m: seq<nat>, j: nat): nat
    requires |idx| == |m| + 1 && j <= |m|
    decreases |m| - j
  {
    if j == |m| then idx[j] else idx[j] + m[j] * Weighted(idx, m, j + 1)
  }

  /** The number of digit combinations of dimensions j and up. */
  function ProdFrom(m: seq<nat>, j: nat): nat
    requires j <= |m|
    decreases |m| - j
  {
    if j == |m| then 1 else m[j] * ProdFrom(m, j + 1)
  }

  /** The number of cells of the whole grid. */
  function Prod(m: seq<nat>): nat {
    ProdFrom(m, 0)
  }

  /** What the operations keep of an `index` vector: each digit below its
      extent, the end bit 0 or 1, and every digit 0 once the end bit is set. */
  predicate IndexInRange(idx: seq<nat>, m: seq<nat>) {
    |idx| == |m| + 1
    && (forall j :: 0 <= j < |m| ==> idx[j] < m[j])
    && idx[|m|] <= 1
    && (idx[|m|] == 1 ==> forall j :: 0 <= j < |m| ==> idx[j] == 0)
  }

  lemma MulLe(a: nat, x: nat, y: nat)
    requires x <= y
    ensures a * x <= a * y
  {
  }

  /** `Weighted` from j on depends only on the digits from j on. */
  lemma {:induction false} WeightedSuffix(a: seq<nat>, b: seq<nat>, m: seq<nat>, j: nat)
    requires |a| == |m| + 1 && |b| == |m| + 1 && j <= |m|
    requires forall k :: j <= k <= |m| ==> a[k] == b[k]
    ensures Weighted(a, m, j) == Weighted(b, m, j)
    decreases |m| - j
  {
    if j < |m| {
      WeightedSuffix(a, b, m, j + 1);
    }
  }

  /** Equal values from j on, and equal digits below j, give equal values. */
  lemma {:induction false} WeightedPrefix(a: seq<nat>, b: seq<nat>, m: seq<nat>, i: nat, j: nat)
    requires |a| == |m| + 1 && |b| == |m| + 1 && i <= j <= |m|
    requires forall k :: i <= k < j ==> a[k] == b[k]
    requires Weighted(a, m, j) == Weighted(b, m, j)
    ensures Weighted(a, m, i) == Weighted(b, m, i)
    decreases j - i
  {
    if i < j {
      WeightedPrefix(a, b, m, i + 1, j);
    }
  }

  /** With the digits from j on in range, the value from j on is below
      `ProdFrom(m, j)` times one more than the end bit. */
  lemma {:induction false} WeightedBound(idx: seq<nat>, m: seq<nat>, j: nat)
    requires |idx| == |m| + 1 && j <= |m|
    requires forall k :: j <= k < |m| ==> idx[k] < m[k]
    ensures Weighted(idx, m, j) < ProdFrom(m, j) * (idx[|m|] + 1)
    decreases |m| - j
  {
    if j < |m| {
      WeightedBound(idx, m, j + 1);
      DigitBound(idx[j], m[j], Weighted(idx, m, j + 1), ProdFrom(m, j + 1), idx[|m|] + 1);
    }
  }

  /** One digit below its extent on top of a lower value below `p e` stays
      below `md p e`. */
  lemma DigitBound(d: nat, md: nat, w: nat, p: nat, e: nat)
    requires d < md && w < p * e
    ensures d + md * w < (md * p) * e
  {
    MulLe(md, w, p * e - 1);
    assert md * (p * e - 1) == md * (p * e) - md;
    assert (md * p) * e == md * (p * e);
  }

  /** With every digit from j on zero, the value from j on is the end bit
      at weight `ProdFrom(m, j)`. */
  lemma {:induction false} WeightedZeros(idx: seq<nat>, m: seq<nat>, j: nat)
    requires |idx| == |m| + 1 && j <= |m|
    requires forall k :: j <= k < |m| ==> idx[k] == 0
    ensures Weighted(idx, m, j) == ProdFrom(m, j) * idx[|m|]
    decreases |m| - j
  {
    if j < |m| {
      WeightedZeros(idx, m, j + 1);
      assert m[j] * (ProdFrom(m, j + 1) * idx[|m|]) == m[j] * ProdFrom(m, j + 1) * idx[|m|];
    }
  }

  /** The counter's value never passes the grid size, and it reaches the
      size exactly when the end bit is set: `Prod(m)` increments from zero
      bring the counter to its end. */
  lemma AtEndIffValue(idx: seq<nat>, m: seq<nat>)
    requires IndexInRange(idx, m)
    ensures Weighted(idx, m, 0) <= Prod(m)
    ensures idx[|m|] != 0 <==> Weighted(idx, m, 0) == Prod(m)
  {
    if idx[|m|] == 1 {
      WeightedZeros(idx, m, 0);
    } else {
      WeightedBound(idx, m, 0);
    }
  }

  /** Distinct in-range index vectors have distinct values: the value
      determines the digits. */
  lemma {:induction false} WeightedInjective(a: seq<nat>, b: seq<nat>, m: seq<nat>, j: nat)
    requires |a| == |m| + 1 && |b| == |m| + 1 && j <= |m|
    requires forall k :: j <= k < |m| ==> a[k] < m[k] && b[k] < m[k]
    requires Weighted(a, m, j) == Weighted(b, m, j)
    ensures forall k :: j <= k <= |m| ==> a[k] == b[k]
    decreases |m| - j
  {
    if j < |m| {
      DigitsFromValue(a[j], b[j], m[j], Weighted(a, m, j + 1), Weighted(b, m, j + 1));
      WeightedInjective(a, b, m, j + 1);
    }
  }

  /** Two digits below their extent on top of higher values with the same
      total agree, and so do the higher values. */
  lemma DigitsFromValue(da: nat, db: nat, md: nat, wa: nat, wb: nat)
    requires da < md && db < md && da + md * wa == db + md * wb
    ensures da == db && wa == wb
  {
    if wa < wb {
      MulLe(md, wa + 1, wb);
    } else if wb < wa {
      MulLe(md, wb + 1, wa);
    }
  }

  lemma ValueDeterminesIndex(a: seq<nat>, b: seq<nat>, m: seq<nat>)
    requires IndexInRange(a, m) && IndexInRange(b, m)
    requires Weighted(a, m, 0) == Weighted(b, m, 0)
    ensures a == b
  {
    WeightedInjective(a, b, m, 0);
  }

  /** The carry step of the increment: a digit that reached its extent is
      cleared and the next digit is raised, which keeps the value. */
  lemma CarryKeepsValue(a: seq<nat>, b: seq<nat>, m: seq<nat>, j: nat)
    requires |a| == |m| + 1 && j < |m| && a[j] == m[j]
    requires b == a[j := 0][j + 1 := a[j + 1] + 1]
    ensures Weighted(b, m, 0) == Weighted(a, m, 0)
  {
    if j + 1 < |m| {
      WeightedSuffix(a, b, m, j + 2);
    }
    assert Weighted(b, m, j + 1) == Weighted(a, m, j + 1) + 1;
    assert m[j] * (Weighted(a, m, j + 1) + 1) == m[j] + m[j] * Weighted(a, m, j + 1);
    WeightedPrefix(a, b, m, 0, j);
  }

  // ---------------------------------------------------------------------
  // The counter
  // ---------------------------------------------------------------------

  const ZeroExtent := "0 max index detected."
  const EndCannotSet := "CounterIndex is at the end: cannot set."
  const InvalidDimension := "Invalid dimension in CounterIndex::setIndex."
  const EndNoAccess := "CounterIndex is at the end: [] operator invalid."
  const EndNoOffset := "No offset for an index at the end."
  /** The `out_of_range` that `std::vector::at` throws; its text belongs to
      the standard library. */
  const VectorAt := "vector::at"

  class CounterIndex {
    /** The extent of each dimension; the counter holds its own copy. */
    const maxIndex: seq<nat>
    /** The digits, then the end bit. */
    const index: array<nat>

    predicate Valid()
      reads index
    {
      IndexInRange(index[..], maxIndex)
    }

    /** The position of the counter in the walk through the grid. */
    function Value(): nat
      reads index
      requires Valid()
    {
      Weighted(index[..], maxIndex, 0)
    }

    /** `at_end`: the end bit is set. */
    predicate AtEnd()
      reads index
      requires Valid()
    {
      index[|maxIndex|] != 0
    }

    constructor (maxIndex: seq<nat>)
      requires forall j :: 0 <= j < |maxIndex| ==> maxIndex[j] > 0
      ensures this.maxIndex == maxIndex && fresh(index)
      ensures Valid() && forall k :: 0 <= k < index.Length ==> index[k] == 0
    {
      this.maxIndex := maxIndex;
      index := new nat[|maxIndex| + 1](_ => 0);
    }

    /** The constructor: an extent of 0 is refused; otherwise the counter
        starts at the first cell, not at its end. */
    static method New(maxIndex: seq<nat>) returns (r: Result<CounterIndex>)
      ensures r.Err? <==> exists j :: 0 <= j < |maxIndex| && maxIndex[j] == 0
      ensures r.Err? ==> r.error == InvalidArgument(ZeroExtent)
      ensures r.Ok? ==> fresh(r.value.index) && r.value.maxIndex == maxIndex && r.value.Valid()
      ensures r.Ok? ==> r.value.Value() == 0 && !r.value.AtEnd()
    {
      for j := 0 to |maxIndex|
        invariant forall k :: 0 <= k < j ==> maxIndex[k] > 0
      {
        if maxIndex[j] == 0 {
          return Err(InvalidArgument(ZeroExtent));
        }
      }
      var c := new CounterIndex(maxIndex);
      WeightedZeros(c.index[..], maxIndex, 0);
      return Ok(c);
    }

    /** `operator++`: advances the counter by one cell, dimension 0 fastest,
        carrying into the next dimension; at the end it does nothing. */
    method Increment()
      requires Valid()
      modifies index
      ensures Valid()
      ensures old(AtEnd()) ==> index[..] == old(index[..])
      ensures !old(AtEnd()) ==> Value() == old(Value()) + 1
    {
      var n := |maxIndex|;
      if index[n] != 0 {
        return;
      }
      ghost var start := index[..];
      index[0] := index[0] + 1;
      if n > 0 {
        WeightedSuffix(index[..], start, maxIndex, 1);
      }
      for j := 0 to n
        invariant forall k :: 0 <= k < j ==> index[k] < maxIndex[k]
        invariant index[j] <= start[j] + 1
        invariant forall k :: j < k <= n ==> index[k] == start[k]
        invariant index[j] > start[j] ==> forall k :: 0 <= k < j ==> index[k] == 0
        invariant Weighted(index[..], maxIndex, 0) == Weighted(start, maxIndex, 0) + 1
      {
        if index[j] == maxIndex[j] {
          ghost var before := index[..];
          index[j] := 0;
          index[j + 1] := index[j + 1] + 1;
          CarryKeepsValue(before, index[..], maxIndex, j);
        }
      }
    }

    /** `setIndex`: sets one digit; refused at the end, and for a dimension
        or a digit out of range (both with the same message). */
    method SetIndex(dim: nat, val: nat) returns (r: Outcome)
      requires Valid()
      modifies index
      ensures Valid()
      ensures old(AtEnd()) ==> r == Fail(OutOfRange(EndCannotSet)) && index[..] == old(index[..])
      ensures !old(AtEnd()) && (dim >= |maxIndex| || val >= maxIndex[dim]) ==>
                r == Fail(OutOfRange(InvalidDimension)) && index[..] == old(index[..])
      ensures !old(AtEnd()) && dim < |maxIndex| && val < maxIndex[dim] ==>
                r == Pass && index[..] == old(index[..])[dim := val]
    {
      if index[|maxIndex|] != 0 {
        return Fail(OutOfRange(EndCannotSet));
      }
      if dim >= |maxIndex| || val >= maxIndex[dim] {
        return Fail(OutOfRange(InvalidDimension));
      }
      index[dim] := val;
      return Pass;
    }

    /** `operator[]`: a digit, or the (clear) end bit for `dim == |maxIndex|`;
        refused at the end and past the end bit. */
    function Get(dim: nat): (r: Result<nat>)
      reads index
      requires Valid()
      ensures AtEnd() ==> r == Err(OutOfRange(EndNoAccess))
      ensures !AtEnd() && dim > |maxIndex| ==> r == Err(OutOfRange(VectorAt))
      ensures r.Ok? ==> !AtEnd() && dim <= |maxIndex| && r.value == index[dim]
      ensures r.Ok? && dim < |maxIndex| ==> r.value < maxIndex[dim]
      ensures r.Ok? && dim == |maxIndex| ==> r.value == 0
    {
      if index[|maxIndex|] != 0 then Err(OutOfRange(EndNoAccess))
      else if dim >= index.Length then Err(OutOfRange(VectorAt))
      else Ok(index[dim])
    }

    /** `reset`: every digit and the end bit back to 0. */
    method Reset()
      requires Valid()
      modifies index
      ensures Valid() && !AtEnd() && Value() == 0
      ensures forall k :: 0 <= k < index.Length ==> index[k] == 0
    {
      for j := 0 to index.Length
        invariant forall k :: 0 <= k < j ==> index[k] == 0
      {
        index[j] := 0;
      }
      WeightedZeros(index[..], maxIndex, 0);
    }

    /** `arrayOffset`: the cell's position in the flattened grid, accumulated
        from the top dimension down; refused at the end. */
    method ArrayOffset() returns (r: Result<nat>)
      requires Valid()
      ensures AtEnd() ==> r == Err(OutOfRange(EndNoOffset))
      ensures !AtEnd() ==> r == Ok(Value()) && Value() < Prod(maxIndex)
    {
      var n := |maxIndex|;
      if index[n] != 0 {
        return Err(OutOfRange(EndNoOffset));
      }
      var ret := 0;
      var j := n;
      while j > 0
        invariant 0 <= j <= n
        invariant ret == Weighted(index[..], maxIndex, j)
      {
        j := j - 1;
        ret := maxIndex[j] * ret + index[j];
      }
      AtEndIffValue(index[..], maxIndex);
      return Ok(ret);
    }
  }

  // ---------------------------------------------------------------------
  // The carry loop as written
  // ---------------------------------------------------------------------

  /** The carry loop of `operator++` as the source writes it: it runs j over
      every entry of `index`, end bit included, and compares `index[j]` with
      `max_index[j]`. `None` marks the read of `max_index[|m|]`, one past
      its end. */
  function CarryAsWritten(idx: seq<nat>, m: seq<nat>, j: nat): Option<seq<nat>>
    requires |idx| == |m| + 1 && j <= |idx|
    decreases |idx| - j
  {
    if j == |idx| then Some(idx)
    else if j >= |m| then None
    else if idx[j] == m[j] then CarryAsWritten(idx[j := 0][j + 1 := idx[j + 1] + 1], m, j + 1)
    else CarryAsWritten(idx, m, j + 1)
  }

  /** Every increment, as written, reads past the end of `max_index`. */
  lemma {:induction false} CarryReadsPastEnd(idx: seq<nat>, m: seq<nat>, j: nat)
    requires |idx| == |m| + 1 && j <= |m|
    ensures CarryAsWritten(idx, m, j) == None
    decreases |m| - j
  {
    if j < |m| {
      if idx[j] == m[j] {
        CarryReadsPastEnd(idx[j := 0][j + 1 := idx[j + 1] + 1], m, j + 1);
      } else {
        CarryReadsPastEnd(idx, m, j + 1);
      }
    }
  }

  // ---------------------------------------------------------------------
  // The grid of the tests: extents 3, 1, 2, 4
  // ---------------------------------------------------------------------

  /** The 24th cell  (2, 0, 1, 3) has offset 23, the last one of the grid. */
  lemma LastCellOffset()
    ensures Prod([3, 1, 2, 4]) == 24
    ensures Weighted([2, 0, 1, 3, 0], [3, 1, 2, 4], 0) == 23
  {
  }

  /** The only in-range index with value 3 is (0, 0, 1, 0): the increment
      after (2, 0, 0, 0) carries through the dimension of extent 1, and
      `setIndex(2, 1)` yields offset 3. */
  lemma CarryExample(idx: seq<nat>)
    requires IndexInRange(idx, [3, 1, 2, 4]) && Weighted(idx, [3, 1, 2, 4], 0) == 3
    ensures idx == [0, 0, 1, 0, 0]
  {
    assert Weighted([0, 0, 1, 0, 0], [3, 1, 2, 4], 0) == 3;
    ValueDeterminesIndex(idx, [0, 0, 1, 0, 0], [3, 1, 2, 4]);
  }
}
