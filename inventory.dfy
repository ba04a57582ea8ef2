/** The inventory column (rands.py:53-59): a running stock level that
    starts at 1000, loses a tenth of each unrounded day's sales, gains that
    day's restock (`np.random.randint(0, 100)`, supplied here as a
    parameter), is clamped at 0, and is recorded rounded to an integer
    while the running level itself stays unrounded. */
module Inventory {
  import opened Rounding

  const InitialInventory: real := 1000.0

  /** `np.random.randint(0, 100)` excludes its upper bound. */
  const MaxRestock: int := 99

  function Max(a: real, b: real): real {
    if a < b then b else a
  }

  /** One iteration of the loop body (rands.py:57-58). */
  function Step(prev: real, sale: real, restock: int): (next: real)
    ensures next == Max(0.0, prev - sale * 0.1 + restock as real)
  {
    var level := prev - sale * 0.1 + restock as real;
    if level < 0.0 then 0.0 else level
  }

  /** With a restock in 0 .. 99 the new level lies between the clamped
      level after selling alone and that plus the largest restock. */
  lemma StepBounds(prev: real, sale: real, restock: int)
    requires 0 <= restock <= MaxRestock
    ensures Max(0.0, prev - sale * 0.1) <= Step(prev, sale, restock)
    ensures Step(prev, sale, restock) <= Max(0.0, prev - sale * 0.1 + MaxRestock as real)
    ensures Step(prev, sale, restock) >= 0.0
  {
  }

  /** The unrounded level after the given days, starting from `start`:
      the reference definition, one step appended at a time. */
  function Fold(start: real, sales: seq<real>, restocks: seq<int>): (level: real)
    requires |restocks| == |sales|
    ensures start >= 0.0 ==> level >= 0.0
    decreases |sales|
  {
    if |sales| == 0 then start
    else
      var last := |sales| - 1;
      Step(Fold(start, sales[..last], restocks[..last]), sales[last], restocks[last])
  }

  /** The loop as a forward scan: the level after each day, carrying the
      unrounded level from one day to the next. */
  function Scan(start: real, sales: seq<real>, restocks: seq<int>): (levels: seq<real>)
    requires |restocks| == |sales|
    ensures |levels| == |sales|
    ensures forall i :: 0 <= i < |levels| ==> levels[i] >= 0.0
    decreases |sales|
  {
    if |sales| == 0 then []
    else
      var next := Step(start, sales[0], restocks[0]);
      [next] + Scan(next, sales[1..], restocks[1..])
  }

  /** The values the loop appends to `inventory`. */
  function Column(sales: seq<real>, restocks: seq<int>): (inventory: seq<int>)
    requires |restocks| == |sales|
    ensures |inventory| == |sales|
    ensures forall i :: 0 <= i < |inventory| ==> inventory[i] >= 0
  {
    var levels := Scan(InitialInventory, sales, restocks);
    seq(|sales|, i requires 0 <= i < |sales| => RoundNonNegative(levels[i]); RoundHalfEven(levels[i]))
  }

  /** Folding may start by taking the first day's step. */
  lemma {:induction false} FoldFront(start: real, sales: seq<real>, restocks: seq<int>)
    requires |restocks| == |sales| && |sales| > 0
    ensures Fold(start, sales, restocks)
         == Fold(Step(start, sales[0], restocks[0]), sales[1..], restocks[1..])
    decreases |sales|
  {
    if |sales| > 1 {
      var last := |sales| - 1;
      FoldFront(start, sales[..last], restocks[..last]);
      assert sales[..last][1..] == sales[1..][..last - 1];
      assert restocks[..last][1..] == restocks[1..][..last - 1];
    }
  }

  /** Element `i` of the scan is the unrounded level after days 0 .. i. */
  lemma {:induction false} ScanIsFold(start: real, sales: seq<real>, restocks: seq<int>, i: nat)
    requires |restocks| == |sales| && i < |sales|
    ensures Scan(start, sales, restocks)[i] == Fold(start, sales[..i + 1], restocks[..i + 1])
    decreases i
  {
    var next := Step(start, sales[0], restocks[0]);
    FoldFront(start, sales[..i + 1], restocks[..i + 1]);
    assert sales[..i + 1][1..] == sales[1..][..i];
    assert restocks[..i + 1][1..] == restocks[1..][..i];
    if i > 0 {
      ScanIsFold(next, sales[1..], restocks[1..], i - 1);
    }
  }

  /** Each recorded value is the rounding of the unrounded level after
      that day, starting from 1000. */
  lemma ColumnIsRoundedFold(sales: seq<real>, restocks: seq<int>)
    requires |restocks| == |sales|
    ensures forall i :: 0 <= i < |sales| ==>
      Column(sales, restocks)[i] == RoundHalfEven(Fold(InitialInventory, sales[..i + 1], restocks[..i + 1]))
  {
    forall i | 0 <= i < |sales|
      ensures Column(sales, restocks)[i] == RoundHalfEven(Fold(InitialInventory, sales[..i + 1], restocks[..i + 1]))
    {
      ScanIsFold(InitialInventory, sales, restocks, i);
    }
  }

  /** Consecutive unrounded levels obey the step bounds when every restock
      is a draw of `randint(0, 100)`. */
  lemma LevelBounds(sales: seq<real>, restocks: seq<int>, i: nat)
    requires |restocks| == |sales| && i < |sales|
    requires forall k :: 0 <= k < |restocks| ==> 0 <= restocks[k] <= MaxRestock
    ensures var prev := Fold(InitialInventory, sales[..i], restocks[..i]);
      var next := Fold(InitialInventory, sales[..i + 1], restocks[..i + 1]);
      Max(0.0, prev - sales[i] * 0.1) <= next <= Max(0.0, prev - sales[i] * 0.1 + MaxRestock as real)
  {
    assert sales[..i + 1][..i] == sales[..i];
    assert restocks[..i + 1][..i] == restocks[..i];
    StepBounds(Fold(InitialInventory, sales[..i], restocks[..i]), sales[i], restocks[i]);
  }

  /** The loop at rands.py:54-59. */
  method ComputeInventory(sales: seq<real>, restocks: seq<int>) returns (inventory: seq<int>)
    requires |restocks| == |sales|
    ensures inventory == Column(sales, restocks)
    ensures |inventory| == |sales|
    ensures forall i :: 0 <= i < |inventory| ==>
      inventory[i] >= 0 &&
      inventory[i] == RoundHalfEven(Fold(InitialInventory, sales[..i + 1], restocks[..i + 1]))
  {
    inventory := [];
    var currentInv := InitialInventory;
    for i := 0 to |sales|
      invariant currentInv == Fold(InitialInventory, sales[..i], restocks[..i])
      invariant |inventory| == i
      invariant forall k :: 0 <= k < i ==>
        inventory[k] == RoundHalfEven(Fold(InitialInventory, sales[..k + 1], restocks[..k + 1]))
    {
      assert sales[..i + 1][..i] == sales[..i];
      assert restocks[..i + 1][..i] == restocks[..i];
      currentInv := currentInv - sales[i] * 0.1 + restocks[i] as real;
      if currentInv < 0.0 {
        currentInv := 0.0;
      }
      inventory := inventory + [RoundHalfEven(currentInv)];
    }
    ColumnIsRoundedFold(sales, restocks);
  }
}
