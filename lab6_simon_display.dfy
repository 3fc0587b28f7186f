/** Simon display bookkeeping: the quadrant of a touch point, and the `buttonDrawn` /
    `squareDrawn` flags that make drawing and erasing a button or a square idempotent.
    The pixels themselves are not modelled; only the flags that decide whether a draw call
    reaches the screen. */
module SimonDisplay {
  import opened Integers
  import opened Board

  const RegionCount: int := 4
  const CenterWidth: int := DisplayWidth / 2
  const CenterHeight: int := DisplayHeight / 2

  /** The quadrant of the point (x, y): 0 top left, 1 top right, 2 bottom left, 3 bottom right. */
  function ComputeRegionNumber(x: int, y: int): (r: int)
    ensures 0 <= r < RegionCount
    ensures r == (if y >= CenterHeight then 2 else 0) + (if x >= CenterWidth then 1 else 0)
    ensures (r % 2 == 1) == (x >= CenterWidth) && (r >= 2) == (y >= CenterHeight)
  {
    if x < CenterWidth then
      if y < CenterHeight then 0 else 2
    else
      if y < CenterHeight then 1 else 3
  }

  /** A point inside quadrant `r`, used to describe a player who touches the right region. */
  function PointIn(r: int): (p: (int, int))
    requires 0 <= r < RegionCount
    ensures ComputeRegionNumber(p.0, p.1) == r
  {
    ((if r % 2 == 1 then CenterWidth else 0), (if r >= 2 then CenterHeight else 0))
  }

  /** The two flag arrays, as values. */
  datatype Panel = Panel(buttonDrawn: seq<bool>, squareDrawn: seq<bool>)
  {
    predicate Valid() { |buttonDrawn| == RegionCount && |squareDrawn| == RegionCount }

    /** `q` shows the same button and square as this panel in every region except `r`. */
    predicate SameElsewhere(q: Panel, r: int)
      requires Valid() && q.Valid()
    {
      forall i :: 0 <= i < RegionCount && i != r ==>
        q.buttonDrawn[i] == buttonDrawn[i] && q.squareDrawn[i] == squareDrawn[i]
    }
  }

  const Blank: Panel := Panel([false, false, false, false], [false, false, false, false])

  /** Effect of `simonDisplay_drawButton(r, erase)` on the flags: only `buttonDrawn[r]` can
      change, and only when it differs from the requested state; a region number of 4 or more
      changes nothing. */
  function DrawButtonFlags(p: Panel, r: int, erase: bool): (q: Panel)
    requires p.Valid()
    ensures q.Valid() && q.squareDrawn == p.squareDrawn
    ensures 0 <= r < RegionCount ==> q.buttonDrawn[r] == !erase
    ensures forall i :: 0 <= i < RegionCount && i != r ==> q.buttonDrawn[i] == p.buttonDrawn[i]
    ensures 0 <= r < RegionCount && p.buttonDrawn[r] == !erase ==> q == p
    ensures !(0 <= r < RegionCount) ==> q == p
  {
    if 0 <= r < RegionCount then
      if erase && p.buttonDrawn[r] then p.(buttonDrawn := p.buttonDrawn[r := false])
      else if !erase && !p.buttonDrawn[r] then p.(buttonDrawn := p.buttonDrawn[r := true])
      else p
    else p
  }

  /** Effect of `simonDisplay_drawSquare(r, erase)` on the flags: drawing an undrawn square
      sets its flag and clears the button's, erasing a drawn square clears both, and every
      other call changes nothing. */
  function DrawSquareFlags(p: Panel, r: int, erase: bool): (q: Panel)
    requires p.Valid()
    ensures q.Valid()
    ensures 0 <= r < RegionCount && !erase && !p.squareDrawn[r] ==>
              q == Panel(p.buttonDrawn[r := false], p.squareDrawn[r := true])
    ensures 0 <= r < RegionCount && erase && p.squareDrawn[r] ==>
              q == Panel(p.buttonDrawn[r := false], p.squareDrawn[r := false])
    ensures !(0 <= r < RegionCount) || p.squareDrawn[r] == !erase ==> q == p
    ensures 0 <= r < RegionCount ==> q.squareDrawn[r] == !erase
  {
    if 0 <= r < RegionCount then
      if erase && p.squareDrawn[r] then
        Panel(p.buttonDrawn[r := false], p.squareDrawn[r := false])
      else if !erase && !p.squareDrawn[r] then
        Panel(p.buttonDrawn[r := false], p.squareDrawn[r := true])
      else p
    else p
  }

  /** Effect of `simonDisplay_drawAllButtons` / `simonDisplay_eraseAllButtons`. */
  function AllButtonsFlags(p: Panel, erase: bool): (q: Panel)
    requires p.Valid()
    ensures q.Valid() && q.squareDrawn == p.squareDrawn
    ensures forall i :: 0 <= i < RegionCount ==> q.buttonDrawn[i] == !erase
  {
    Panel(seq(RegionCount, _ => !erase), p.squareDrawn)
  }

  /** Drawing (or erasing) the same button twice is the same as doing it once. */
  lemma DrawButtonIdempotent(p: Panel, r: int, erase: bool)
    requires p.Valid()
    ensures DrawButtonFlags(DrawButtonFlags(p, r, erase), r, erase) == DrawButtonFlags(p, r, erase)
  {
  }

  /** Drawing (or erasing) the same square twice is the same as doing it once. */
  lemma DrawSquareIdempotent(p: Panel, r: int, erase: bool)
    requires p.Valid()
    ensures DrawSquareFlags(DrawSquareFlags(p, r, erase), r, erase) == DrawSquareFlags(p, r, erase)
  {
  }

  /** A flash of region r (square drawn, square erased, button drawn) leaves r's button shown
      and its square not shown, whatever the flags were before. */
  lemma FlashLeavesButton(p: Panel, r: int)
    requires p.Valid() && 0 <= r < RegionCount
    ensures var q := DrawButtonFlags(DrawSquareFlags(DrawSquareFlags(p, r, false), r, true), r, false);
            q.buttonDrawn[r] && !q.squareDrawn[r]
  {
  }

  class Display {
    const buttonDrawn: array<bool>
    const squareDrawn: array<bool>

    ghost predicate Valid()
      reads this
    {
      buttonDrawn.Length == RegionCount && squareDrawn.Length == RegionCount && buttonDrawn != squareDrawn
    }

    function View(): Panel
      reads this, buttonDrawn, squareDrawn
    {
      Panel(buttonDrawn[..], squareDrawn[..])
    }

    /** Nothing is drawn initially. */
    constructor ()
      ensures Valid() && fresh(buttonDrawn) && fresh(squareDrawn)
      ensures View() == Blank
    {
      buttonDrawn := new bool[RegionCount](_ => false);
      squareDrawn := new bool[RegionCount](_ => false);
      new;
      assert buttonDrawn[..] == [false, false, false, false];
      assert squareDrawn[..] == [false, false, false, false];
    }

    method DrawButton(regionNumber: UInt8, erase: bool)
      requires Valid()
      modifies buttonDrawn
      ensures View() == DrawButtonFlags(old(View()), regionNumber, erase)
    {
      if regionNumber < RegionCount {
        if erase && buttonDrawn[regionNumber] {
          buttonDrawn[regionNumber] := false;
        } else if !erase && !buttonDrawn[regionNumber] {
          buttonDrawn[regionNumber] := true;
        }
      }
    }

    method DrawAllButtons()
      requires Valid()
      modifies buttonDrawn
      ensures View() == AllButtonsFlags(old(View()), false)
    {
      var i := 0;
      while i < RegionCount
        invariant 0 <= i <= RegionCount
        invariant forall k :: 0 <= k < i ==> buttonDrawn[k]
        invariant forall k :: i <= k < RegionCount ==> buttonDrawn[k] == old(buttonDrawn[k])
      {
        DrawButton(i, false);
        i := i + 1;
      }
      assert buttonDrawn[..] == AllButtonsFlags(old(View()), false).buttonDrawn;
    }

    method EraseAllButtons()
      requires Valid()
      modifies buttonDrawn
      ensures View() == AllButtonsFlags(old(View()), true)
    {
      var i := 0;
      while i < RegionCount
        invariant 0 <= i <= RegionCount
        invariant forall k :: 0 <= k < i ==> !buttonDrawn[k]
        invariant forall k :: i <= k < RegionCount ==> buttonDrawn[k] == old(buttonDrawn[k])
      {
        DrawButton(i, true);
        i := i + 1;
      }
      assert buttonDrawn[..] == AllButtonsFlags(old(View()), true).buttonDrawn;
    }

    method DrawSquare(regionNo: UInt8, erase: bool)
      requires Valid()
      modifies buttonDrawn, squareDrawn
      ensures View() == DrawSquareFlags(old(View()), regionNo, erase)
    {
      if regionNo < RegionCount {
        if erase && squareDrawn[regionNo] {
          squareDrawn[regionNo] := false;
          buttonDrawn[regionNo] := false;
        } else if !erase && !squareDrawn[regionNo] {
          squareDrawn[regionNo] := true;
          buttonDrawn[regionNo] := false;
        }
      }
    }
  }
}
