/** The Simon playback machine: once enabled it flashes the stored sequence from position 0
    up to the iteration length, one square at a time (draw, six wait ticks, erase), then
    raises its completion flag and waits to be disabled. */
module FlashSequence {
  import opened Integers
  import opened SimonDisplay
  import opened SimonGlobals

  /** The wait counter must exceed this value before the square is erased. */
  const DoneWaiting: int := 5

  datatype State = Init | Draw | Wait | Erase | Finished

  /** The machine's globals, as a value. */
  datatype Flash = Flash(st: State, enabled: bool, complete: bool, counter: UInt32, pos: UInt16)

  const Start: Flash := Flash(Init, false, false, 0, 0)

  /** What holds between ticks: the position stays within the 8-bit iteration length, the
      counter is only non-zero while waiting, and completion is only reported in finished_st. */
  predicate Inv(f: Flash)
  {
    && f.pos < 0x100
    && (f.st == Wait ==> f.counter <= DoneWaiting)
    && (f.st != Wait ==> f.counter == 0)
    && (f.complete ==> f.st == Finished)
  }

  /** The action switch of the tick. */
  function Action(f: Flash): Flash
  {
    if f.st == Wait then f.(counter := ToUInt32(f.counter + 1)) else f
  }

  /** The transition switch of the tick; `iterationLength` is what the store reports. */
  function Transition(f: Flash, iterationLength: UInt16): Flash
  {
    match f.st
    case Init => if f.enabled then f.(st := Draw) else f
    case Draw => f.(st := Wait)
    case Wait => if f.counter > DoneWaiting then f.(counter := 0, st := Erase) else f
    case Erase =>
      if f.pos >= iterationLength then f.(st := Finished)
      else f.(pos := ToUInt16(f.pos + 1), st := Draw)
    case Finished =>
      var g := f.(complete := true);
      if !g.enabled then g.(pos := 0, complete := false, st := Init) else g
  }

  /** One tick of the machine against an 8-bit iteration length. */
  function Next(f: Flash, iterationLength: UInt8): (r: Flash)
    requires Inv(f)
    ensures Inv(r)
    ensures r.enabled == f.enabled
    // init_st waits for the enable
    ensures f.st == Init ==> r.st == (if f.enabled then Draw else Init) && r.pos == f.pos
    ensures f.st == Draw ==> r.st == Wait && r.counter == 0 && r.pos == f.pos
    // each wait tick counts; the sixth one moves on with the counter back at 0
    ensures f.st == Wait ==>
              if f.counter == DoneWaiting then r.st == Erase && r.counter == 0 && r.pos == f.pos
              else r.st == Wait && r.counter == f.counter + 1 && r.pos == f.pos
    // erase_st ends the run at the iteration length, otherwise moves to the next position
    ensures f.st == Erase ==>
              if f.pos >= iterationLength then r.st == Finished && r.pos == f.pos
              else r.st == Draw && r.pos == f.pos + 1
    ensures f.pos <= iterationLength ==> r.pos <= iterationLength
    // finished_st reports completion while enabled and resets on disable
    ensures f.st == Finished ==>
              if f.enabled then r == f.(complete := true) else r == Flash(Init, false, false, 0, 0)
    ensures r.complete ==> r.st == Finished
  {
    Transition(Action(f), iterationLength)
  }

  /** What the tick does to the display flags: draw_st draws the square of the current
      entry; erase_st erases it and draws that region's button again. */
  function Paint(f: Flash, p: Panel, values: seq<UInt8>): (q: Panel)
    requires Inv(f) && p.Valid() && |values| == MaxFlashSequence
    ensures q.Valid()
    // draw_st shows the square of the current entry
    ensures f.st == Draw && values[f.pos] < RegionCount ==>
              var r := values[f.pos];
              && q.squareDrawn[r] && (!p.squareDrawn[r] ==> !q.buttonDrawn[r])
              && p.SameElsewhere(q, r)
    // erase_st hides that square and shows the entry's button again
    ensures f.st == Erase && values[f.pos] < RegionCount ==>
              var r := values[f.pos];
              !q.squareDrawn[r] && q.buttonDrawn[r] && p.SameElsewhere(q, r)
    // no other tick, and no entry outside the four regions, changes the display
    ensures (f.st != Draw && f.st != Erase) || values[f.pos] >= RegionCount ==> q == p
  {
    match f.st
    case Draw => DrawSquareFlags(p, values[f.pos], false)
    case Erase => DrawButtonFlags(DrawSquareFlags(p, values[f.pos], true), values[f.pos], false)
    case _ => p
  }

  /** n ticks with a fixed iteration length. */
  function Run(f: Flash, iterationLength: UInt8, n: nat): (r: Flash)
    requires Inv(f)
    ensures Inv(r)
  {
    if n == 0 then f else Next(Run(f, iterationLength, n - 1), iterationLength)
  }

  /** The machine just enabled, as the controller leaves it. */
  const Armed: Flash := Flash(Init, true, false, 0, 0)

  /** Where the machine is j ticks into the round for position k: draw, six waits, erase. */
  function RoundState(k: UInt16, j: nat): Flash
    requires j < 8
  {
    if j == 0 then Flash(Draw, true, false, 0, k)
    else if j <= 6 then Flash(Wait, true, false, j - 1, k)
    else Flash(Erase, true, false, 0, k)
  }

  /** Closed form of playback: 1 + 8k + j ticks after being armed, the machine is j ticks
      into the round of position k, for every position k up to the iteration length. */
  lemma {:induction false} PlaybackAt(iterationLength: UInt8, k: nat, j: nat)
    requires k <= iterationLength && j < 8
    ensures Run(Armed, iterationLength, 1 + 8 * k + j) == RoundState(k, j)
    decreases k, j
  {
    if j > 0 {
      PlaybackAt(iterationLength, k, j - 1);
    } else if k > 0 {
      PlaybackAt(iterationLength, k - 1, 7);
      assert 1 + 8 * k + j - 1 == 1 + 8 * (k - 1) + 7;
    }
  }

  /** The playback of positions 0..L takes 8 ticks per position plus one to start; on the
      next tick completion is reported, and not a tick earlier. */
  lemma PlaybackCompletes(iterationLength: UInt8)
    ensures var n := 1 + 8 * (iterationLength + 1);
            && Run(Armed, iterationLength, n) == Flash(Finished, true, false, 0, iterationLength)
            && Run(Armed, iterationLength, n + 1) == Flash(Finished, true, true, 0, iterationLength)
    ensures forall n :: 0 <= n <= 1 + 8 * (iterationLength + 1) ==> !Run(Armed, iterationLength, n).complete
  {
    var L: int := iterationLength;
    PlaybackAt(L, L, 7);
    assert 1 + 8 * (L + 1) - 1 == 1 + 8 * L + 7;
    forall n | 0 <= n <= 1 + 8 * (L + 1)
      ensures !Run(Armed, L, n).complete
    {
      if 1 <= n < 1 + 8 * (L + 1) {
        var k, j := (n - 1) / 8, (n - 1) % 8;
        assert 1 + 8 * k + j == n;
        PlaybackAt(L, k, j);
      }
    }
  }

  class Machine {
    var fsEnable: bool
    var fsComplete: bool
    var fsCounter: UInt32
    var pos: UInt16
    var cs: State

    function Model(): Flash
      reads this
    {
      Flash(cs, fsEnable, fsComplete, fsCounter, pos)
    }

    ghost predicate Valid()
      reads this
    {
      Inv(Model())
    }

    constructor ()
      ensures Valid() && Model() == Start
    {
      fsEnable, fsComplete, fsCounter, pos, cs := false, false, 0, 0, Init;
    }

    method Enable()
      modifies this`fsEnable
      ensures Model() == old(Model()).(enabled := true)
    {
      fsEnable := true;
    }

    method Disable()
      modifies this`fsEnable
      ensures Model() == old(Model()).(enabled := false)
    {
      fsEnable := false;
    }

    /** Completion is only ever reported from finished_st. */
    method IsComplete() returns (isComplete: bool)
      requires Valid()
      ensures isComplete == fsComplete
      ensures isComplete ==> cs == Finished
    {
      return fsComplete;
    }

    method Tick(store: SequenceStore, disp: Display)
      requires Valid() && store.Valid() && disp.Valid()
      modifies this, disp.buttonDrawn, disp.squareDrawn
      ensures Valid()
      ensures Model() == Next(old(Model()), store.level)
      ensures disp.View() == Paint(old(Model()), old(disp.View()), store.sequence[..])
    {
      match cs {
        case Draw => disp.DrawSquare(store.GetSequenceValue(pos), false);
        case Wait => fsCounter := ToUInt32(fsCounter + 1);
        case Erase =>
          disp.DrawSquare(store.GetSequenceValue(pos), true);
          disp.DrawButton(store.GetSequenceValue(pos), false);
        case _ =>
      }

      match cs {
        case Init =>
          if fsEnable {
            cs := Draw;
          }
        case Draw =>
          cs := Wait;
        case Wait =>
          if fsCounter > DoneWaiting {
            fsCounter := 0;
            cs := Erase;
          }
        case Erase =>
          if pos >= store.GetSequenceIterationLength() {
            cs := Finished;
          } else {
            pos := ToUInt16(pos + 1);
            cs := Draw;
          }
        case Finished =>
          fsComplete := true;
          if !fsEnable {
            pos := 0;
            fsComplete := false;
            cs := Init;
          }
      }
    }
  }
}
