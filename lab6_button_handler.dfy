/** The Simon touch handler: waits for a touch, debounces it for one tick, captures the
    touched quadrant, waits for the finger to lift and then raises a read-and-clear
    "released" flag. A timeout reported by the verification machine sends it back to its
    initial state from anywhere. */
module ButtonHandler {
  import opened Integers
  import opened SimonDisplay

  /** Value of the debounce counter at which the touch is taken as settled. */
  const Settled: int := 1

  datatype State = Init | DrawButtons | WaitForTouch | Debounce | Touched | Released | Finished

  /** The machine's globals, as a value. */
  datatype Handler = Handler(
    st: State,
    enabled: bool,
    released: bool,
    complete: bool,
    drawn: bool,
    timeOut: bool,
    counter: UInt8,
    region: UInt8)

  const Start: Handler := Handler(Init, false, false, false, false, false, 0, 0)

  /** What one tick does to the handler's own variables, given the verification machine's
      timeout flag, whether the screen is touched and the touched point. */
  function Next(h: Handler, timeOutError: bool, touched: bool, x: int, y: int): (r: Handler)
    // the timeout flag is sampled first and wins over every other transition
    ensures r.timeOut == timeOutError
    ensures timeOutError ==> r.st == Init
    // the interlock flag belongs to the caller
    ensures r.enabled == h.enabled
    // leaving init_st
    ensures h.st == Init && !timeOutError ==>
              r.st == (if !h.enabled then Init else if h.drawn then WaitForTouch else DrawButtons)
    // debounce: left only on the tick where the counter reaches 1, which resets it and
    // captures the region of the point read on that tick
    ensures h.st == Debounce && !timeOutError && r.st != Debounce ==>
              h.counter == 0 && r.st == Touched && r.counter == 0 && r.region == ComputeRegionNumber(x, y)
    ensures r.region != h.region ==> h.st == Debounce && r.st == Touched
    ensures r.counter != h.counter ==> h.st == Debounce
    // touched_st advances only once the screen is no longer touched
    ensures h.st == Touched && !timeOutError ==> r.st == (if touched then Touched else Released)
    // released is raised only by released_st, which always moves on to finished_st
    ensures r.released != h.released ==> h.st == Released && r.released
    ensures h.st == Released && !timeOutError ==> r.st == Finished && r.released
    // finished_st holds while enabled; disabling clears `drawn` and returns to init_st
    ensures h.st == Finished && !timeOutError ==>
              if h.enabled then r.st == Finished && r.drawn == h.drawn else r.st == Init && !r.drawn
  {
    Transition(Action(h.(timeOut := timeOutError)), touched, x, y)
  }

  /** The action switch of the tick: only debounce_st changes a variable (its counter, which
      is a `uint8_t`). */
  function Action(h: Handler): Handler
  {
    if h.st == Debounce then h.(counter := ToUInt8(h.counter + 1)) else h
  }

  /** The transition switch of the tick, run after the action switch. */
  function Transition(h: Handler, touched: bool, x: int, y: int): Handler
  {
    if h.timeOut then h.(st := Init)
    else
      match h.st
      case Init =>
        if h.enabled && h.drawn then h.(st := WaitForTouch)
        else if h.enabled then h.(st := DrawButtons)
        else h
      case DrawButtons => h.(drawn := true, st := WaitForTouch)
      case WaitForTouch => if touched then h.(st := Debounce) else h
      case Debounce =>
        if h.counter == Settled then h.(counter := 0, region := ComputeRegionNumber(x, y), st := Touched)
        else h
      case Touched => if !touched then h.(st := Released) else h
      case Released => h.(released := true, st := Finished)
      case Finished => if !h.enabled then h.(drawn := false, st := Init) else h
  }

  /** What one tick does to the display flags: the buttons are drawn in draw_buttons_st, the
      captured region's square is drawn when debounce completes, and on release the square is
      erased and the button drawn again. */
  function Paint(h: Handler, p: Panel, timeOutError: bool, x: int, y: int): (q: Panel)
    requires p.Valid()
    ensures q.Valid()
    // draw_buttons_st draws every button, also on a tick that times out
    ensures h.st == DrawButtons ==>
              (forall i :: 0 <= i < RegionCount ==> q.buttonDrawn[i]) && q.squareDrawn == p.squareDrawn
    // the tick that completes debounce draws the square of the region touched
    ensures h.st == Debounce && !timeOutError && ToUInt8(h.counter + 1) == Settled ==>
              var r := ComputeRegionNumber(x, y);
              && q.squareDrawn[r] && (!p.squareDrawn[r] ==> !q.buttonDrawn[r])
              && p.SameElsewhere(q, r)
    // the release tick erases the captured region's square and draws its button again
    ensures h.st == Released && !timeOutError && h.region < RegionCount ==>
              !q.squareDrawn[h.region] && q.buttonDrawn[h.region] && p.SameElsewhere(q, h.region)
    // every other tick leaves the display alone
    ensures (&& h.st != DrawButtons
             && (timeOutError || h.st != Released || h.region >= RegionCount)
             && (timeOutError || h.st != Debounce || ToUInt8(h.counter + 1) != Settled)) ==> q == p
  {
    TransitionPaint(Action(h.(timeOut := timeOutError)), ActionPaint(h, p), x, y)
  }

  function ActionPaint(h: Handler, p: Panel): (q: Panel)
    requires p.Valid()
    ensures q.Valid()
  {
    if h.st == DrawButtons then AllButtonsFlags(p, false) else p
  }

  function TransitionPaint(h: Handler, p: Panel, x: int, y: int): (q: Panel)
    requires p.Valid()
    ensures q.Valid()
  {
    if h.timeOut then p
    else
      match h.st
      case Debounce =>
        if h.counter == Settled then DrawSquareFlags(p, ComputeRegionNumber(x, y), false) else p
      case Released => DrawButtonFlags(DrawSquareFlags(p, h.region, true), h.region, false)
      case _ => p
  }

  /** The value `buttonHandler_releaseDetected` returns, and the handler it leaves behind. */
  function ReleasePoll(h: Handler): (r: (bool, Handler))
    ensures r.0 == h.released && !r.1.released
    ensures r.1 == h.(released := false)
  {
    if h.released then (true, h.(released := false)) else (false, h)
  }

  /** Two consecutive polls never both report a release. */
  lemma ReleaseReportedOnce(h: Handler)
    ensures !(ReleasePoll(h).0 && ReleasePoll(ReleasePoll(h).1).0)
  {
  }

  /** One tick's environment. */
  datatype Input = Input(timeOutError: bool, touched: bool, x: int, y: int)

  function Step(h: Handler, i: Input): Handler
  {
    Next(h, i.timeOutError, i.touched, i.x, i.y)
  }

  function Run(h: Handler, inputs: seq<Input>): Handler
    decreases |inputs|
  {
    if inputs == [] then h else Run(Step(h, inputs[0]), inputs[1..])
  }

  lemma RunPair(h: Handler, a: Input, b: Input)
    ensures Run(h, [a, b]) == Step(Step(h, a), b)
  {
    assert [a, b][1..] == [b];
    assert [b][1..] == [];
    calc {
      Run(h, [a, b]);
      Run(Step(h, a), [b]);
      Run(Step(Step(h, a), b), []);
    }
  }

  lemma {:induction false} RunAppend(h: Handler, a: seq<Input>, b: seq<Input>)
    ensures Run(h, a + b) == Run(Run(h, a), b)
    decreases |a|
  {
    if a == [] {
      assert a + b == b;
    } else {
      assert (a + b)[1..] == a[1..] + b;
      RunAppend(Step(h, a[0]), a[1..], b);
    }
  }

  /** While the finger stays down, touched_st keeps waiting. */
  lemma {:induction false} HoldInTouched(h: Handler, k: nat, x: int, y: int)
    requires h.st == Touched
    ensures Run(h, seq(k, _ => Input(false, true, x, y))).st == Touched
    ensures k > 0 ==> Run(h, seq(k, _ => Input(false, true, x, y))) == h.(timeOut := false)
    decreases k
  {
    var held := seq(k, _ => Input(false, true, x, y));
    if k > 0 {
      assert held == [Input(false, true, x, y)] + seq(k - 1, _ => Input(false, true, x, y));
      RunAppend(h, [Input(false, true, x, y)], seq(k - 1, _ => Input(false, true, x, y)));
      var h1 := Next(h, false, true, x, y);
      assert h1 == h.(timeOut := false);
      HoldInTouched(h1, k - 1, x, y);
    }
  }

  /** A touch, then the debounce tick that reads the point (x, y). */
  lemma TouchAndDebounce(h: Handler, x: int, y: int)
    requires h.st == WaitForTouch && h.counter == 0
    ensures var down := Input(false, true, x, y);
            Run(h, [down, down]) == h.(timeOut := false, st := Touched, region := ComputeRegionNumber(x, y))
  {
    var down := Input(false, true, x, y);
    RunPair(h, down, down);
    var h1 := Step(h, down);
    assert h1 == h.(timeOut := false, st := Debounce);
  }

  /** The finger lifted, then the release tick. */
  lemma LiftAndRelease(h: Handler, x: int, y: int)
    requires h.st == Touched
    ensures var up := Input(false, false, x, y);
            Run(h, [up, up]) == h.(timeOut := false, released := true, st := Finished)
  {
    var up := Input(false, false, x, y);
    RunPair(h, up, up);
    var h1 := Step(h, up);
    assert h1 == h.(timeOut := false, st := Released);
  }

  /** A complete touch-release cycle without timeout: a touch, the debounce tick (where the
      point (x, y) is read), k more ticks held, a tick with the finger lifted and the release
      tick. The handler ends in finished_st with `released` raised, the region of (x, y)
      captured and the debounce counter back at 0. */
  lemma TouchCycle(h: Handler, x: int, y: int, k: nat)
    requires h.st == WaitForTouch && h.counter == 0
    ensures var r := Run(h, [Input(false, true, x, y), Input(false, true, x, y)]
                            + seq(k, _ => Input(false, true, x, y))
                            + [Input(false, false, x, y), Input(false, false, x, y)]);
            r.st == Finished && r.released && r.counter == 0 && r.region == ComputeRegionNumber(x, y)
  {
    var down := Input(false, true, x, y);
    var up := Input(false, false, x, y);
    var held := seq(k, _ => down);
    RunAppend(h, [down, down] + held, [up, up]);
    RunAppend(h, [down, down], held);
    TouchAndDebounce(h, x, y);
    var h2 := Run(h, [down, down]);
    HoldInTouched(h2, k, x, y);
    var h3 := Run(h2, held);
    if k == 0 {
      assert held == [];
    }
    assert h3.st == Touched && h3.region == h2.region && h3.counter == 0;
    LiftAndRelease(h3, x, y);
  }

  /** A timeout that arrives while the handler is debouncing leaves the debounce counter at 1
      (the source resets it only when debounce completes), so the next touch is not accepted
      on its first debounce tick. */
  lemma TimeOutDuringDebounceLeavesCounter(h: Handler, touched: bool, x: int, y: int)
    requires h.st == Debounce && h.counter == 0 && h.enabled && h.drawn
    ensures var r := Next(h, true, touched, x, y);
            r.st == Init && r.counter == 1
    ensures var r := Next(h, true, touched, x, y);
            var r3 := Next(Next(Next(r, false, true, x, y), false, true, x, y), false, true, x, y);
            r3.st == Debounce && r3.counter == 2
  {
  }

  class Machine {
    var bhEnable: bool
    var released: bool
    var bhComplete: bool
    var drawn: bool
    var timeOut: bool
    var bhCounter: UInt8
    var region: UInt8
    var currentSt: State

    function Model(): Handler
      reads this
    {
      Handler(currentSt, bhEnable, released, bhComplete, drawn, timeOut, bhCounter, region)
    }

    constructor ()
      ensures Model() == Start
    {
      bhEnable, released, bhComplete, drawn, timeOut := false, false, false, false, false;
      bhCounter, region := 0, 0;
      currentSt := Init;
    }

    method Enable()
      modifies this`bhEnable
      ensures Model() == old(Model()).(enabled := true)
    {
      bhEnable := true;
    }

    method Disable()
      modifies this`bhEnable
      ensures Model() == old(Model()).(enabled := false)
    {
      bhEnable := false;
    }

    /** Read-and-clear of the release flag. */
    method ReleaseDetected() returns (wasReleased: bool)
      modifies this`released
      ensures (wasReleased, Model()) == ReleasePoll(old(Model()))
    {
      if released {
        released := false;
        return true;
      } else {
        return false;
      }
    }

    /** Always reports the handler as waiting in the interlock state. */
    method IsComplete() returns (isComplete: bool)
      modifies this`bhComplete
      ensures isComplete
      ensures Model() == old(Model()).(complete := true)
    {
      bhComplete := true;
      return bhComplete;
    }

    /** Copies the verification machine's timeout flag. */
    method TimeOutOccurred(timeOutError: bool)
      modifies this`timeOut
      ensures Model() == old(Model()).(timeOut := timeOutError)
    {
      timeOut := timeOutError;
    }

    /** One tick: the timeout flag is sampled, then the state's action, then its transition. */
    method Tick(disp: Display, timeOutError: bool, touched: bool, x: Int16, y: Int16)
      requires disp.Valid()
      modifies this, disp.buttonDrawn, disp.squareDrawn
      ensures Model() == Next(old(Model()), timeOutError, touched, x, y)
      ensures disp.View() == Paint(old(Model()), old(disp.View()), timeOutError, x, y)
    {
      TimeOutOccurred(timeOutError);
      DoAction(disp);
      DoTransition(disp, touched, x, y);
    }

    method DoAction(disp: Display)
      requires disp.Valid()
      modifies this`bhCounter, disp.buttonDrawn
      ensures Model() == Action(old(Model()))
      ensures disp.View() == ActionPaint(old(Model()), old(disp.View()))
    {
      match currentSt {
        case DrawButtons => disp.DrawAllButtons();
        case Debounce => bhCounter := ToUInt8(bhCounter + 1);
        case _ =>
      }
    }

    method DoTransition(disp: Display, touched: bool, x: Int16, y: Int16)
      requires disp.Valid()
      modifies this, disp.buttonDrawn, disp.squareDrawn
      ensures Model() == Transition(old(Model()), touched, x, y)
      ensures disp.View() == TransitionPaint(old(Model()), old(disp.View()), x, y)
    {
      if timeOut {
        currentSt := Init;
      } else {
        match currentSt {
          case Init =>
            if bhEnable && drawn {
              currentSt := WaitForTouch;
            } else if bhEnable {
              currentSt := DrawButtons;
            }
          case DrawButtons =>
            drawn := true;
            currentSt := WaitForTouch;
          case WaitForTouch =>
            if touched {
              currentSt := Debounce;
            }
          case Debounce =>
            if bhCounter == Settled {
              bhCounter := 0;
              region := ComputeRegionNumber(x, y);
              disp.DrawSquare(region, false);
              currentSt := Touched;
            }
          case Touched =>
            if !touched {
              currentSt := Released;
            }
          case Released =>
            disp.DrawSquare(region, true);
            disp.DrawButton(region, false);
            released := true;
            currentSt := Finished;
          case Finished =>
            if !bhEnable {
              drawn := false;
              currentSt := Init;
            }
        }
      }
    }
  }
}
