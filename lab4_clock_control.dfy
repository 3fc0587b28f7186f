/** The clock's touch controller. A tick runs the transition switch and then the action
    switch. A short touch performs one increment or decrement when it is released; a touch
    held past the auto-repeat delay performs one every second tick for as long as it is held.
    Once the screen has been touched for the first time, the clock advances one second every
    eleven ticks spent waiting for a touch. The touch panel is sampled once per tick. */
module ClockControl {
  import opened Integers
  import ClockDisplay

  const AdcCounterMaxValue: int := 1
  const AutoCounterMaxValue: int := 3
  const RateCounterMaxValue: int := 1
  const OneSecond: int := 10
  const ResetVal: int := 0

  datatype State =
    | Init | NeverTouched | WaitingForTouch | AdTimerRunning | AutoTimerRunning
    | RateTimerRunning | RateTimerExpired | AddSecondToClock

  /** The controller's globals, as a value. */
  datatype Control = Control(
    st: State,
    adcCounter: Int8,
    autoCounter: Int8,
    rateCounter: Int8,
    countToSecond: Int8,
    touched: bool)

  const Start: Control := Control(Init, 0, 0, 0, 0, false)

  /** What holds between ticks: the two states the switches have no case for are never
      entered, each counter is at the value its state implies, every state after the first
      touch records that the screen was touched, and the second counter is in 0..10 and only
      counts once the screen has been touched. */
  predicate Inv(c: Control)
  {
    && !c.st.NeverTouched? && !c.st.AddSecondToClock?
    && (c.st == Init ==> c == Start)
    && (c.st == WaitingForTouch ==> c.adcCounter == 0 && c.autoCounter == 0 && c.rateCounter == 0)
    && (c.st == AdTimerRunning ==> c.adcCounter == 1 && c.autoCounter == 0 && c.rateCounter == 0 && c.touched)
    && (c.st == AutoTimerRunning ==>
          c.adcCounter == 1 && 1 <= c.autoCounter <= AutoCounterMaxValue && c.rateCounter == 0 && c.touched)
    && (c.st == RateTimerRunning ==>
          c.adcCounter == 1 && c.autoCounter == AutoCounterMaxValue && c.rateCounter == 1 && c.touched)
    && (c.st == RateTimerExpired ==>
          c.adcCounter == 1 && c.autoCounter == AutoCounterMaxValue && c.rateCounter == 0 && c.touched)
    && 0 <= c.countToSecond <= OneSecond
    && (!c.touched ==> c.countToSecond == 0)
  }

  /** The transition switch, on this tick's touch sample. */
  function Transition(c: Control, isTouched: bool): Control
  {
    match c.st
    case Init => c.(st := WaitingForTouch)
    case WaitingForTouch => if isTouched then c.(st := AdTimerRunning) else c
    case AdTimerRunning =>
      if isTouched && c.adcCounter == AdcCounterMaxValue then c.(st := AutoTimerRunning)
      else if !isTouched && c.adcCounter == AdcCounterMaxValue then c.(st := WaitingForTouch)
      else c
    case AutoTimerRunning =>
      if isTouched && c.autoCounter == AutoCounterMaxValue then c.(st := RateTimerRunning)
      else if !isTouched then c.(st := WaitingForTouch)
      else c
    case RateTimerRunning =>
      if isTouched && c.rateCounter == RateCounterMaxValue then c.(st := RateTimerExpired)
      else if !isTouched then c.(st := WaitingForTouch)
      else c
    case RateTimerExpired => if isTouched then c.(st := RateTimerRunning) else c.(st := WaitingForTouch)
    case _ => c
  }

  /** Whether the transition switch calls `clockDisplay_performIncDec`: on a release when the
      ADC has settled or during the auto-repeat delay, and on each pass through the expired
      rate timer with the touch held. */
  function TransitionIncDec(c: Control, isTouched: bool): bool
  {
    match c.st
    case AdTimerRunning => !isTouched && c.adcCounter == AdcCounterMaxValue
    case AutoTimerRunning => !isTouched
    case RateTimerExpired => isTouched
    case _ => false
  }

  /** The action switch, run on the state the transition switch chose. */
  function Action(c: Control): Control
  {
    match c.st
    case WaitingForTouch =>
      var d := c.(adcCounter := ResetVal, autoCounter := ResetVal, rateCounter := ResetVal);
      if !d.touched then d
      else if d.countToSecond == OneSecond then d.(countToSecond := ResetVal)
      else d.(countToSecond := IncInt8(d.countToSecond))
    case AdTimerRunning => c.(touched := true, adcCounter := IncInt8(c.adcCounter))
    case AutoTimerRunning => c.(autoCounter := IncInt8(c.autoCounter))
    case RateTimerRunning => c.(rateCounter := IncInt8(c.rateCounter))
    case RateTimerExpired => c.(rateCounter := ResetVal)
    case _ => c
  }

  /** Whether the action switch advances the clock by a second. */
  function ActionAdvances(c: Control): bool
  {
    c.st == WaitingForTouch && c.touched && c.countToSecond == OneSecond
  }

  /** One tick of the controller. */
  function Next(c: Control, isTouched: bool): (r: Control)
    // the first tick always leaves init_st for waiting_for_touch_st
    ensures c.st == Init ==> r.st == WaitingForTouch
    // a tick that ends waiting for a touch has all three touch counters at zero
    ensures r.st == WaitingForTouch ==> r.adcCounter == 0 && r.autoCounter == 0 && r.rateCounter == 0
    // once set, `touched` stays set; it is set by the tick that reaches ad_timer_running_st
    ensures c.touched ==> r.touched
    ensures r.touched != c.touched ==> r.st == AdTimerRunning
  {
    Action(Transition(c, isTouched))
  }

  /** What a tick asks of the clock display, in order: an increment or decrement at the
      touched point, then a one-second advance. */
  datatype Effect = Effect(incDec: bool, advance: bool)

  function Fires(c: Control, isTouched: bool): Effect
  {
    Effect(TransitionIncDec(c, isTouched), ActionAdvances(Transition(c, isTouched)))
  }

  /** Every tick keeps the invariant. */
  lemma NextKeepsInv(c: Control, isTouched: bool)
    requires Inv(c)
    ensures Inv(Next(c, isTouched))
  {
  }

  /** The clock never advances before the first touch, and the first tick never changes the
      time. */
  lemma NoAdvanceBeforeTouch(c: Control, isTouched: bool)
    requires Inv(c) && !c.touched
    ensures !Fires(c, isTouched).advance
    ensures c.st == Init ==> Fires(c, isTouched) == Effect(false, false)
  {
  }

  /** Increments and decrements on release: a release when the ADC has settled or during
      the auto-repeat delay performs exactly one and returns to waiting; a release once the
      auto-repeat has started returns to waiting without one. */
  lemma ReleaseIncDec(c: Control)
    requires Inv(c)
    ensures c.st == AdTimerRunning ==> Next(c, false).st == WaitingForTouch && Fires(c, false).incDec
    ensures c.st == AutoTimerRunning ==> Next(c, false).st == WaitingForTouch && Fires(c, false).incDec
    ensures c.st == RateTimerRunning || c.st == RateTimerExpired ==>
              Next(c, false).st == WaitingForTouch && !Fires(c, false).incDec
    ensures Fires(c, false).incDec ==> c.st == AdTimerRunning || c.st == AutoTimerRunning
    ensures Fires(c, true).incDec <==> c.st == RateTimerExpired
  {
  }

  /** n ticks with the same touch sample. */
  function Run(c: Control, isTouched: bool, n: nat): Control
    decreases n
  {
    if n == 0 then c else Run(Next(c, isTouched), isTouched, n - 1)
  }

  /** How many of those n ticks increment or decrement the time. */
  function IncDecs(c: Control, isTouched: bool, n: nat): nat
    decreases n
  {
    if n == 0 then 0
    else (if Fires(c, isTouched).incDec then 1 else 0) + IncDecs(Next(c, isTouched), isTouched, n - 1)
  }

  /** How many of those n ticks advance the clock. */
  function Advances(c: Control, isTouched: bool, n: nat): nat
    decreases n
  {
    if n == 0 then 0
    else (if Fires(c, isTouched).advance then 1 else 0) + Advances(Next(c, isTouched), isTouched, n - 1)
  }

  /** A quick tap: the touch is seen, the ADC settles on the next tick, and the release on
      that tick performs one increment or decrement and returns to waiting. */
  lemma TapIncDecsOnce(c: Control)
    requires Inv(c) && c.st == WaitingForTouch
    ensures var a := Next(c, true);
            var b := Next(a, false);
            && a.st == AdTimerRunning && !Fires(c, true).incDec
            && b.st == WaitingForTouch && Fires(a, false).incDec
  {
  }

  /** Holding the touch from waiting_for_touch_st: five ticks (the ADC settle and the
      auto-repeat delay) bring the controller to rate_timer_running_st without any increment
      or decrement. */
  lemma HoldReachesRepeat(c: Control)
    requires Inv(c) && c.st == WaitingForTouch
    ensures Run(c, true, 5) == c.(st := RateTimerRunning, adcCounter := 1, autoCounter := 3, rateCounter := 1,
                                  touched := true)
    ensures IncDecs(c, true, 5) == 0
  {
    var c1 := c.(st := AdTimerRunning, adcCounter := 1, touched := true);
    var c2 := c1.(st := AutoTimerRunning, autoCounter := 1);
    var c3 := c2.(autoCounter := 2);
    var c4 := c2.(autoCounter := 3);
    var c5 := c4.(st := RateTimerRunning, rateCounter := 1);
    assert Next(c, true) == c1;
    assert Next(c1, true) == c2;
    assert Next(c2, true) == c3;
    assert Next(c3, true) == c4;
    assert Next(c4, true) == c5;
    assert Run(c5, true, 0) == c5;
  }

  /** The auto-repeat: with the touch held in rate_timer_running_st, every second tick
      performs an increment or decrement, and the controller is back where it was. */
  lemma {:induction false} RepeatEverySecondTick(c: Control, k: nat)
    requires Inv(c) && c.st == RateTimerRunning
    ensures Run(c, true, 2 * k) == c
    ensures IncDecs(c, true, 2 * k) == k
    decreases k
  {
    if k > 0 {
      var e := c.(st := RateTimerExpired, rateCounter := 0);
      assert Next(c, true) == e && !Fires(c, true).incDec;
      assert Next(e, true) == c && Fires(e, true).incDec;
      RepeatEverySecondTick(c, k - 1);
      assert 2 * k - 1 == 2 * (k - 1) + 1;
    }
  }

  /** The first j ticks of a second (j <= 10) only count. */
  lemma {:induction false} CountingToSecond(c: Control, j: nat)
    requires Inv(c) && c.st == WaitingForTouch && c.touched && c.countToSecond + j <= OneSecond
    ensures Run(c, false, j) == c.(countToSecond := c.countToSecond + j)
    ensures Advances(c, false, j) == 0
    decreases j
  {
    if j > 0 {
      var d := c.(countToSecond := c.countToSecond + 1);
      assert Next(c, false) == d && !Fires(c, false).advance;
      CountingToSecond(d, j - 1);
    }
  }

  /** Once the screen has been touched, eleven untouched ticks in waiting_for_touch_st
      advance the clock exactly once, on the tick the counter is at 10, and bring the counter
      back to where it was. */
  lemma SecondEveryElevenTicks(c: Control)
    requires Inv(c) && c.st == WaitingForTouch && c.touched
    ensures Run(c, false, OneSecond + 1) == c
    ensures Advances(c, false, OneSecond + 1) == 1
  {
    var k := c.countToSecond;
    var n := OneSecond - k;
    var top := c.(countToSecond := OneSecond);
    var zero := c.(countToSecond := 0);
    CountingToSecond(c, n);
    assert Next(top, false) == zero && Fires(top, false).advance;
    CountingToSecond(zero, k);
    RunSplit(c, false, n, k + 1);
    RunSplit(top, false, 1, k);
  }

  /** Running n ticks and then m more is running n + m. */
  lemma {:induction false} RunSplit(c: Control, isTouched: bool, n: nat, m: nat)
    ensures Run(c, isTouched, n + m) == Run(Run(c, isTouched, n), isTouched, m)
    ensures Advances(c, isTouched, n + m) == Advances(c, isTouched, n) + Advances(Run(c, isTouched, n), isTouched, m)
    ensures IncDecs(c, isTouched, n + m) == IncDecs(c, isTouched, n) + IncDecs(Run(c, isTouched, n), isTouched, m)
    decreases n
  {
    if n > 0 {
      RunSplit(Next(c, isTouched), isTouched, n - 1, m);
    }
  }

  /** What the tick does to the clock display: the increment or decrement at (x, y) with the
      display brought up to date, then the advance with the display brought up to date. */
  function DisplayAfter(c: Control, isTouched: bool, x: int, y: int, f: ClockDisplay.Face): ClockDisplay.Face
  {
    var e := Fires(c, isTouched);
    var f1 := if e.incDec then ClockDisplay.Update(f.(time := ClockDisplay.ApplyBox(ClockDisplay.BoxAt(x, y), f.time)), false)
              else f;
    if e.advance then ClockDisplay.Update(f1.(time := ClockDisplay.Advance(f1.time)), false) else f1
  }

  /** The clock only ever shows valid times: every tick keeps the time valid. */
  lemma DisplayAfterKeepsTime(c: Control, isTouched: bool, x: int, y: int, f: ClockDisplay.Face)
    requires ClockDisplay.ValidTime(f.time)
    ensures ClockDisplay.ValidTime(DisplayAfter(c, isTouched, x, y, f).time)
  {
    ClockDisplay.IncDecChangesOneField(f.time, x, y);
    var e := Fires(c, isTouched);
    var t1 := if e.incDec then ClockDisplay.ApplyBox(ClockDisplay.BoxAt(x, y), f.time) else f.time;
    ClockDisplay.AdvanceAddsOneSecond(t1);
  }

  class Controller {
    var currentState: State
    var adcCounter: Int8
    var autoCounter: Int8
    var rateCounter: Int8
    var countToSecond: Int8
    var touched: bool

    function Model(): Control
      reads this
    {
      Control(currentState, adcCounter, autoCounter, rateCounter, countToSecond, touched)
    }

    ghost predicate Valid()
      reads this
    {
      Inv(Model())
    }

    /** The globals' initial values with `clockControl_init` applied. */
    constructor ()
      ensures Valid() && Model() == Start
    {
      currentState := Init;
      adcCounter, autoCounter, rateCounter, countToSecond := 0, 0, 0, 0;
      touched := false;
    }

    /** One tick, with `isTouched` the panel's reading for this tick and (x, y) its touched
        point. */
    method Tick(clock: ClockDisplay.Clock, isTouched: bool, x: Int16, y: Int16)
      requires Valid()
      modifies this, clock
      ensures Valid()
      ensures Model() == Next(old(Model()), isTouched)
      ensures clock.Model() == DisplayAfter(old(Model()), isTouched, x, y, old(clock.Model()))
    {
      NextKeepsInv(Model(), isTouched);
      DoTransition(clock, isTouched, x, y);
      DoAction(clock);
    }

    method DoTransition(clock: ClockDisplay.Clock, isTouched: bool, x: Int16, y: Int16)
      modifies this`currentState, clock
      ensures Model() == Transition(old(Model()), isTouched)
      ensures clock.Model() ==
              if TransitionIncDec(old(Model()), isTouched) then
                ClockDisplay.Update(old(clock.Model()).(time := ClockDisplay.ApplyBox(ClockDisplay.BoxAt(x, y), old(clock.Now()))), false)
              else old(clock.Model())
    {
      match currentState {
        case Init =>
          currentState := WaitingForTouch;
        case WaitingForTouch =>
          if isTouched {
            currentState := AdTimerRunning;
          }
        case AdTimerRunning =>
          if isTouched && adcCounter == AdcCounterMaxValue {
            currentState := AutoTimerRunning;
          } else if !isTouched && adcCounter == AdcCounterMaxValue {
            clock.PerformIncDec(x, y);
            currentState := WaitingForTouch;
          }
        case AutoTimerRunning =>
          if isTouched && autoCounter == AutoCounterMaxValue {
            currentState := RateTimerRunning;
          } else if !isTouched {
            clock.PerformIncDec(x, y);
            currentState := WaitingForTouch;
          }
        case RateTimerRunning =>
          if isTouched && rateCounter == RateCounterMaxValue {
            currentState := RateTimerExpired;
          } else if !isTouched {
            currentState := WaitingForTouch;
          }
        case RateTimerExpired =>
          if isTouched {
            clock.PerformIncDec(x, y);
            currentState := RateTimerRunning;
          } else {
            currentState := WaitingForTouch;
          }
        case _ =>
      }
    }

    method DoAction(clock: ClockDisplay.Clock)
      modifies this`adcCounter, this`autoCounter, this`rateCounter, this`countToSecond, this`touched, clock
      ensures Model() == Action(old(Model()))
      ensures clock.Model() ==
              if ActionAdvances(old(Model())) then
                ClockDisplay.Update(old(clock.Model()).(time := ClockDisplay.Advance(old(clock.Now()))), false)
              else old(clock.Model())
    {
      match currentState {
        case WaitingForTouch =>
          adcCounter, autoCounter, rateCounter := ResetVal, ResetVal, ResetVal;
          if touched {
            if countToSecond == OneSecond {
              clock.AdvanceTimeOneSecond();
              clock.UpdateTimeDisplay(false);
              countToSecond := ResetVal;
            } else {
              countToSecond := IncInt8(countToSecond);
            }
          }
        case AdTimerRunning =>
          if !touched {
            touched := true;
          }
          adcCounter := IncInt8(adcCounter);
        case AutoTimerRunning =>
          autoCounter := IncInt8(autoCounter);
        case RateTimerRunning =>
          rateCounter := IncInt8(rateCounter);
        case RateTimerExpired =>
          rateCounter := ResetVal;
        case _ =>
      }
    }
  }
}
