/** The Simon verification machine: once enabled it walks the stored sequence from position 0
    up to the iteration length, enabling the touch handler for each entry, waiting for a
    release, comparing the region touched with the stored entry, and finishing on the first
    mismatch, on a timeout, or at the end of the sequence. */
module VerifySequence {
  import opened Integers
  import opened SimonDisplay
  import opened SimonGlobals
  import ButtonHandler

  /** Release-state ticks without a touch after which the player has timed out. */
  const TimeOutValue: int := 20

  datatype State = Init | EnableButton | Release | VerifyRegion | Inc | Finished

  /** The machine's globals, as a value. */
  datatype Verify = Verify(
    st: State,
    enabled: bool,
    toErr: bool,
    uiErr: bool,
    complete: bool,
    position: UInt8,
    toCount: UInt16)

  const Start: Verify := Verify(Init, false, false, false, false, 0, 0)

  /** The states between being started and finishing. */
  predicate Active(s: State)
  {
    s == EnableButton || s == Release || s == VerifyRegion || s == Inc
  }

  /** What holds between ticks: the timeout counter never passes its limit and is below it
      while a run is in progress, the error and completion flags stay down while a run is in
      progress (a user error only shows from inc_st on), and a timeout is only reported once
      finished. */
  predicate Inv(v: Verify)
  {
    && v.toCount <= TimeOutValue
    && (Active(v.st) ==> v.toCount < TimeOutValue && !v.toErr && !v.complete)
    && (Active(v.st) && v.st != Inc ==> !v.uiErr)
  }

  /** The action switch of the tick; `expected` is the stored entry at the current position and
      (x, y) the point read by `buttonHandler_getRegionNumber`. */
  function Action(v: Verify, expected: int, x: int, y: int): Verify
  {
    match v.st
    case Release => v.(toCount := ToUInt16(v.toCount + 1))
    case VerifyRegion => if ComputeRegionNumber(x, y) != expected then v.(uiErr := true) else v
    case _ => v
  }

  /** The transition switch of the tick; `released` is what `buttonHandler_releaseDetected`
      would return if it were called. */
  function Transition(v: Verify, iterationLength: int, touched: bool, released: bool): Verify
  {
    match v.st
    case Init =>
      if v.enabled then v.(position := 0, complete := false, toErr := false, toCount := 0,
                           uiErr := false, st := EnableButton)
      else v
    case EnableButton => v.(st := Release)
    case Release =>
      if v.toCount == TimeOutValue then v.(toErr := true, st := Finished)
      else if touched then v.(toCount := 0)
      else if released then v.(st := VerifyRegion)
      else v
    case VerifyRegion => v.(st := Inc)
    case Inc =>
      if v.uiErr || v.position == iterationLength then v.(st := Finished)
      else v.(position := ToUInt8(v.position + 1), st := EnableButton)
    case Finished =>
      var w := v.(complete := true);
      if !w.enabled then w.(st := Init) else w
  }

  /** One tick, given the store's iteration length and entries, whether the screen is touched,
      the handler's release flag and the touched point. */
  function Next(v: Verify, iterationLength: UInt8, values: seq<UInt8>, touched: bool, released: bool,
                x: int, y: int): (r: Verify)
    requires Inv(v) && |values| == MaxFlashSequence
    ensures Inv(r)
    ensures r.enabled == v.enabled
    // init_st starts a fresh run when enabled, clearing every flag
    ensures v.st == Init ==>
              r == if v.enabled then Verify(EnableButton, true, false, false, false, 0, 0) else v
    ensures v.st == EnableButton ==> r == v.(st := Release)
    // release_st: the timeout wins, then a touch restarts the timeout, then a release moves on
    ensures v.st == Release ==>
              if v.toCount + 1 == TimeOutValue then r == v.(toCount := TimeOutValue, toErr := true, st := Finished)
              else if touched then r == v.(toCount := 0)
              else if released then r == v.(toCount := v.toCount + 1, st := VerifyRegion)
              else r == v.(toCount := v.toCount + 1)
    // verify_region_st records a mismatch between the touched region and the stored entry
    ensures v.st == VerifyRegion ==>
              r == v.(uiErr := ComputeRegionNumber(x, y) != values[v.position], st := Inc)
    // inc_st stops at the first mismatch or at the end of the sequence
    ensures v.st == Inc ==>
              if v.uiErr || v.position == iterationLength then r == v.(st := Finished)
              else r == v.(position := ToUInt8(v.position + 1), st := EnableButton)
    ensures v.st == Inc && !v.uiErr && v.position < iterationLength ==> r.position == v.position + 1
    // finished_st reports completion and keeps the results until it is disabled
    ensures v.st == Finished ==>
              r == v.(complete := true, st := if v.enabled then Finished else Init)
    ensures r.toErr ==> r.st == Finished || r.st == Init
  {
    Transition(Action(v, values[v.position], x, y), iterationLength, touched, released)
  }

  /** What the tick does to the touch handler: enable_button_st enables it, verify_region_st
      disables it, and release_st consumes its release flag exactly when it polls it (no
      timeout and no touch on this tick). */
  function HandlerEffect(v: Verify, h: ButtonHandler.Handler, touched: bool): (g: ButtonHandler.Handler)
    ensures g == h.(enabled := g.enabled, released := g.released)
    ensures g.enabled == (if v.st == EnableButton then true else if v.st == VerifyRegion then false else h.enabled)
    ensures g.released == (h.released && !(v.st == Release && v.toCount + 1 != TimeOutValue && !touched))
  {
    match v.st
    case EnableButton => h.(enabled := true)
    case VerifyRegion => h.(enabled := false)
    case Release =>
      if v.toCount + 1 != TimeOutValue && !touched then ButtonHandler.ReleasePoll(h).1 else h
    case _ => h
  }

  /** The release handshake: the verifier leaves release_st for verify_region_st exactly when
      the handler had a release to report and the report was consumed on this tick. */
  lemma ReleaseHandshake(v: Verify, h: ButtonHandler.Handler, iterationLength: UInt8, values: seq<UInt8>,
                         touched: bool, x: int, y: int)
    requires Inv(v) && |values| == MaxFlashSequence && v.st == Release
    ensures Next(v, iterationLength, values, touched, h.released, x, y).st == VerifyRegion
            <==> h.released && !HandlerEffect(v, h, touched).released
  {
  }

  /** One tick's environment. */
  datatype Input = Input(touched: bool, released: bool, x: int, y: int)

  function Step(v: Verify, iterationLength: UInt8, values: seq<UInt8>, i: Input): (r: Verify)
    requires Inv(v) && |values| == MaxFlashSequence
    ensures Inv(r)
  {
    Next(v, iterationLength, values, i.touched, i.released, i.x, i.y)
  }

  function Run(v: Verify, iterationLength: UInt8, values: seq<UInt8>, inputs: seq<Input>): (r: Verify)
    requires Inv(v) && |values| == MaxFlashSequence
    ensures Inv(r)
    decreases |inputs|
  {
    if inputs == [] then v else Run(Step(v, iterationLength, values, inputs[0]), iterationLength, values, inputs[1..])
  }

  lemma {:induction false} RunAppend(v: Verify, iterationLength: UInt8, values: seq<UInt8>, a: seq<Input>, b: seq<Input>)
    requires Inv(v) && |values| == MaxFlashSequence
    ensures Run(v, iterationLength, values, a + b)
            == Run(Run(v, iterationLength, values, a), iterationLength, values, b)
    decreases |a|
  {
    if a == [] {
      assert a + b == b;
    } else {
      assert (a + b)[1..] == a[1..] + b;
      RunAppend(Step(v, iterationLength, values, a[0]), iterationLength, values, a[1..], b);
    }
  }

  /** The first element of a run is taken first. */
  lemma RunCons(v: Verify, iterationLength: UInt8, values: seq<UInt8>, i: Input, rest: seq<Input>)
    requires Inv(v) && |values| == MaxFlashSequence
    ensures Run(v, iterationLength, values, [i] + rest)
            == Run(Step(v, iterationLength, values, i), iterationLength, values, rest)
  {
    assert ([i] + rest)[1..] == rest;
  }

  const Idle: Input := Input(false, false, 0, 0)
  const Press: Input := Input(true, false, 0, 0)
  const Lift: Input := Input(false, true, 0, 0)

  /** n ticks with no touch and no release reported. */
  function Idles(n: nat): (s: seq<Input>)
    ensures |s| == n && forall i :: 0 <= i < n ==> s[i] == Idle
  {
    seq(n, _ => Idle)
  }

  /** A tick on which the player's finger is on region r. */
  function Answer(r: int): Input
    requires 0 <= r < RegionCount
  {
    Input(false, false, PointIn(r).0, PointIn(r).1)
  }

  /** The ticks of one correct answer for entry r: enable_button_st, a touch in release_st, the
      release, the region check, inc_st. */
  function RoundInputs(r: int): seq<Input>
    requires 0 <= r < RegionCount
  {
    [Idle, Press, Lift, Answer(r), Idle]
  }

  /** One correct answer: from enable_button_st at position k the machine reaches the next
      position, or finishes at the iteration length, with no error and the timeout counter at
      1 (the touch reset it). */
  lemma CorrectRound(v: Verify, iterationLength: UInt8, values: seq<UInt8>)
    requires Inv(v) && |values| == MaxFlashSequence && v.st == EnableButton
    requires values[v.position] < RegionCount
    requires v.position <= iterationLength && v.toCount + 1 < TimeOutValue
    ensures var r := Run(v, iterationLength, values, RoundInputs(values[v.position]));
            r == if v.position == iterationLength then v.(toCount := 1, st := Finished)
                 else v.(toCount := 1, position := v.position + 1)
  {
    var ins := RoundInputs(values[v.position]);
    var p := PointIn(values[v.position]);
    assert ins == [Idle] + ([Press] + ([Lift] + ([Answer(values[v.position])] + [Idle])));
    var v1 := Step(v, iterationLength, values, Idle);
    var v2 := Step(v1, iterationLength, values, Press);
    var v3 := Step(v2, iterationLength, values, Lift);
    var v4 := Step(v3, iterationLength, values, Answer(values[v.position]));
    RunCons(v, iterationLength, values, Idle, [Press] + ([Lift] + ([Answer(values[v.position])] + [Idle])));
    RunCons(v1, iterationLength, values, Press, [Lift] + ([Answer(values[v.position])] + [Idle]));
    RunCons(v2, iterationLength, values, Lift, [Answer(values[v.position])] + [Idle]);
    RunCons(v3, iterationLength, values, Answer(values[v.position]), [Idle]);
    RunCons(v4, iterationLength, values, Idle, []);
    assert v4 == v.(toCount := 1, st := Inc);
  }

  /** The correct answers for positions k..L. */
  function Rounds(values: seq<UInt8>, k: nat, iterationLength: UInt8): seq<Input>
    requires |values| == MaxFlashSequence && k <= iterationLength + 1
    requires forall i :: 0 <= i < |values| ==> values[i] < RegionCount
    decreases iterationLength + 1 - k
  {
    if k == iterationLength + 1 then [] else RoundInputs(values[k]) + Rounds(values, k + 1, iterationLength)
  }

  /** Five ticks per answer. */
  lemma {:induction false} RoundsLength(values: seq<UInt8>, k: nat, iterationLength: UInt8)
    requires |values| == MaxFlashSequence && k <= iterationLength + 1
    requires forall i :: 0 <= i < |values| ==> values[i] < RegionCount
    ensures |Rounds(values, k, iterationLength)| == 5 * (iterationLength + 1 - k)
    decreases iterationLength + 1 - k
  {
    if k < iterationLength + 1 {
      RoundsLength(values, k + 1, iterationLength);
    }
  }

  lemma {:induction false} CorrectRoundsFrom(v: Verify, iterationLength: UInt8, values: seq<UInt8>)
    requires Inv(v) && |values| == MaxFlashSequence && v.st == EnableButton && v.enabled
    requires forall i :: 0 <= i < |values| ==> values[i] < RegionCount
    requires v.position <= iterationLength && v.toCount <= 1
    ensures Run(v, iterationLength, values, Rounds(values, v.position, iterationLength))
            == Verify(Finished, true, false, false, false, iterationLength, 1)
    decreases iterationLength - v.position
  {
    var k := v.position;
    RunAppend(v, iterationLength, values, RoundInputs(values[k]), Rounds(values, k + 1, iterationLength));
    CorrectRound(v, iterationLength, values);
    if k < iterationLength {
      CorrectRoundsFrom(v.(toCount := 1, position := k + 1), iterationLength, values);
    } else {
      assert Rounds(values, k + 1, iterationLength) == [];
    }
  }

  /** A player who answers every entry correctly: after being enabled, the machine finishes
      with neither a timeout nor a user error after 1 + 5 (L + 1) ticks, and reports completion
      on the tick after. */
  lemma CorrectPlayerCompletes(iterationLength: UInt8, values: seq<UInt8>)
    requires |values| == MaxFlashSequence
    requires forall i :: 0 <= i < |values| ==> values[i] < RegionCount
    ensures var r := Run(Start.(enabled := true), iterationLength, values, [Idle] + Rounds(values, 0, iterationLength));
            r.st == Finished && !r.toErr && !r.uiErr && !r.complete && r.position == iterationLength
    ensures var r := Run(Start.(enabled := true), iterationLength, values, [Idle] + Rounds(values, 0, iterationLength) + [Idle]);
            r.st == Finished && !r.toErr && !r.uiErr && r.complete
  {
    var a := Start.(enabled := true);
    var ins := Rounds(values, 0, iterationLength);
    RunCons(a, iterationLength, values, Idle, ins);
    CorrectRoundsFrom(Step(a, iterationLength, values, Idle), iterationLength, values);
    RunAppend(a, iterationLength, values, [Idle] + ins, [Idle]);
    RunCons(Run(a, iterationLength, values, [Idle] + ins), iterationLength, values, Idle, []);
  }

  /** Without a touch, release_st times out: from a timeout count of t, the machine stays in
      release_st for 19 - t ticks (if no release is reported) and reports the timeout on the
      next. */
  lemma {:induction false} TimeOutAfterIdleTicks(v: Verify, iterationLength: UInt8, values: seq<UInt8>)
    requires Inv(v) && |values| == MaxFlashSequence && v.st == Release
    ensures var n := TimeOutValue - v.toCount;
            Run(v, iterationLength, values, Idles(n))
            == v.(toCount := TimeOutValue, toErr := true, st := Finished)
    ensures forall j :: 0 <= j < TimeOutValue - v.toCount ==>
              Run(v, iterationLength, values, Idles(j)).st == Release
    decreases TimeOutValue - v.toCount
  {
    var n := TimeOutValue - v.toCount;
    var v1 := Step(v, iterationLength, values, Idle);
    assert Idles(n) == [Idle] + Idles(n - 1);
    RunCons(v, iterationLength, values, Idle, Idles(n - 1));
    if v.toCount + 1 == TimeOutValue {
      assert Idles(n - 1) == [];
    } else {
      TimeOutAfterIdleTicks(v1, iterationLength, values);
    }
    forall j | 0 <= j < n
      ensures Run(v, iterationLength, values, Idles(j)).st == Release
    {
      if j > 0 {
        assert Idles(j) == [Idle] + Idles(j - 1);
        RunCons(v, iterationLength, values, Idle, Idles(j - 1));
      }
    }
  }

  /** The timeout counter is not reset between entries: a release that comes on the first
      release_st tick, with no touch seen by this machine, carries the count into the next
      entry. This is a property of the machine alone: in the whole program the handler reports
      a release only after a touch, which this machine also samples and which resets the count. */
  lemma TimeOutCountCarriesOver(v: Verify, iterationLength: UInt8, values: seq<UInt8>)
    requires Inv(v) && |values| == MaxFlashSequence && v.st == EnableButton
    requires values[v.position] < RegionCount
    requires v.position < iterationLength && v.toCount + 1 < TimeOutValue
    ensures var r := Run(v, iterationLength, values, [Idle, Lift, Answer(values[v.position]), Idle]);
            r == v.(toCount := v.toCount + 1, position := v.position + 1)
  {
    var ans := Answer(values[v.position]);
    var v1 := Step(v, iterationLength, values, Idle);
    var v2 := Step(v1, iterationLength, values, Lift);
    var v3 := Step(v2, iterationLength, values, ans);
    assert [Idle, Lift, ans, Idle] == [Idle] + ([Lift] + ([ans] + [Idle]));
    RunCons(v, iterationLength, values, Idle, [Lift] + ([ans] + [Idle]));
    RunCons(v1, iterationLength, values, Lift, [ans] + [Idle]);
    RunCons(v2, iterationLength, values, ans, [Idle]);
    RunCons(v3, iterationLength, values, Idle, []);
  }

  class Machine {
    var vsEnable: bool
    var toErr: bool
    var uiErr: bool
    var vsComplete: bool
    var position: UInt8
    var toCount: UInt16
    var curSt: State

    function Model(): Verify
      reads this
    {
      Verify(curSt, vsEnable, toErr, uiErr, vsComplete, position, toCount)
    }

    ghost predicate Valid()
      reads this
    {
      Inv(Model())
    }

    constructor ()
      ensures Valid() && Model() == Start
    {
      vsEnable, toErr, uiErr, vsComplete := false, false, false, false;
      position, toCount := 0, 0;
      curSt := Init;
    }

    method Enable()
      modifies this`vsEnable
      ensures Model() == old(Model()).(enabled := true)
    {
      vsEnable := true;
    }

    method Disable()
      modifies this`vsEnable
      ensures Model() == old(Model()).(enabled := false)
    {
      vsEnable := false;
    }

    /** A timeout is only reported once the machine has finished. */
    method IsTimeOutError() returns (isTimeOut: bool)
      requires Valid()
      ensures isTimeOut == toErr
      ensures isTimeOut ==> curSt == Finished || curSt == Init
    {
      return toErr;
    }

    /** A user error is never reported while an answer is still being taken. */
    method IsUserInputError() returns (isUserError: bool)
      requires Valid()
      ensures isUserError == uiErr
      ensures isUserError ==> !(Active(curSt) && curSt != Inc)
    {
      return uiErr;
    }

    /** Completion is only reported once the machine has finished. */
    method IsComplete() returns (isComplete: bool)
      requires Valid()
      ensures isComplete == vsComplete
      ensures isComplete ==> curSt == Finished || curSt == Init
    {
      return vsComplete;
    }

    /** One tick: the state's action, then its transition. `touched` and (x, y) are the panel
        readings of this tick. */
    method Tick(bh: ButtonHandler.Machine, store: SequenceStore, touched: bool, x: Int16, y: Int16)
      requires Valid() && store.Valid()
      modifies this, bh
      ensures Valid()
      ensures Model() == Next(old(Model()), store.level, store.sequence[..], touched, old(bh.released), x, y)
      ensures bh.Model() == HandlerEffect(old(Model()), old(bh.Model()), touched)
    {
      assert store.sequence[..][position] == store.sequence[position];
      DoAction(bh, store, x, y);
      DoTransition(bh, store, touched);
    }

    method DoAction(bh: ButtonHandler.Machine, store: SequenceStore, x: Int16, y: Int16)
      requires Valid() && store.Valid()
      modifies this, bh
      ensures Model() == Action(old(Model()), store.sequence[position], x, y)
      ensures bh.Model() == if curSt == EnableButton then old(bh.Model()).(enabled := true)
                            else if curSt == VerifyRegion then old(bh.Model()).(enabled := false)
                            else old(bh.Model())
    {
      match curSt {
        case EnableButton =>
          bh.Enable();
        case Release =>
          toCount := ToUInt16(toCount + 1);
        case VerifyRegion =>
          bh.Disable();
          if ComputeRegionNumber(x, y) != store.GetSequenceValue(position) {
            uiErr := true;
          }
        case _ =>
      }
    }

    method DoTransition(bh: ButtonHandler.Machine, store: SequenceStore, touched: bool)
      modifies this, bh
      ensures Model() == Transition(old(Model()), store.level, touched, old(bh.released))
      ensures bh.Model() == if old(curSt) == Release && old(toCount) != TimeOutValue && !touched
                            then ButtonHandler.ReleasePoll(old(bh.Model())).1
                            else old(bh.Model())
    {
      match curSt {
        case Init =>
          if vsEnable {
            position := 0;
            vsComplete := false;
            toErr := false;
            toCount := 0;
            uiErr := false;
            curSt := EnableButton;
          }
        case EnableButton =>
          curSt := Release;
        case Release =>
          if toCount == TimeOutValue {
            toErr := true;
            curSt := Finished;
          } else if touched {
            toCount := 0;
          } else {
            var wasReleased := bh.ReleaseDetected();
            if wasReleased {
              curSt := VerifyRegion;
            }
          }
        case VerifyRegion =>
          curSt := Inc;
        case Inc =>
          if uiErr || position == store.GetSequenceIterationLength() {
            curSt := Finished;
          } else {
            position := ToUInt8(position + 1);
            curSt := EnableButton;
          }
        case Finished =>
          vsComplete := true;
          if !vsEnable {
            curSt := Init;
          }
      }
    }
  }
}
