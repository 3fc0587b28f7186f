/** The Simon controller: it waits for a touch, generates a random sequence, and then for each
    sequence length from 1 up to the current level it flashes the prefix and has the player
    repeat it, through an enable / wait-for-complete / disable interlock with the playback and
    verification machines. A completed level shows a message and waits for a touch to start
    the next, longer level; an error or a missed touch ends the game and resets it. */
module SimonControl {
  import opened Integers
  import opened SimonDisplay
  import opened SimonGlobals
  import FlashSequence
  import VerifySequence

  const FirstLevel: int := 4
  const InitialLevel: int := 1
  const MsgTimeOut: int := 40
  const HalfMsgTimeOut: int := MsgTimeOut / 2

  datatype State =
    | Init | Release | Start
    | EnableFlash | WaitFlash | DisableFlash
    | EnableVerify | WaitVerify | DisableVerify
    | CompleteLvl | WaitCompleteLvl | NewLvl | WaitNewLvl
    | EndGame | WaitEndGame
  {
    /** The states whose transition can change the level, the length or the high score. */
    predicate MovesLevels()
    {
      DisableVerify? || WaitNewLvl? || WaitEndGame?
    }

    /** The states of the interlock with the playback and verification machines, before
        disable_verify_st. */
    predicate InInterlock()
    {
      Release? || Start? || EnableFlash? || WaitFlash? || DisableFlash? || EnableVerify? || WaitVerify?
    }

    /** The first state of each message. */
    predicate StartsMessage()
    {
      CompleteLvl? || NewLvl? || EndGame?
    }
  }

  /** The controller's scalar globals, as a value. The `sequence` buffer is kept apart; what a
      tick does to it is `SequenceAfter`. */
  datatype Control = Control(
    st: State,
    currLvl: UInt8,
    seqLength: UInt8,
    highScore: UInt8,
    completeLvlCounter: UInt8,
    newLvlCounter: UInt8,
    endGameCounter: UInt8,
    fail: bool,
    initialized: bool,
    drawSimon: bool,
    nextLvl: bool,
    gameOver: bool,
    enabled: bool,
    seed: UInt32)

  /** What the controller reads from outside on one tick: whether the screen is touched, and
      the playback and verification machines' completion and error flags. */
  datatype Env = Env(
    touched: bool,
    flashComplete: bool,
    verifyComplete: bool,
    timeOutError: bool,
    userInputError: bool)

  /** The C library generator: `rand(seed, i)` is the value of the (i+1)-th `rand()` call after
      `srand(seed)`. Only its determinism in the seed is relied on. */
  type Rand = (UInt32, nat) -> nat

  const Initial: Control :=
    Control(Init, FirstLevel, InitialLevel, 0, 0, 0, 0, false, false, false, false, false, false, 0)

  /** What holds between ticks: each message counter is below its limit while its wait state
      runs and zero where it is not in use (the new-level counter keeps its final value through
      the end-game states), and the game-over flag is never raised. */
  predicate Inv(c: Control)
  {
    && (c.st == WaitCompleteLvl ==> c.completeLvlCounter < HalfMsgTimeOut)
    && (c.st != WaitCompleteLvl ==> c.completeLvlCounter == 0)
    && c.newLvlCounter <= MsgTimeOut
    && (c.st == WaitNewLvl ==> c.newLvlCounter < MsgTimeOut)
    && (c.st != WaitNewLvl && c.st != EndGame && c.st != WaitEndGame ==> c.newLvlCounter == 0)
    && (c.st == WaitEndGame ==> c.endGameCounter < MsgTimeOut)
    && (c.st != WaitEndGame ==> c.endGameCounter == 0)
    && !c.gameOver
  }

  /** The level bookkeeping: the length being played is between 1 and the level, and the high
      score never passes the level. */
  predicate LevelInv(c: Control)
  {
    1 <= c.seqLength <= c.currLvl && c.highScore <= c.currLvl
  }

  /** `generateSequence`: the first `n` entries drawn from the generator seeded with `seed`,
      each reduced to a region number; the rest of the buffer as it was. */
  function Generated(s: seq<UInt8>, seed: UInt32, n: nat, rand: Rand): (r: seq<UInt8>)
    requires n <= |s|
    ensures |r| == |s|
    ensures forall i :: 0 <= i < n ==> r[i] < RegionCount
    ensures forall i :: n <= i < |s| ==> r[i] == s[i]
  {
    seq(|s|, i requires 0 <= i < |s| => if i < n then rand(seed, i) % RegionCount else s[i])
  }

  /** Two generations from the same seed and length agree on the generated prefix, whatever
      the buffer held before. */
  lemma GeneratedDeterministic(s: seq<UInt8>, t: seq<UInt8>, seed: UInt32, n: nat, rand: Rand)
    requires n <= |s| && n <= |t|
    ensures Generated(s, seed, n, rand)[..n] == Generated(t, seed, n, rand)[..n]
  {
  }

  /** The game state after the end-game message times out: back to the first level. */
  function Reset(c: Control): Control
  {
    c.(st := Init, currLvl := FirstLevel, highScore := 0, seqLength := InitialLevel,
       completeLvlCounter := 0, newLvlCounter := 0, endGameCounter := 0,
       nextLvl := false, initialized := false, drawSimon := false)
  }

  /** The level, the length being played and the high score are those of `c`. */
  predicate SameLevels(c: Control, r: Control)
  {
    r.currLvl == c.currLvl && r.seqLength == c.seqLength && r.highScore == c.highScore
  }

  /** The action switch of the tick (the controller's own variables only). */
  function Action(c: Control): (a: Control)
    ensures a.st == c.st && SameLevels(c, a) && a.nextLvl == c.nextLvl && a.enabled == c.enabled
    // only init_st counts the seed
    ensures a.seed == if c.st == Init then Inc32(c.seed) else c.seed
  {
    match c.st
    case Init =>
      var d := if !c.initialized then c.(drawSimon := true, initialized := true) else c;
      d.(seed := Inc32(d.seed))
    case WaitCompleteLvl => c.(completeLvlCounter := Inc8(c.completeLvlCounter))
    case WaitNewLvl => c.(newLvlCounter := Inc8(c.newLvlCounter))
    case WaitEndGame => c.(endGameCounter := Inc8(c.endGameCounter))
    case _ => c
  }

  /** The transition switch of the tick (the controller's own variables only). */
  function Transition(c: Control, e: Env): (r: Control)
    ensures r.enabled == c.enabled && r.seed == c.seed
    ensures !c.st.MovesLevels() ==> SameLevels(c, r)
    ensures c.st == WaitNewLvl && !e.touched ==> SameLevels(c, r)
    ensures c.st == DisableVerify ==> r.currLvl == c.currLvl
  {
    match c.st
    case Init => InitTransition(c, e)
    case DisableVerify => DisableVerifyTransition(c, e)
    case WaitCompleteLvl => WaitCompleteLvlTransition(c)
    case WaitNewLvl => WaitNewLvlTransition(c, e)
    case WaitEndGame => WaitEndGameTransition(c)
    case _ => InterlockTransition(c, e)
  }

  /** The states that only move on: the start of a game, the interlock, and the first tick of
      each message. */
  function InterlockTransition(c: Control, e: Env): (r: Control)
    requires !(c.st.Init? || c.st.DisableVerify? || c.st.WaitCompleteLvl? || c.st.WaitNewLvl? || c.st.WaitEndGame?)
    ensures r == c.(st := r.st)
  {
    match c.st
    case Release => if !e.touched then c.(st := Start) else c
    case Start => c.(st := EnableFlash)
    case EnableFlash => c.(st := WaitFlash)
    case WaitFlash => if e.flashComplete then c.(st := DisableFlash) else c
    case DisableFlash => c.(st := EnableVerify)
    case EnableVerify => c.(st := WaitVerify)
    case WaitVerify => if e.verifyComplete then c.(st := DisableVerify) else c
    case CompleteLvl => c.(st := WaitCompleteLvl)
    case NewLvl => c.(st := WaitNewLvl)
    case EndGame => c.(st := WaitEndGame)
  }

  /** init_st: start a new level at once, or a new game on a touch. */
  function InitTransition(c: Control, e: Env): (r: Control)
    requires c.st == Init
    ensures r == c.(st := r.st)
  {
    if c.nextLvl then c.(st := Start)
    else if e.touched then c.(st := Release)
    else c
  }

  /** disable_verify_st: end the game, complete the level, or play one entry more. */
  function DisableVerifyTransition(c: Control, e: Env): (r: Control)
    requires c.st == DisableVerify
    ensures r.enabled == c.enabled && r.seed == c.seed && r.currLvl == c.currLvl
  {
    if e.timeOutError || e.userInputError then c.(fail := true, st := EndGame)
    else if c.seqLength == c.currLvl then c.(highScore := c.seqLength, st := CompleteLvl)
    else
      var d := if c.seqLength > c.highScore then c.(highScore := c.seqLength) else c;
      d.(seqLength := Inc8(d.seqLength), st := Start)
  }

  function WaitCompleteLvlTransition(c: Control): (r: Control)
    requires c.st == WaitCompleteLvl
    ensures r.enabled == c.enabled && r.seed == c.seed && SameLevels(c, r)
  {
    if c.completeLvlCounter >= HalfMsgTimeOut then c.(completeLvlCounter := 0, st := NewLvl) else c
  }

  /** wait_new_lvl_st: a touch starts the next level; otherwise the prompt times out. */
  function WaitNewLvlTransition(c: Control, e: Env): (r: Control)
    requires c.st == WaitNewLvl
    ensures r.enabled == c.enabled && r.seed == c.seed
    ensures !e.touched ==> r == c.(st := r.st)
  {
    if e.touched then
      c.(currLvl := Inc8(c.currLvl), seqLength := InitialLevel, initialized := false,
         completeLvlCounter := 0, newLvlCounter := 0, endGameCounter := 0,
         nextLvl := true, st := Init)
    else if c.newLvlCounter == MsgTimeOut then c.(st := EndGame)
    else c
  }

  function WaitEndGameTransition(c: Control): (r: Control)
    requires c.st == WaitEndGame
    ensures r.enabled == c.enabled && r.seed == c.seed
  {
    if c.endGameCounter == MsgTimeOut then Reset(c) else c
  }

  /** One tick of the controller. What it does state by state is stated by the lemmas below. */
  function Next(c: Control, e: Env): (r: Control)
    ensures r.enabled == c.enabled
    // the seed counts the ticks spent in init_st
    ensures r.seed == if c.st == Init then Inc32(c.seed) else c.seed
    // the level bookkeeping only moves in disable_verify_st, on a touch in wait_new_lvl_st,
    // and in wait_end_game_st
    ensures !c.st.MovesLevels() ==> SameLevels(c, r)
    ensures c.st == WaitNewLvl && !e.touched ==> SameLevels(c, r)
    ensures c.st == DisableVerify ==> r.currLvl == c.currLvl
  {
    Transition(Action(c), e)
  }

  /** Every tick keeps the counters within their limits and the game-over flag down. */
  lemma NextKeepsInv(c: Control, e: Env)
    requires Inv(c)
    ensures Inv(Next(c, e))
  {
    if c.st.InInterlock() {
      NextInterlockFrame(c, e);
    } else if c.st.StartsMessage() {
      NextMessageStart(c, e);
    } else if c.st == Init {
      InitKeepsInv(c, e);
    } else if c.st == DisableVerify {
      DisableVerifyKeepsInv(c, e);
    } else {
      WaitingKeepsInv(c, e);
    }
  }

  lemma InitKeepsInv(c: Control, e: Env)
    requires Inv(c) && c.st == Init
    ensures Inv(Next(c, e))
  {
  }

  lemma DisableVerifyKeepsInv(c: Control, e: Env)
    requires Inv(c) && c.st == DisableVerify
    ensures Inv(Next(c, e))
  {
  }

  lemma WaitingKeepsInv(c: Control, e: Env)
    requires Inv(c) && (c.st == WaitCompleteLvl || c.st == WaitNewLvl || c.st == WaitEndGame)
    ensures Inv(Next(c, e))
  {
  }

  /** Whether the tick generates a sequence and publishes it to the store. */
  predicate Publishes(c: Control, e: Env)
  {
    c.st == Init && (c.nextLvl || e.touched)
  }

  /** What the tick does to the controller's sequence buffer: leaving init_st, either for a
      new level or on a touch, regenerates its first currLvl entries from the seed as the
      action left it. */
  function SequenceAfter(c: Control, e: Env, rand: Rand, s: seq<UInt8>): (t: seq<UInt8>)
    requires |s| == MaxFlashSequence
    ensures |t| == MaxFlashSequence
    // entry i of a new sequence is the i-th draw after seeding with the counted seed, as a region
    ensures Publishes(c, e) ==>
              && (forall i :: 0 <= i < c.currLvl ==> t[i] == rand(Inc32(c.seed), i) % RegionCount < RegionCount)
              && (forall i :: c.currLvl <= i < MaxFlashSequence ==> t[i] == s[i])
    ensures !Publishes(c, e) ==> t == s
  {
    if Publishes(c, e) then Generated(s, Inc32(c.seed), c.currLvl, rand) else s
  }

  /** init_st: a new level starts without a touch; otherwise a touch starts the game (and the
      game waits in init_st); both publish a sequence of length currLvl. */
  lemma NextFromInit(c: Control, e: Env)
    requires c.st == Init
    ensures var r := Next(c, e);
            && r.st == (if c.nextLvl then Start else if e.touched then Release else Init)
            && r.currLvl == c.currLvl && r.seqLength == c.seqLength && r.highScore == c.highScore
            && r.nextLvl == c.nextLvl && r.initialized && (r.drawSimon || c.initialized)
    ensures Publishes(c, e) <==> Next(c, e).st != Init
  {
  }

  /** The interlock with the playback and verification machines: each enable and disable state
      lasts one tick, each wait state lasts until the machine reports completion. */
  lemma NextInterlock(c: Control, e: Env)
    ensures var r := Next(c, e);
            && (c.st == Release ==> r == c.(st := if e.touched then Release else Start))
            && (c.st == Start ==> r == c.(st := EnableFlash))
            && (c.st == EnableFlash ==> r == c.(st := WaitFlash))
            && (c.st == WaitFlash ==> r == c.(st := if e.flashComplete then DisableFlash else WaitFlash))
            && (c.st == DisableFlash ==> r == c.(st := EnableVerify))
            && (c.st == EnableVerify ==> r == c.(st := WaitVerify))
            && (c.st == WaitVerify ==> r == c.(st := if e.verifyComplete then DisableVerify else WaitVerify))
  {
  }

  /** The outcome of a verification: an error ends the game; a full-length success completes
      the level and records it as the high score; any other success plays one entry more. */
  lemma NextAfterVerify(c: Control, e: Env)
    requires c.st == DisableVerify
    ensures var r := Next(c, e);
            if e.timeOutError || e.userInputError then
              r == c.(fail := true, st := EndGame)
            else if c.seqLength == c.currLvl then
              r == c.(highScore := c.seqLength, st := CompleteLvl)
            else
              r == c.(highScore := if c.seqLength > c.highScore then c.seqLength else c.highScore,
                      seqLength := Inc8(c.seqLength), st := Start)
  {
  }

  /** The level-complete message moves on once its counter reaches 20. */
  lemma NextWaitCompleteLvl(c: Control, e: Env)
    requires c.st == WaitCompleteLvl && c.completeLvlCounter < HalfMsgTimeOut
    ensures var r := Next(c, e);
            if c.completeLvlCounter + 1 == HalfMsgTimeOut then r == c.(completeLvlCounter := 0, st := NewLvl)
            else r == c.(completeLvlCounter := c.completeLvlCounter + 1)
  {
  }

  /** The next-level prompt starts the next level on a touch (one level up, length 1, the
      counters cleared) and ends the game once its counter reaches 40. */
  lemma NextWaitNewLvl(c: Control, e: Env)
    requires c.st == WaitNewLvl && c.newLvlCounter < MsgTimeOut
    ensures var r := Next(c, e);
            if e.touched then
              r == c.(currLvl := Inc8(c.currLvl), seqLength := InitialLevel, initialized := false,
                      completeLvlCounter := 0, newLvlCounter := 0, endGameCounter := 0,
                      nextLvl := true, st := Init)
            else if c.newLvlCounter + 1 == MsgTimeOut then r == c.(newLvlCounter := MsgTimeOut, st := EndGame)
            else r == c.(newLvlCounter := c.newLvlCounter + 1)
  {
  }

  /** The game-over message resets the game once its counter reaches 40. */
  lemma NextWaitEndGame(c: Control, e: Env)
    requires c.st == WaitEndGame && c.endGameCounter < MsgTimeOut
    ensures var r := Next(c, e);
            if c.endGameCounter + 1 == MsgTimeOut then r == Reset(c)
            else r == c.(endGameCounter := c.endGameCounter + 1)
  {
  }

  /** The first tick of each message moves to its wait state and changes nothing else. */
  lemma NextMessageStart(c: Control, e: Env)
    requires c.st.StartsMessage()
    ensures var r := Next(c, e);
            && r == c.(st := r.st)
            && r.st == match c.st
                       case CompleteLvl => WaitCompleteLvl
                       case NewLvl => WaitNewLvl
                       case _ => WaitEndGame
  {
  }

  /** Within the interlock a tick changes the state only, and never leaves the interlock
      except for disable_verify_st. */
  lemma NextInterlockFrame(c: Control, e: Env)
    requires c.st.InInterlock()
    ensures var r := Next(c, e);
            r == c.(st := r.st) && (r.st.InInterlock() || r.st == DisableVerify)
  {
  }

  /** The level bookkeeping holds across every step except a level-up from level 255, where
      the 8-bit level wraps to 0. */
  lemma NextKeepsLevelInv(c: Control, e: Env)
    requires Inv(c) && LevelInv(c)
    requires !(c.st == WaitNewLvl && e.touched && c.currLvl == 0xFF)
    ensures LevelInv(Next(c, e))
  {
    if c.st.InInterlock() {
      NextInterlockFrame(c, e);
    } else if c.st.StartsMessage() {
      NextMessageStart(c, e);
    } else if c.st == Init {
      NextFromInit(c, e);
    } else if c.st == DisableVerify {
      NextAfterVerify(c, e);
    } else if c.st == WaitCompleteLvl {
      NextWaitCompleteLvl(c, e);
    } else if c.st == WaitNewLvl {
      NextWaitNewLvl(c, e);
    } else {
      NextWaitEndGame(c, e);
    }
  }

  /** n ticks under an unchanging environment. */
  function Run(c: Control, e: Env, n: nat): Control
    decreases n
  {
    if n == 0 then c else Run(Next(c, e), e, n - 1)
  }

  const InterlockStates: seq<State> :=
    [Start, EnableFlash, WaitFlash, DisableFlash, EnableVerify, WaitVerify, DisableVerify]

  /** The interlock from its j-th state on: with both machines reporting completion, each tick
      moves one state along and changes nothing else. */
  lemma {:induction false} InterlockFrom(c: Control, e: Env, i: nat, j: nat)
    requires i + j < |InterlockStates| && c.st == InterlockStates[i]
    requires e.flashComplete && e.verifyComplete
    ensures Run(c, e, j) == c.(st := InterlockStates[i + j])
    decreases j
  {
    if j > 0 {
      NextInterlockFrame(c, e);
      InterlockFrom(c.(st := InterlockStates[i + 1]), e, i + 1, j - 1);
    }
  }

  /** The interlock: from start_st, with both machines reporting completion, the controller
      enables playback, waits for it, disables it, enables verification, waits for it and
      disables it, one state per tick, and changes nothing else. */
  lemma InterlockOrder(c: Control, e: Env)
    requires c.st == Start && e.flashComplete && e.verifyComplete
    ensures forall j :: 0 <= j < |InterlockStates| ==> Run(c, e, j) == c.(st := InterlockStates[j])
  {
    forall j | 0 <= j < |InterlockStates|
      ensures Run(c, e, j) == c.(st := InterlockStates[j])
    {
      InterlockFrom(c, e, 0, j);
    }
  }

  /** The first j ticks of the "level complete" message only count. */
  lemma {:induction false} CompleteLevelCounting(c: Control, e: Env, j: nat)
    requires c.st == WaitCompleteLvl && c.completeLvlCounter + j < HalfMsgTimeOut
    ensures Run(c, e, j) == c.(completeLvlCounter := c.completeLvlCounter + j)
    decreases j
  {
    if j > 0 {
      NextWaitCompleteLvl(c, e);
      CompleteLevelCounting(c.(completeLvlCounter := c.completeLvlCounter + 1), e, j - 1);
    }
  }

  /** The "level complete" message lasts 20 ticks of wait_complete_lvl_st from the counter's
      current value, and then the next-level prompt is shown with the counter back at 0. */
  lemma {:induction false} CompleteLevelPause(c: Control, e: Env)
    requires c.st == WaitCompleteLvl && c.completeLvlCounter < HalfMsgTimeOut
    ensures Run(c, e, HalfMsgTimeOut - c.completeLvlCounter) == c.(completeLvlCounter := 0, st := NewLvl)
    ensures forall j :: 0 <= j < HalfMsgTimeOut - c.completeLvlCounter ==> Run(c, e, j).st == WaitCompleteLvl
    decreases HalfMsgTimeOut - c.completeLvlCounter
  {
    NextWaitCompleteLvl(c, e);
    if c.completeLvlCounter + 1 < HalfMsgTimeOut {
      CompleteLevelPause(c.(completeLvlCounter := c.completeLvlCounter + 1), e);
    }
    forall j | 0 <= j < HalfMsgTimeOut - c.completeLvlCounter
      ensures Run(c, e, j).st == WaitCompleteLvl
    {
      CompleteLevelCounting(c, e, j);
    }
  }

  /** The first j ticks of the next-level prompt, without a touch, only count. */
  lemma {:induction false} NewLevelCounting(c: Control, e: Env, j: nat)
    requires c.st == WaitNewLvl && !e.touched && c.newLvlCounter + j < MsgTimeOut
    ensures Run(c, e, j) == c.(newLvlCounter := c.newLvlCounter + j)
    decreases j
  {
    if j > 0 {
      NextWaitNewLvl(c, e);
      NewLevelCounting(c.(newLvlCounter := c.newLvlCounter + 1), e, j - 1);
    }
  }

  /** Without a touch, the next-level prompt times out after 40 ticks of wait_new_lvl_st (from
      the counter's current value) and the game ends. */
  lemma {:induction false} NewLevelTimeOut(c: Control, e: Env)
    requires c.st == WaitNewLvl && !e.touched && c.newLvlCounter < MsgTimeOut
    ensures Run(c, e, MsgTimeOut - c.newLvlCounter) == c.(newLvlCounter := MsgTimeOut, st := EndGame)
    ensures forall j :: 0 <= j < MsgTimeOut - c.newLvlCounter ==> Run(c, e, j).st == WaitNewLvl
    decreases MsgTimeOut - c.newLvlCounter
  {
    NextWaitNewLvl(c, e);
    if c.newLvlCounter + 1 < MsgTimeOut {
      NewLevelTimeOut(c.(newLvlCounter := c.newLvlCounter + 1), e);
    }
    forall j | 0 <= j < MsgTimeOut - c.newLvlCounter
      ensures Run(c, e, j).st == WaitNewLvl
    {
      NewLevelCounting(c, e, j);
    }
  }

  /** The first j ticks of the game-over message only count. */
  lemma {:induction false} EndGameCounting(c: Control, e: Env, j: nat)
    requires c.st == WaitEndGame && c.endGameCounter + j < MsgTimeOut
    ensures Run(c, e, j) == c.(endGameCounter := c.endGameCounter + j)
    decreases j
  {
    if j > 0 {
      NextWaitEndGame(c, e);
      EndGameCounting(c.(endGameCounter := c.endGameCounter + 1), e, j - 1);
    }
  }

  /** The game-over message lasts 40 ticks of wait_end_game_st (from the counter's current
      value); then the game is back at the first level with the high score cleared, and the
      seed is kept. */
  lemma {:induction false} EndGameReset(c: Control, e: Env)
    requires c.st == WaitEndGame && c.endGameCounter < MsgTimeOut
    ensures Run(c, e, MsgTimeOut - c.endGameCounter) == Reset(c)
    ensures forall j :: 0 <= j < MsgTimeOut - c.endGameCounter ==> Run(c, e, j).st == WaitEndGame
    decreases MsgTimeOut - c.endGameCounter
  {
    NextWaitEndGame(c, e);
    if c.endGameCounter + 1 < MsgTimeOut {
      EndGameReset(c.(endGameCounter := c.endGameCounter + 1), e);
    }
    forall j | 0 <= j < MsgTimeOut - c.endGameCounter
      ensures Run(c, e, j).st == WaitEndGame
    {
      EndGameCounting(c, e, j);
    }
  }

  /** After the reset the game is at the first level, length 1, high score 0, waiting for a
      touch, with the level bookkeeping restored. */
  lemma ResetIsFirstLevel(c: Control)
    requires Inv(c) && c.st == WaitEndGame
    ensures var r := Reset(c);
            && Inv(r) && LevelInv(r) && r.st == Init && !r.nextLvl
            && r.currLvl == FirstLevel && r.seqLength == InitialLevel && r.highScore == 0 && r.seed == c.seed
  {
  }

  /** An idle tick in init_st: the seed counts, the screen is marked set up, and nothing
      else changes. */
  lemma NextIdleInit(c: Control, e: Env)
    requires c.st == Init && !c.nextLvl && !e.touched
    ensures Next(c, e) == c.(initialized := true, drawSimon := c.drawSimon || !c.initialized,
                             seed := Inc32(c.seed))
  {
  }

  /** Counting one tick and then k more is counting k + 1. */
  lemma SeedShift(a: UInt32, k: nat)
    ensures (Inc32(a) + k) % 0x1_0000_0000 == (a + k + 1) % 0x1_0000_0000
  {
    var m := 0x1_0000_0000;
    if a == m - 1 {
      var q, r := k / m, k % m;
      assert a + k + 1 == (q + 1) * m + r;
    }
  }

  /** The game after n > 0 idle ticks in init_st: the start screen drawn, the seed counted. */
  function IdleAfter(c: Control, n: nat): Control
  {
    c.(initialized := true, drawSimon := c.drawSimon || !c.initialized, seed := (c.seed + n) % 0x1_0000_0000)
  }

  /** While the game waits for its first touch, the seed counts the ticks modulo 2^32 and
      nothing else moves. */
  lemma {:induction false} SeedCountsIdleTicks(c: Control, e: Env, n: nat)
    requires c.st == Init && !c.nextLvl && !e.touched
    ensures n > 0 ==> Run(c, e, n) == IdleAfter(c, n)
    ensures Run(c, e, n).seed == (c.seed + n) % 0x1_0000_0000
    decreases n
  {
    if n > 0 {
      NextIdleInit(c, e);
      var d := Next(c, e);
      SeedCountsIdleTicks(d, e, n - 1);
      SeedShift(c.seed, n - 1);
      IncIsConversion(0, c.seed);
    }
  }

  /** A level played through: each pass through disable_verify_st without an error grows the
      length by one, from 1 up to the level; at the level it is recorded as the high score. */
  lemma LevelClimbs(c: Control, e: Env)
    requires LevelInv(c) && c.st == DisableVerify
    requires !e.timeOutError && !e.userInputError
    ensures var r := Next(c, e);
            && LevelInv(r)
            && if c.seqLength < c.currLvl then r.st == Start && r.seqLength == c.seqLength + 1
               else r.st == CompleteLvl && r.highScore == c.currLvl
  {
    NextAfterVerify(c, e);
  }

  /** The length published as the iteration length makes the playback machine cover exactly
      `seqLength` entries: positions 0 .. seqLength - 1, taking 8 ticks each after the first. */
  lemma PlaybackCoversSeqLength(seqLength: UInt8)
    requires 1 <= seqLength
    ensures var L := StoredIterationLength(seqLength);
            && FlashSequence.Run(FlashSequence.Armed, L, 1 + 8 * seqLength)
               == FlashSequence.Flash(FlashSequence.Finished, true, false, 0, seqLength - 1)
            && (forall k :: 0 <= k < seqLength ==>
                  FlashSequence.Run(FlashSequence.Armed, L, 1 + 8 * k)
                  == FlashSequence.Flash(FlashSequence.Draw, true, false, 0, k))
  {
    var L := StoredIterationLength(seqLength);
    FlashSequence.PlaybackCompletes(L);
    forall k | 0 <= k < seqLength
      ensures FlashSequence.Run(FlashSequence.Armed, L, 1 + 8 * k)
              == FlashSequence.Flash(FlashSequence.Draw, true, false, 0, k)
    {
      FlashSequence.PlaybackAt(L, k, 0);
    }
  }

  /** ... and the verification machine checks exactly `seqLength` entries: a player who
      answers them all correctly (five ticks per entry) ends with no error at the last one. */
  lemma VerificationCoversSeqLength(seqLength: UInt8, values: seq<UInt8>)
    requires 1 <= seqLength && |values| == MaxFlashSequence
    requires forall i :: 0 <= i < |values| ==> values[i] < RegionCount
    ensures var L := StoredIterationLength(seqLength);
            var answers := VerifySequence.Rounds(values, 0, L);
            var r := VerifySequence.Run(VerifySequence.Start.(enabled := true), L, values, [VerifySequence.Idle] + answers);
            && |answers| == 5 * seqLength
            && r.st == VerifySequence.Finished && !r.toErr && !r.uiErr && r.position == seqLength - 1
  {
    var L := StoredIterationLength(seqLength);
    VerifySequence.CorrectPlayerCompletes(L, values);
    VerifySequence.RoundsLength(values, 0, L);
  }

  /** The interlock's effect on another machine's enable flag. */
  datatype Switch = Keep | TurnOn | TurnOff

  function Apply(s: Switch, enabled: bool): bool
  {
    match s
    case Keep => enabled
    case TurnOn => true
    case TurnOff => false
  }

  /** What the tick does to the playback machine's enable. */
  function FlashSwitch(s: State): (w: Switch)
    ensures w == TurnOn <==> s == EnableFlash
    ensures w == TurnOff <==> s == DisableFlash
  {
    if s == EnableFlash then TurnOn else if s == DisableFlash then TurnOff else Keep
  }

  /** What the tick does to the verification machine's enable. */
  function VerifySwitch(s: State): (w: Switch)
    ensures w == TurnOn <==> s == EnableVerify
    ensures w == TurnOff <==> s == DisableVerify
  {
    if s == EnableVerify then TurnOn else if s == DisableVerify then TurnOff else Keep
  }

  /** What the tick does to the button flags: the buttons are drawn when playback is enabled
      and erased around the level and game-over messages. */
  function PanelEffect(s: State, p: Panel): (q: Panel)
    requires p.Valid()
    ensures q.Valid()
    ensures s == EnableFlash ==> forall i :: 0 <= i < RegionCount ==> q.buttonDrawn[i]
    ensures s == CompleteLvl || s == WaitCompleteLvl || s == EndGame ==>
              forall i :: 0 <= i < RegionCount ==> !q.buttonDrawn[i]
    ensures !(s.EnableFlash? || s.CompleteLvl? || s.WaitCompleteLvl? || s.EndGame?) ==> q == p
    ensures q.squareDrawn == p.squareDrawn
  {
    match s
    case EnableFlash => AllButtonsFlags(p, false)
    case CompleteLvl => AllButtonsFlags(p, true)
    case WaitCompleteLvl => AllButtonsFlags(p, true)
    case EndGame => AllButtonsFlags(p, true)
    case _ => p
  }

  /** The store's entries after the tick: a published sequence replaces the first currLvl
      entries with region numbers and leaves the rest. */
  function StoreEntries(c: Control, e: Env, rand: Rand, own: seq<UInt8>, s: seq<UInt8>): (t: seq<UInt8>)
    requires |own| == MaxFlashSequence && |s| == MaxFlashSequence
    ensures |t| == MaxFlashSequence
    ensures Publishes(c, e) ==>
              && (forall i :: 0 <= i < c.currLvl ==> t[i] == rand(Inc32(c.seed), i) % RegionCount < RegionCount)
              && (forall i :: c.currLvl <= i < MaxFlashSequence ==> t[i] == s[i])
    ensures !Publishes(c, e) ==> t == s
  {
    if Publishes(c, e) then SequenceAfter(c, e, rand, own)[..c.currLvl] + s[c.currLvl..] else s
  }

  /** The store after a publishing tick holds the first currLvl entries of the regenerated
      buffer and its own entries after them. */
  lemma PublishedEntries(c: Control, e: Env, rand: Rand, own: seq<UInt8>, s: seq<UInt8>)
    requires Publishes(c, e) && |own| == MaxFlashSequence && |s| == MaxFlashSequence
    ensures StoreEntries(c, e, rand, own, s)
            == Generated(own, Inc32(c.seed), c.currLvl, rand)[..c.currLvl] + s[c.currLvl..]
  {
  }

  class Controller {
    var simonSt: State
    var currLvl: UInt8
    var seqLength: UInt8
    var highScore: UInt8
    const sequence: array<UInt8>
    var completeLvlCounter: UInt8
    var newLvlCounter: UInt8
    var endGameCounter: UInt8
    var fail: bool
    var initialized: bool
    var drawSimon: bool
    var nextLvl: bool
    var gameOver: bool
    var scEnable: bool
    var seed: UInt32

    function Model(): Control
      reads this
    {
      Control(simonSt, currLvl, seqLength, highScore, completeLvlCounter, newLvlCounter,
              endGameCounter, fail, initialized, drawSimon, nextLvl, gameOver, scEnable, seed)
    }

    ghost predicate Valid()
      reads this
    {
      Inv(Model()) && sequence.Length == MaxFlashSequence
    }

    constructor ()
      ensures Valid() && Model() == Initial && LevelInv(Model()) && fresh(sequence)
      ensures forall i :: 0 <= i < MaxFlashSequence ==> sequence[i] == 0
    {
      simonSt := Init;
      currLvl, seqLength, highScore := FirstLevel, InitialLevel, 0;
      sequence := new UInt8[MaxFlashSequence](_ => 0);
      completeLvlCounter, newLvlCounter, endGameCounter := 0, 0, 0;
      fail, initialized, drawSimon, nextLvl, gameOver, scEnable := false, false, false, false, false, false;
      seed := 0;
    }

    method Enable()
      modifies this`scEnable
      ensures Model() == old(Model()).(enabled := true)
    {
      scEnable := true;
    }

    method Disable()
      modifies this`scEnable
      ensures Model() == old(Model()).(enabled := false)
    {
      scEnable := false;
    }

    /** Nothing ever raises the game-over flag. */
    method IsGameOver() returns (isGameOver: bool)
      requires Valid()
      ensures !isGameOver
    {
      return gameOver;
    }

    /** Publishes an iteration length directly; it takes effect when the machines next read it. */
    method SetSequenceLength(store: SequenceStore, length: UInt16)
      modifies store`level
      ensures store.GetSequenceIterationLength() == StoredIterationLength(length)
    {
      store.SetSequenceIterationLength(length);
    }

    /** Fills the first currLvl entries of the buffer from the generator seeded with `seed`. */
    method GenerateSequence(rand: Rand)
      requires sequence.Length == MaxFlashSequence
      modifies sequence
      ensures sequence[..] == Generated(old(sequence[..]), seed, currLvl, rand)
    {
      var i := 0;
      while i < currLvl
        invariant 0 <= i <= currLvl
        invariant forall k :: 0 <= k < i ==> sequence[k] == rand(seed, k) % RegionCount
        invariant forall k :: i <= k < MaxFlashSequence ==> sequence[k] == old(sequence[k])
      {
        sequence[i] := rand(seed, i) % RegionCount;
        i := i + 1;
      }
    }

    /** One tick: the state's action, then its transition. `touched` is the panel reading of
        this tick and `rand` the generator. */
    method Tick(fs: FlashSequence.Machine, vs: VerifySequence.Machine, store: SequenceStore, disp: Display,
                touched: bool, rand: Rand)
      requires Valid() && fs.Valid() && vs.Valid() && store.Valid() && disp.Valid()
      requires store.sequence != sequence
      modifies this, sequence, fs`fsEnable, vs`vsEnable, store, store.sequence, disp.buttonDrawn
      ensures Valid() && store.Valid()
      ensures var e := Env(touched, old(fs.fsComplete), old(vs.vsComplete), old(vs.toErr), old(vs.uiErr));
              && Model() == Next(old(Model()), e)
              && sequence[..] == SequenceAfter(old(Model()), e, rand, old(sequence[..]))
              && store.sequence[..] == StoreEntries(old(Model()), e, rand, old(sequence[..]), old(store.sequence[..]))
              && store.length == (if Publishes(old(Model()), e) then old(currLvl) as UInt16 else old(store.length))
      ensures store.level == if old(simonSt) == Start then StoredIterationLength(old(seqLength)) else old(store.level)
      ensures fs.fsEnable == Apply(FlashSwitch(old(simonSt)), old(fs.fsEnable))
      ensures vs.vsEnable == Apply(VerifySwitch(old(simonSt)), old(vs.vsEnable))
      ensures disp.View() == PanelEffect(old(simonSt), old(disp.View()))
    {
      // the flags the transition switch reads are not touched by the action switch
      var flashComplete := fs.IsComplete();
      var verifyComplete := vs.IsComplete();
      var timeOutError := vs.IsTimeOutError();
      var userInputError := vs.IsUserInputError();
      DoPeerAction(fs, vs, store, disp);
      Advance(store, Env(touched, flashComplete, verifyComplete, timeOutError, userInputError), rand);
    }

    /** The controller's own part of the tick: its action, then its transition under `e`. */
    method Advance(store: SequenceStore, e: Env, rand: Rand)
      requires Valid() && store.Valid() && store.sequence != sequence
      modifies this, sequence, store`length, store.sequence
      ensures Valid() && store.Valid() && store.level == old(store.level)
      ensures Model() == Next(old(Model()), e)
      ensures sequence[..] == SequenceAfter(old(Model()), e, rand, old(sequence[..]))
      ensures store.sequence[..] == StoreEntries(old(Model()), e, rand, old(sequence[..]), old(store.sequence[..]))
      ensures store.length == if Publishes(old(Model()), e) then old(currLvl) as UInt16 else old(store.length)
    {
      NextKeepsInv(Model(), e);
      DoAction();
      DoTransition(store, e, rand);
      if Publishes(old(Model()), e) {
        PublishedEntries(old(Model()), e, rand, old(sequence[..]), old(store.sequence[..]));
      }
    }

    /** The action switch, for the controller's own variables. */
    method DoAction()
      requires Valid()
      modifies this
      ensures Model() == Action(old(Model()))
    {
      match simonSt {
        case Init =>
          if !initialized {
            if !drawSimon {
              drawSimon := true;
            }
            initialized := true;
          }
          seed := Inc32(seed);
        case WaitCompleteLvl =>
          completeLvlCounter := completeLvlCounter + 1;
        case WaitNewLvl =>
          newLvlCounter := newLvlCounter + 1;
        case WaitEndGame =>
          endGameCounter := endGameCounter + 1;
        case _ =>
      }
    }

    /** The action switch, for its calls into the other machines, the store and the display. */
    method DoPeerAction(fs: FlashSequence.Machine, vs: VerifySequence.Machine, store: SequenceStore, disp: Display)
      requires disp.Valid()
      modifies fs`fsEnable, vs`vsEnable, store`level, disp.buttonDrawn
      ensures store.level == if simonSt == Start then StoredIterationLength(seqLength) else old(store.level)
      ensures fs.fsEnable == Apply(FlashSwitch(simonSt), old(fs.fsEnable))
      ensures vs.vsEnable == Apply(VerifySwitch(simonSt), old(vs.vsEnable))
      ensures disp.View() == PanelEffect(simonSt, old(disp.View()))
    {
      match simonSt {
        case Start =>
          store.SetSequenceIterationLength(seqLength);
        case EnableFlash =>
          disp.DrawAllButtons();
          fs.Enable();
        case DisableFlash =>
          fs.Disable();
        case EnableVerify =>
          vs.Enable();
        case DisableVerify =>
          vs.Disable();
        case CompleteLvl =>
          disp.EraseAllButtons();
        case WaitCompleteLvl =>
          disp.EraseAllButtons();
        case EndGame =>
          disp.EraseAllButtons();
        case _ =>
      }
    }

    method DoTransition(store: SequenceStore, e: Env, rand: Rand)
      requires sequence.Length == MaxFlashSequence
      requires store.Valid() && store.sequence != sequence
      modifies this, sequence, store`length, store.sequence
      ensures Model() == Transition(old(Model()), e)
      ensures sequence[..] == if Publishes(old(Model()), e) then Generated(old(sequence[..]), seed, currLvl, rand)
                              else old(sequence[..])
      ensures store.Valid() && store.level == old(store.level)
      ensures Publishes(old(Model()), e) ==>
                store.sequence[..] == sequence[..currLvl] + old(store.sequence[..][currLvl..])
                && store.length == currLvl as UInt16
      ensures !Publishes(old(Model()), e) ==>
                store.sequence[..] == old(store.sequence[..]) && store.length == old(store.length)
    {
      match simonSt {
        case Init => TransitionFromInit(store, e, rand);
        case DisableVerify => TransitionFromDisableVerify(e);
        case WaitCompleteLvl => TransitionFromWaitCompleteLvl();
        case WaitNewLvl => TransitionFromWaitNewLvl(e);
        case WaitEndGame => TransitionFromWaitEndGame();
        case _ => TransitionOnward(e);
      }
    }

    /** The transitions that only move the state on. */
    method TransitionOnward(e: Env)
      requires !(simonSt.Init? || simonSt.DisableVerify? || simonSt.WaitCompleteLvl? || simonSt.WaitNewLvl? || simonSt.WaitEndGame?)
      modifies this`simonSt
      ensures Model() == InterlockTransition(old(Model()), e)
    {
      match simonSt {
        case Release =>
          if !e.touched {
            simonSt := Start;
          }
        case Start =>
          simonSt := EnableFlash;
        case EnableFlash =>
          simonSt := WaitFlash;
        case WaitFlash =>
          if e.flashComplete {
            simonSt := DisableFlash;
          }
        case DisableFlash =>
          simonSt := EnableVerify;
        case EnableVerify =>
          simonSt := WaitVerify;
        case WaitVerify =>
          if e.verifyComplete {
            simonSt := DisableVerify;
          }
        case CompleteLvl =>
          simonSt := WaitCompleteLvl;
        case NewLvl =>
          simonSt := WaitNewLvl;
        case EndGame =>
          simonSt := WaitEndGame;
      }
    }

    method TransitionFromInit(store: SequenceStore, e: Env, rand: Rand)
      requires simonSt == Init && sequence.Length == MaxFlashSequence
      requires store.Valid() && store.sequence != sequence
      modifies this`simonSt, sequence, store`length, store.sequence
      ensures Model() == InitTransition(old(Model()), e)
      ensures sequence[..] == if Publishes(old(Model()), e) then Generated(old(sequence[..]), seed, currLvl, rand)
                              else old(sequence[..])
      ensures store.Valid() && store.level == old(store.level)
      ensures Publishes(old(Model()), e) ==>
                store.sequence[..] == sequence[..currLvl] + old(store.sequence[..][currLvl..])
                && store.length == currLvl as UInt16
      ensures !Publishes(old(Model()), e) ==>
                store.sequence[..] == old(store.sequence[..]) && store.length == old(store.length)
    {
      if nextLvl || e.touched {
        GenerateSequence(rand);
        store.SetSequence(sequence, currLvl);
        assert store.sequence[..] == sequence[..currLvl] + old(store.sequence[..][currLvl..]);
        simonSt := if nextLvl then Start else Release;
      }
    }

    method TransitionFromDisableVerify(e: Env)
      requires simonSt == DisableVerify
      modifies this`fail, this`highScore, this`seqLength, this`simonSt
      ensures Model() == DisableVerifyTransition(old(Model()), e)
    {
      if e.timeOutError || e.userInputError {
        fail := true;
        simonSt := EndGame;
      } else if seqLength == currLvl {
        highScore := seqLength;
        simonSt := CompleteLvl;
      } else {
        if seqLength > highScore {
          highScore := seqLength;
        }
        seqLength := Inc8(seqLength);
        simonSt := Start;
      }
    }

    method TransitionFromWaitCompleteLvl()
      requires simonSt == WaitCompleteLvl
      modifies this`completeLvlCounter, this`simonSt
      ensures Model() == WaitCompleteLvlTransition(old(Model()))
    {
      if completeLvlCounter >= HalfMsgTimeOut {
        completeLvlCounter := 0;
        simonSt := NewLvl;
      }
    }

    method TransitionFromWaitNewLvl(e: Env)
      requires simonSt == WaitNewLvl
      modifies this
      ensures Model() == WaitNewLvlTransition(old(Model()), e)
    {
      if e.touched {
        currLvl := Inc8(currLvl);
        seqLength := InitialLevel;
        initialized := false;
        completeLvlCounter := 0;
        newLvlCounter := 0;
        endGameCounter := 0;
        nextLvl := true;
        simonSt := Init;
      } else if newLvlCounter == MsgTimeOut {
        simonSt := EndGame;
      }
    }

    method TransitionFromWaitEndGame()
      requires simonSt == WaitEndGame
      modifies this
      ensures Model() == WaitEndGameTransition(old(Model()))
    {
      if endGameCounter == MsgTimeOut {
        currLvl := FirstLevel;
        highScore := 0;
        seqLength := InitialLevel;
        completeLvlCounter := 0;
        newLvlCounter := 0;
        endGameCounter := 0;
        nextLvl := false;
        initialized := false;
        drawSimon := false;
        simonSt := Init;
      }
    }
  }
}
