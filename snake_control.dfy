/** The snake game's flow: a title screen waits for a touch, the touch picks the difficulty by
    the band of its y coordinate, instructions are shown for 70 ticks, the player is asked to
    press each of the four buttons, then the snake is placed and moves five pixels per tick in
    the direction of the last button until its head leaves the playing field; the game-over
    screen lasts 40 ticks and the game starts over. A tick runs the action switch and then the
    transition switch. */
module SnakeControl {
  import opened Integers
  import opened Board

  const InstructTimeout: int := 70
  const GameOverTimeout: int := 40
  const UpperBound: int := 0
  const LowerBound: int := DisplayHeight
  const LeftBound: int := 40
  const RightBound: int := DisplayWidth - 40
  const InitLength: int := 2
  const Speed: int := 5

  const EasyBtnY: int := 80
  const MedBtnY: int := 130
  const HardBtnY: int := 180
  const BtnWiggleRoom: int := 5

  /** `btn_pressed` after a game-over reset. */
  const NoButton: int := 5

  datatype State = Init | SetMode | Instruct | DisplayButton | EndButton | Start | Move | Finish

  /** The difficulty; its value as a C enum is the number of grid cells across the field. */
  datatype Mode = Err | Easy | Medium | Hard
  {
    function Value(): int
    {
      match this
      case Err => 0
      case Easy => 24
      case Medium => 16
      case Hard => 12
    }
  }

  datatype Direction = Right | Up | Down | Left

  /** The four "button seen" flags. */
  type Flags = s: seq<bool> | |s| == 4 witness [false, false, false, false]

  const NoFlags: Flags := [false, false, false, false]

  predicate AllSeen(f: Flags)
  {
    f[0] && f[1] && f[2] && f[3]
  }

  /** The grid width and the head, tail and fruit coordinates (all `uint16_t`). */
  datatype Geometry = Geometry(gridWidth: UInt16, headX: UInt16, headY: UInt16, tailX: UInt16, tailY: UInt16,
                               fruitX: UInt16, fruitY: UInt16)

  /** The game's globals, as a value. */
  datatype Snake = Snake(
    st: State,
    difficulty: Mode,
    direction: Direction,
    initialized: bool,
    textWritten: bool,
    btnInit: Flags,
    instructTimer: UInt8,
    finishTimer: UInt8,
    btnPressed: UInt8,
    snakeLength: UInt8,
    geo: Geometry)

  const Initial: Snake :=
    Snake(Init, Err, Right, false, false, NoFlags, 0, 0, 0, InitLength, Geometry(0, 0, 0, 0, 0, 0, 0))

  /** What the game reads on one tick: whether the screen is touched, the y coordinate of
      the touched point, the button reported by `get_button`, and the grid width the display
      computes for the difficulty. */
  datatype Input = Input(isTouched: bool, y: Int16, button: UInt8, gridWidth: UInt16)

  /** `setMode`: the band of y picks the difficulty; a y on a band's edge or above the easy
      band leaves it as it was. */
  function ModeAt(difficulty: Mode, y: int): (m: Mode)
    ensures EasyBtnY - BtnWiggleRoom < y < MedBtnY - BtnWiggleRoom ==> m == Easy
    ensures MedBtnY - BtnWiggleRoom < y < HardBtnY - BtnWiggleRoom ==> m == Medium
    ensures y > HardBtnY - BtnWiggleRoom ==> m == Hard
    ensures y <= EasyBtnY - BtnWiggleRoom || y == MedBtnY - BtnWiggleRoom || y == HardBtnY - BtnWiggleRoom ==>
              m == difficulty
  {
    if y > EasyBtnY - BtnWiggleRoom && y < MedBtnY - BtnWiggleRoom then Easy
    else if y > MedBtnY - BtnWiggleRoom && y < HardBtnY - BtnWiggleRoom then Medium
    else if y > HardBtnY - BtnWiggleRoom then Hard
    else difficulty
  }

  /** The direction after button b: buttons 0..3 are right, up, down and left; any other
      value keeps the direction. */
  function DirectionAfter(b: UInt8, d: Direction): (r: Direction)
    ensures b >= 4 ==> r == d
    ensures b < 4 ==> r == [Right, Up, Down, Left][b]
  {
    if b == 0 then Right
    else if b == 1 then Up
    else if b == 2 then Down
    else if b == 3 then Left
    else d
  }

  /** The head moved five pixels in direction d, with `uint16_t` wrap-around; the tail stays. */
  function Moved(g: Geometry, d: Direction): (h: Geometry)
    ensures h.tailX == g.tailX && h.tailY == g.tailY && h.gridWidth == g.gridWidth
    ensures h.fruitX == g.fruitX && h.fruitY == g.fruitY
    ensures d == Right ==> h.headY == g.headY && h.headX == (g.headX + Speed) % 0x1_0000
    ensures d == Left ==> h.headY == g.headY && h.headX == (g.headX - Speed) % 0x1_0000
    ensures d == Up ==> h.headX == g.headX && h.headY == (g.headY - Speed) % 0x1_0000
    ensures d == Down ==> h.headX == g.headX && h.headY == (g.headY + Speed) % 0x1_0000
  {
    match d
    case Right => g.(headX := ToUInt16(g.headX + Speed))
    case Up => g.(headY := ToUInt16(g.headY - Speed))
    case Down => g.(headY := ToUInt16(g.headY + Speed))
    case Left => g.(headX := ToUInt16(g.headX - Speed))
  }

  /** The bounds test of move_st. The test `head_y < 0` on an unsigned value never holds. */
  predicate OutOfBounds(g: Geometry)
  {
    g.headX > RightBound || g.headX < LeftBound || g.headY > LowerBound || g.headY < UpperBound
  }

  /** start_st: the snake is placed on the middle row, its head `snake_length + 1` cells right
      of the left bound and its tail `snake_length` cells behind it, and the fruit on the same
      row two cells from the right of the grid. Values are computed in `int` and stored into
      `uint16_t`. */
  function Placed(difficulty: Mode, snakeLength: UInt8, gridWidth: UInt16): Geometry
  {
    var headY := ToUInt16(difficulty.Value() / 2 * gridWidth);
    var headX := ToUInt16(LeftBound + gridWidth * (snakeLength + 1));
    Geometry(gridWidth, headX, headY, ToUInt16(headX - gridWidth * snakeLength), headY,
             ToUInt16((difficulty.Value() - 2) * gridWidth), headY)
  }

  /** The action switch of the tick. */
  function Action(s: Snake, i: Input): Snake
  {
    match s.st
    case Init => s.(initialized := true)
    case SetMode => s.(difficulty := ModeAt(s.difficulty, i.y))
    case Instruct => s.(instructTimer := Inc8(s.instructTimer), textWritten := true)
    case DisplayButton =>
      s.(btnPressed := i.button, btnInit := if i.button < 4 then s.btnInit[i.button := true] else s.btnInit)
    case EndButton => s
    case Start => s.(geo := Placed(s.difficulty, s.snakeLength, i.gridWidth))
    case Move =>
      var d := DirectionAfter(i.button, s.direction);
      s.(btnPressed := i.button, direction := d, geo := Moved(s.geo, d))
    case Finish => s.(textWritten := true, finishTimer := Inc8(s.finishTimer))
  }

  /** The game after the game-over screen: the timers, the length, the direction and the
      flags back to their start values, `btn_pressed` at 5; the difficulty and the geometry
      are kept. */
  function Reset(s: Snake): Snake
  {
    s.(finishTimer := 0, instructTimer := 0, snakeLength := InitLength, direction := Right,
       initialized := false, btnInit := NoFlags, textWritten := false, btnPressed := NoButton, st := Init)
  }

  /** The transition switch of the tick. */
  function Transition(s: Snake, i: Input): Snake
  {
    match s.st
    case Init => if i.isTouched then s.(st := SetMode) else s
    case SetMode => if s.difficulty == Err then s.(st := Init) else s.(initialized := false, st := Instruct)
    case Instruct => if s.instructTimer == InstructTimeout then s.(textWritten := false, st := DisplayButton) else s
    case DisplayButton => s.(st := EndButton)
    case EndButton => if AllSeen(s.btnInit) then s.(textWritten := false, st := Start) else s.(st := DisplayButton)
    case Start => s.(st := Move)
    case Move => if OutOfBounds(s.geo) then s.(st := Finish) else s
    case Finish => if s.finishTimer == GameOverTimeout then Reset(s) else s
  }

  /** The edges of the game's state diagram. */
  predicate CanFollow(a: State, b: State)
  {
    match a
    case Init => b == Init || b == SetMode
    case SetMode => b == Init || b == Instruct
    case Instruct => b == Instruct || b == DisplayButton
    case DisplayButton => b == EndButton
    case EndButton => b == DisplayButton || b == Start
    case Start => b == Move
    case Move => b == Move || b == Finish
    case Finish => b == Finish || b == Init
  }

  /** One tick of the game; it follows an edge of the state diagram. */
  function Next(s: Snake, i: Input): (r: Snake)
    ensures CanFollow(s.st, r.st)
  {
    Transition(Action(s, i), i)
  }

  /** The difficulty is only chosen in set_mode_st, and a game-over reset keeps it. */
  lemma DifficultyOnlyChosen(s: Snake, i: Input)
    ensures var r := Next(s, i);
            r.difficulty != s.difficulty ==> s.st == SetMode && r.difficulty == ModeAt(s.difficulty, i.y)
  {
  }

  /** A button's flag is only raised in display_button_st, when that button is reported, and
      only cleared by the game-over reset. */
  lemma FlagsOnlyOnButton(s: Snake, i: Input, b: int)
    requires 0 <= b < 4
    ensures var r := Next(s, i);
            r.btnInit[b] != s.btnInit[b] ==>
              (s.st == DisplayButton && b == i.button && r.btnInit[b]) || (s.st == Finish && !r.btnInit[b])
  {
    if s.st == DisplayButton {
      assert Next(s, i).btnInit == if i.button < 4 then s.btnInit[i.button := true] else s.btnInit;
    } else if s.st == Finish {
    } else {
      assert Next(s, i).btnInit == s.btnInit;
    }
  }

  /** The snake's geometry only changes when it is placed and when it moves. */
  lemma GeometryOnlyInGame(s: Snake, i: Input)
    ensures Next(s, i).geo != s.geo ==> s.st == Move || s.st == Start
  {
  }

  /** What holds between ticks: the instruction timer is 0 before the instructions, below 70
      while they are shown and at 70 afterwards; the game-over timer runs only in finish_st;
      no button has been seen before the button screen and all have once the game starts; the
      difficulty is chosen from the instructions on; the length stays 2. */
  predicate Inv(s: Snake)
  {
    && (s.st == Init || s.st == SetMode ==> s.instructTimer == 0 && s.btnInit == NoFlags)
    && (s.st == Instruct ==> s.instructTimer < InstructTimeout && s.btnInit == NoFlags)
    && (s.st == DisplayButton || s.st == EndButton ==> s.instructTimer == InstructTimeout)
    && (s.st == Start || s.st == Move || s.st == Finish ==> s.instructTimer == InstructTimeout && AllSeen(s.btnInit))
    && (s.st == Finish ==> s.finishTimer < GameOverTimeout)
    && (s.st != Finish ==> s.finishTimer == 0)
    && (s.st != Init && s.st != SetMode ==> s.difficulty != Err)
    && s.snakeLength == InitLength
  }

  /** Every tick keeps the invariant. */
  lemma NextKeepsInv(s: Snake, i: Input)
    requires Inv(s)
    ensures Inv(Next(s, i))
  {
    if s.st == Init || s.st == SetMode {
      KeepsInvBeforeGame(s, i);
    } else if s.st == Instruct || s.st == DisplayButton || s.st == EndButton {
      KeepsInvSetup(s, i);
    } else {
      KeepsInvInGame(s, i);
    }
  }

  lemma KeepsInvBeforeGame(s: Snake, i: Input)
    requires Inv(s) && (s.st == Init || s.st == SetMode)
    ensures Inv(Next(s, i))
  {
  }

  lemma KeepsInvSetup(s: Snake, i: Input)
    requires Inv(s) && (s.st == Instruct || s.st == DisplayButton || s.st == EndButton)
    ensures Inv(Next(s, i))
  {
  }

  lemma KeepsInvInGame(s: Snake, i: Input)
    requires Inv(s) && (s.st == Start || s.st == Move || s.st == Finish)
    ensures Inv(Next(s, i))
  {
  }

  /** set_mode_st: a touch outside the three bands leaves the game at the title screen;
      otherwise the instructions follow. */
  lemma ModeChosen(s: Snake, i: Input)
    requires s.st == SetMode
    ensures var r := Next(s, i);
            r.difficulty == ModeAt(s.difficulty, i.y)
            && r.st == (if r.difficulty == Err then Init else Instruct)
  {
  }

  /** n ticks with the same input. */
  function Run(s: Snake, i: Input, n: nat): Snake
    decreases n
  {
    if n == 0 then s else Run(Next(s, i), i, n - 1)
  }

  /** The first j ticks of the instructions only count. */
  lemma {:induction false} InstructCounting(s: Snake, i: Input, j: nat)
    requires s.st == Instruct && s.instructTimer + j < InstructTimeout
    ensures Run(s, i, j) == if j == 0 then s else s.(instructTimer := s.instructTimer + j, textWritten := true)
    decreases j
  {
    if j > 0 {
      var d := s.(instructTimer := s.instructTimer + 1, textWritten := true);
      assert Next(s, i) == d;
      InstructCounting(d, i, j - 1);
    }
  }

  /** The instructions are shown for exactly 70 ticks counted from a timer at 0: the tick
      that brings the timer to 70 moves on to the button screen. */
  lemma InstructTimeOut(s: Snake, i: Input)
    requires s.st == Instruct && s.instructTimer == 0
    ensures forall j :: 0 <= j < InstructTimeout ==> Run(s, i, j).st == Instruct
    ensures Run(s, i, InstructTimeout) == s.(instructTimer := InstructTimeout, textWritten := false, st := DisplayButton)
  {
    forall j | 0 <= j < InstructTimeout
      ensures Run(s, i, j).st == Instruct
    {
      InstructCounting(s, i, j);
    }
    InstructCounting(s, i, InstructTimeout - 1);
    var p := s.(instructTimer := InstructTimeout - 1, textWritten := true);
    assert Next(p, i) == s.(instructTimer := InstructTimeout, textWritten := false, st := DisplayButton);
    RunLast(s, i, InstructTimeout - 1);
  }

  /** Running n ticks and then one more is running n + 1. */
  lemma {:induction false} RunLast(s: Snake, i: Input, n: nat)
    ensures Run(s, i, n + 1) == Next(Run(s, i, n), i)
    decreases n
  {
    if n > 0 {
      RunLast(Next(s, i), i, n - 1);
    }
  }

  /** The button screen: display_button_st and end_button_st alternate, and the game starts
      exactly when all four buttons have been seen. */
  lemma ButtonGate(s: Snake, i: Input)
    ensures s.st == DisplayButton ==> Next(s, i).st == EndButton
    ensures s.st == EndButton ==> (Next(s, i).st == Start <==> AllSeen(s.btnInit))
    ensures s.st == EndButton ==> (Next(s, i).st == DisplayButton <==> !AllSeen(s.btnInit))
  {
  }

  /** start_st places the snake and moves on. */
  lemma Placement(s: Snake, i: Input)
    requires s.st == Start
    ensures Next(s, i) == s.(geo := Placed(s.difficulty, s.snakeLength, i.gridWidth), st := Move)
  {
  }

  /** With a grid width of at most 20, for which no coordinate wraps, the snake lies on the
      middle row with its head three cells right of the left bound and its tail two cells
      behind it, and the fruit is on the same row two cells from the grid's right end. */
  lemma PlacedWithoutWrap(d: Mode, w: UInt16)
    requires d != Err && w <= 20
    ensures var g := Placed(d, InitLength, w);
            && g.gridWidth == w
            && g.headY == d.Value() / 2 * w && g.tailY == g.headY && g.fruitY == g.headY
            && g.headX == LeftBound + w * (InitLength + 1)
            && g.tailX + w * InitLength == g.headX
            && g.fruitX == (d.Value() - 2) * w
  {
    var half := d.Value() / 2;
    assert 0 <= half * w <= 12 * 20 by {
      assert half <= 12;
    }
    assert 0 <= (d.Value() - 2) * w <= 22 * 20 by {
      assert d.Value() - 2 <= 22;
    }
    assert ToUInt16(half * w) == half * w;
    assert ToUInt16(LeftBound + w * (InitLength + 1)) == LeftBound + w * (InitLength + 1);
    assert ToUInt16(LeftBound + w * (InitLength + 1) - w * InitLength) == LeftBound + w;
    assert ToUInt16((d.Value() - 2) * w) == (d.Value() - 2) * w;
  }

  /** move_st: the button picks the direction, the head moves five pixels, the tail stays,
      and the game ends as soon as the moved head is out of the field. */
  lemma MoveStep(s: Snake, i: Input)
    requires s.st == Move
    ensures var r := Next(s, i);
            && r.direction == DirectionAfter(i.button, s.direction)
            && r.geo == Moved(s.geo, r.direction)
            && r.st == (if OutOfBounds(r.geo) then Finish else Move)
  {
  }

  /** Moving up from the top rows wraps `head_y` around to a large value, which the bound
      test catches as past the bottom of the field, although `head_y < 0` never holds. */
  lemma UpWrapEndsGame(s: Snake, i: Input)
    requires s.st == Move && s.geo.headY < Speed && DirectionAfter(i.button, s.direction) == Up
    ensures Next(s, i).geo.headY > LowerBound
    ensures Next(s, i).st == Finish
  {
  }

  /** The first j ticks of the game-over screen only count. */
  lemma {:induction false} FinishCounting(s: Snake, i: Input, j: nat)
    requires s.st == Finish && s.finishTimer + j < GameOverTimeout
    ensures Run(s, i, j) == if j == 0 then s else s.(finishTimer := s.finishTimer + j, textWritten := true)
    decreases j
  {
    if j > 0 {
      var d := s.(finishTimer := s.finishTimer + 1, textWritten := true);
      assert Next(s, i) == d;
      FinishCounting(d, i, j - 1);
    }
  }

  /** The game-over screen lasts until its timer reaches 40; then the game is reset to the
      title screen with the difficulty kept. */
  lemma GameOverReset(s: Snake, i: Input)
    requires s.st == Finish && s.finishTimer < GameOverTimeout
    ensures var n := GameOverTimeout - s.finishTimer;
            && (forall j :: 0 <= j < n ==> Run(s, i, j).st == Finish)
            && Run(s, i, n) == Reset(s)
            && Run(s, i, n).difficulty == s.difficulty
  {
    var n := GameOverTimeout - s.finishTimer;
    forall j | 0 <= j < n
      ensures Run(s, i, j).st == Finish
    {
      FinishCounting(s, i, j);
    }
    FinishCounting(s, i, n - 1);
    var p := s.(finishTimer := GameOverTimeout - 1, textWritten := n > 1 || s.textWritten);
    assert Run(s, i, n - 1) == p;
    assert Next(p, i) == Reset(s);
    RunLast(s, i, n - 1);
  }

  class Game {
    var cs: State
    var difficulty: Mode
    var direction: Direction
    var initialized: bool
    var textWritten: bool
    const btnInit: array<bool>
    var instructTimer: UInt8
    var finishTimer: UInt8
    var btnPressed: UInt8
    var snakeLength: UInt8
    var gridWidth: UInt16
    var snakeHeadX: UInt16
    var snakeHeadY: UInt16
    var snakeTailX: UInt16
    var snakeTailY: UInt16
    var fruitX: UInt16
    var fruitY: UInt16

    function Geo(): Geometry
      reads this
    {
      Geometry(gridWidth, snakeHeadX, snakeHeadY, snakeTailX, snakeTailY, fruitX, fruitY)
    }

    function Model(): Snake
      reads this, btnInit
      requires btnInit.Length == 4
    {
      Snake(cs, difficulty, direction, initialized, textWritten, btnInit[..], instructTimer, finishTimer,
            btnPressed, snakeLength, Geo())
    }

    ghost predicate Valid()
      reads this, btnInit
    {
      btnInit.Length == 4 && Inv(Model())
    }

    constructor ()
      ensures Valid() && Model() == Initial && fresh(btnInit)
    {
      cs, difficulty, direction := Init, Err, Right;
      initialized, textWritten := false, false;
      btnInit := new bool[4](_ => false);
      instructTimer, finishTimer, btnPressed, snakeLength := 0, 0, 0, InitLength;
      gridWidth, snakeHeadX, snakeHeadY, snakeTailX, snakeTailY, fruitX, fruitY := 0, 0, 0, 0, 0, 0, 0;
      new;
      assert btnInit[..] == NoFlags;
    }

    /** One tick, on this tick's input. */
    method Tick(i: Input)
      requires Valid()
      modifies this, btnInit
      ensures Valid()
      ensures Model() == Next(old(Model()), i)
    {
      NextKeepsInv(Model(), i);
      DoAction(i);
      DoTransition(i);
    }

    method DoAction(i: Input)
      requires btnInit.Length == 4
      modifies this, btnInit
      ensures Model() == Action(old(Model()), i)
    {
      if cs == DisplayButton {
        ShowButton(i.button);
      } else {
        DoScreenAction(i);
      }
    }

    /** The actions of every state but display_button_st; none touches the button flags. */
    method DoScreenAction(i: Input)
      requires btnInit.Length == 4 && cs != DisplayButton
      modifies this
      ensures Model() == Action(old(Model()), i)
    {
      match cs {
        case Init =>
          if !initialized {
            initialized := true;
          }
        case SetMode =>
          SetModeFromTouch(i.y);
        case Instruct =>
          ShowInstructions();
        case EndButton =>
        case Start =>
          PlaceSnake(i.gridWidth);
        case Move =>
          MoveHead(i.button);
        case Finish =>
          ShowGameOver();
      }
    }

    /** instruct_st: the instructions are written once and the timer counts the tick. */
    method ShowInstructions()
      modifies this`instructTimer, this`textWritten
      ensures instructTimer == Inc8(old(instructTimer)) && textWritten
    {
      instructTimer := Inc8(instructTimer);
      if !textWritten {
        textWritten := true;
      }
    }

    /** finish_st: the game-over text is written once and the timer counts the tick. */
    method ShowGameOver()
      modifies this`finishTimer, this`textWritten
      ensures finishTimer == Inc8(old(finishTimer)) && textWritten
    {
      if !textWritten {
        textWritten := true;
      }
      finishTimer := Inc8(finishTimer);
    }

    /** `setMode` on the y coordinate of the touched point. */
    method SetModeFromTouch(y: Int16)
      modifies this`difficulty
      ensures difficulty == ModeAt(old(difficulty), y)
    {
      if y > EasyBtnY - BtnWiggleRoom && y < MedBtnY - BtnWiggleRoom {
        difficulty := Easy;
      } else if y > MedBtnY - BtnWiggleRoom && y < HardBtnY - BtnWiggleRoom {
        difficulty := Medium;
      } else if y > HardBtnY - BtnWiggleRoom {
        difficulty := Hard;
      }
    }

    method ShowButton(button: UInt8)
      requires btnInit.Length == 4
      modifies this`btnPressed, btnInit
      ensures btnPressed == button
      ensures btnInit[..] == if button < 4 then old(btnInit[..])[button := true] else old(btnInit[..])
    {
      btnPressed := button;
      if btnPressed < 4 {
        btnInit[btnPressed] := true;
      }
    }

    method PlaceSnake(width: UInt16)
      modifies this`gridWidth, this`snakeHeadX, this`snakeHeadY, this`snakeTailX, this`snakeTailY,
               this`fruitX, this`fruitY
      ensures Geo() == Placed(difficulty, snakeLength, width)
    {
      gridWidth := width;
      snakeHeadY := ToUInt16(difficulty.Value() / 2 * gridWidth);
      snakeTailY := snakeHeadY;
      snakeHeadX := ToUInt16(LeftBound + gridWidth * (snakeLength + 1));
      snakeTailX := ToUInt16(snakeHeadX - gridWidth * snakeLength);
      fruitY := snakeTailY;
      fruitX := ToUInt16((difficulty.Value() - 2) * gridWidth);
    }

    method MoveHead(button: UInt8)
      modifies this`btnPressed, this`direction, this`snakeHeadX, this`snakeHeadY
      ensures btnPressed == button && direction == DirectionAfter(button, old(direction))
      ensures Geo() == Moved(old(Geo()), direction)
    {
      btnPressed := button;
      if btnPressed == 0 {
        direction := Right;
      } else if btnPressed == 1 {
        direction := Up;
      } else if btnPressed == 2 {
        direction := Down;
      } else if btnPressed == 3 {
        direction := Left;
      }
      match direction {
        case Right => snakeHeadX := ToUInt16(snakeHeadX + Speed);
        case Up => snakeHeadY := ToUInt16(snakeHeadY - Speed);
        case Down => snakeHeadY := ToUInt16(snakeHeadY + Speed);
        case Left => snakeHeadX := ToUInt16(snakeHeadX - Speed);
      }
    }

    method DoTransition(i: Input)
      requires btnInit.Length == 4
      modifies this, btnInit
      ensures Model() == Transition(old(Model()), i)
    {
      match cs {
        case Init =>
          if i.isTouched {
            cs := SetMode;
          }
        case SetMode =>
          if difficulty == Err {
            cs := Init;
          } else {
            initialized := false;
            cs := Instruct;
          }
        case Instruct =>
          if instructTimer == InstructTimeout {
            textWritten := false;
            cs := DisplayButton;
          }
        case DisplayButton =>
          cs := EndButton;
        case EndButton =>
          if btnInit[0] && btnInit[1] && btnInit[2] && btnInit[3] {
            textWritten := false;
            cs := Start;
          } else {
            cs := DisplayButton;
          }
        case Start =>
          cs := Move;
        case Move =>
          if snakeHeadX > RightBound || snakeHeadX < LeftBound || snakeHeadY > LowerBound || snakeHeadY < UpperBound {
            cs := Finish;
          }
        case Finish =>
          if finishTimer == GameOverTimeout {
            ResetGame();
          }
      }
    }

    /** The reset at the end of the game-over screen. */
    method ResetGame()
      requires btnInit.Length == 4
      modifies this, btnInit
      ensures Model() == Reset(old(Model()))
    {
      ClearButtons();
      finishTimer := 0;
      instructTimer := 0;
      snakeLength := InitLength;
      direction := Right;
      initialized := false;
      textWritten := false;
      btnPressed := NoButton;
      cs := Init;
    }

    /** The loop that clears every "button seen" flag. */
    method ClearButtons()
      requires btnInit.Length == 4
      modifies btnInit
      ensures btnInit[..] == NoFlags
    {
      for i := 0 to 4
        invariant forall k :: 0 <= k < i ==> !btnInit[k]
      {
        btnInit[i] := false;
      }
      assert btnInit[..] == NoFlags;
    }
  }
}
