/** The clock's time and its display bookkeeping: the 12-hour wrap-around increment,
    decrement and one-second advance of the `hours`, `minutes` and `seconds` globals, the six
    touch boxes (the triangles above and below each field) that dispatch to them, and the
    `old_*` copies that make the display redraw only the fields that changed. The text itself
    is not modelled: the screen is three cells, each blank or showing the value last printed
    there. */
module ClockDisplay {
  import opened Integers
  import opened Board

  const MaxHours: int := 12
  const MaxMinsAndSeconds: int := 59
  const MinTime: int := 0
  const MinHours: int := 1

  /** Seconds in the 12-hour cycle. */
  const HalfDay: int := 12 * 3600

  const TextSize: int := 6
  const CenterWidth: int := DisplayWidth / 2
  const CenterHeight: int := DisplayHeight / 2
  const TouchOffset: int := 3 * TextSize

  // the triangles' corners
  const UpperTriangleBase: int := CenterHeight - 8 * TextSize
  const UpperTriangleTip: int := CenterHeight - 16 * TextSize
  const LowerTriangleBase: int := CenterHeight + 8 * TextSize
  const LowerTriangleTip: int := CenterHeight + 16 * TextSize
  const HourTriangleCenter: int := CenterWidth - 18 * TextSize
  const MinuteTriangleCenter: int := CenterWidth
  const SecondTriangleCenter: int := CenterWidth + 18 * TextSize

  // the touch boxes: each triangle widened by the touch offset on every side (open bounds)
  const HourLeftBound: int := HourTriangleCenter - 5 * TextSize - TouchOffset
  const HourRightBound: int := HourTriangleCenter + 5 * TextSize + TouchOffset
  const MinuteLeftBound: int := MinuteTriangleCenter - 5 * TextSize - TouchOffset
  const MinuteRightBound: int := MinuteTriangleCenter + 5 * TextSize + TouchOffset
  const SecondLeftBound: int := SecondTriangleCenter - 5 * TextSize - TouchOffset
  const SecondRightBound: int := SecondTriangleCenter + 5 * TextSize + TouchOffset
  const IncBotBound: int := UpperTriangleBase + TouchOffset
  const IncTopBound: int := UpperTriangleTip - TouchOffset
  const DecTopBound: int := LowerTriangleBase - TouchOffset
  const DecBotBound: int := LowerTriangleTip + TouchOffset

  /** The time shown after a forced update. */
  const InitHour: int := 12
  const InitMinute: int := 59
  const InitSecond: int := 59

  datatype Time = Time(hours: UInt8, minutes: UInt8, seconds: UInt8)

  /** The time the globals start with, 1:00:00. */
  const StartTime: Time := Time(1, 0, 0)
  const ForcedTime: Time := Time(InitHour, InitMinute, InitSecond)

  /** A time a 12-hour clock can show. */
  predicate ValidTime(t: Time)
  {
    MinHours <= t.hours <= MaxHours && t.minutes <= MaxMinsAndSeconds && t.seconds <= MaxMinsAndSeconds
  }

  /** `incHours`: 12 wraps to 1. */
  function IncHour(h: UInt8): (r: UInt8)
    ensures MinHours <= h <= MaxHours ==> MinHours <= r <= MaxHours && r == h % 12 + 1
  {
    var g := Inc8(h);
    if g > MaxHours then MinHours else g
  }

  /** `decHours`: 1 wraps to 12. */
  function DecHour(h: UInt8): (r: UInt8)
    ensures MinHours <= h <= MaxHours ==> MinHours <= r <= MaxHours && r == (h + 10) % 12 + 1
  {
    if h == MinHours then MaxHours else Dec8(h)
  }

  /** `incMins` and `incSec`: 59 wraps to 0. */
  function IncSixty(v: UInt8): (r: UInt8)
    ensures v <= MaxMinsAndSeconds ==> r == (v + 1) % 60
  {
    var g := Inc8(v);
    if g > MaxMinsAndSeconds then MinTime else g
  }

  /** `decMins` and `decSec`: 0 wraps to 59. */
  function DecSixty(v: UInt8): (r: UInt8)
    ensures v <= MaxMinsAndSeconds ==> r == (v + 59) % 60
  {
    if v == MinTime then MaxMinsAndSeconds else Dec8(v)
  }

  /** An increment followed by the matching decrement, or the reverse, restores the field. */
  lemma IncDecInverse(t: Time)
    requires ValidTime(t)
    ensures DecHour(IncHour(t.hours)) == t.hours && IncHour(DecHour(t.hours)) == t.hours
    ensures DecSixty(IncSixty(t.minutes)) == t.minutes && IncSixty(DecSixty(t.minutes)) == t.minutes
    ensures DecSixty(IncSixty(t.seconds)) == t.seconds && IncSixty(DecSixty(t.seconds)) == t.seconds
  {
  }

  /** `clockDisplay_advanceTimeOneSecond`: seconds, then the carry into minutes, then the
      carry into hours. */
  function Advance(t: Time): Time
  {
    var s := Inc8(t.seconds);
    var (m, s) := if s > MaxMinsAndSeconds then (Inc8(t.minutes), MinTime) else (t.minutes, s);
    var (h, m) := if m > MaxMinsAndSeconds then (Inc8(t.hours), MinTime) else (t.hours, m);
    Time(if h > MaxHours then MinHours else h, m, s)
  }

  /** The position of a time in the 12-hour cycle, 12 o'clock counting as 0. */
  function SecondsOf(t: Time): int
  {
    (t.hours % 12) * 3600 + t.minutes * 60 + t.seconds
  }

  /** The time at a position of the 12-hour cycle. */
  function TimeAt(n: int): (t: Time)
    requires 0 <= n < HalfDay
    ensures ValidTime(t)
  {
    var h := n / 3600;
    Time(if h == 0 then 12 else h, (n % 3600) / 60, n % 60)
  }

  /** Valid times and the positions of the cycle are in one-to-one correspondence. */
  lemma SecondsRoundTrip(t: Time, n: int)
    requires ValidTime(t) && 0 <= n < HalfDay
    ensures 0 <= SecondsOf(t) < HalfDay
    ensures TimeAt(SecondsOf(t)) == t
    ensures SecondsOf(TimeAt(n)) == n
  {
    var k := SecondsOf(t);
    var q := t.minutes * 60 + t.seconds;
    assert k / 3600 == t.hours % 12 && k % 3600 == q;
    assert q / 60 == t.minutes && q % 60 == t.seconds;
    var r := n % 3600;
    assert n == (n / 3600) * 3600 + (r / 60) * 60 + r % 60;
  }

  /** Advancing adds one second modulo 12 hours: 12:59:59 becomes 1:00:00 and 11:59:59
      becomes 12:00:00. */
  lemma AdvanceAddsOneSecond(t: Time)
    requires ValidTime(t)
    ensures ValidTime(Advance(t))
    ensures SecondsOf(Advance(t)) == (SecondsOf(t) + 1) % HalfDay
  {
    var a := Advance(t);
    if t.seconds < 59 {
      assert a == t.(seconds := t.seconds + 1);
    } else if t.minutes < 59 {
      assert a == t.(minutes := t.minutes + 1, seconds := 0);
    } else if t.hours < 12 {
      assert a == Time(t.hours + 1, 0, 0);
      if t.hours == 11 {
        assert SecondsOf(t) + 1 == HalfDay;
      }
    } else {
      assert a == Time(1, 0, 0);
    }
  }

  /** The six boxes, in the order the dispatch tests them, and the area outside them. */
  datatype Box = HourUp | HourDown | MinuteUp | MinuteDown | SecondUp | SecondDown | Outside

  predicate InIncRow(y: int) { IncTopBound < y < IncBotBound }
  predicate InDecRow(y: int) { DecTopBound < y < DecBotBound }
  predicate InHourColumn(x: int) { HourLeftBound < x < HourRightBound }
  predicate InMinuteColumn(x: int) { MinuteLeftBound < x < MinuteRightBound }
  predicate InSecondColumn(x: int) { SecondLeftBound < x < SecondRightBound }

  /** The box of the touched point. The boxes do not overlap, so the order of the tests does
      not matter: a point is in a box exactly when it is inside that box's bounds. */
  function BoxAt(x: int, y: int): (b: Box)
    ensures b == HourUp <==> InIncRow(y) && InHourColumn(x)
    ensures b == HourDown <==> InDecRow(y) && InHourColumn(x)
    ensures b == MinuteUp <==> InIncRow(y) && InMinuteColumn(x)
    ensures b == MinuteDown <==> InDecRow(y) && InMinuteColumn(x)
    ensures b == SecondUp <==> InIncRow(y) && InSecondColumn(x)
    ensures b == SecondDown <==> InDecRow(y) && InSecondColumn(x)
    ensures b == Outside <==>
              !((InIncRow(y) || InDecRow(y)) && (InHourColumn(x) || InMinuteColumn(x) || InSecondColumn(x)))
  {
    if y < IncBotBound && y > IncTopBound && x > HourLeftBound && x < HourRightBound then HourUp
    else if y < DecBotBound && y > DecTopBound && x > HourLeftBound && x < HourRightBound then HourDown
    else if y < IncBotBound && y > IncTopBound && x > MinuteLeftBound && x < MinuteRightBound then MinuteUp
    else if y < DecBotBound && y > DecTopBound && x > MinuteLeftBound && x < MinuteRightBound then MinuteDown
    else if y < IncBotBound && y > IncTopBound && x > SecondLeftBound && x < SecondRightBound then SecondUp
    else if y < DecBotBound && y > DecTopBound && x > SecondLeftBound && x < SecondRightBound then SecondDown
    else Outside
  }

  /** What a touch in box `b` does to the time. */
  function ApplyBox(b: Box, t: Time): Time
  {
    match b
    case HourUp => t.(hours := IncHour(t.hours))
    case HourDown => t.(hours := DecHour(t.hours))
    case MinuteUp => t.(minutes := IncSixty(t.minutes))
    case MinuteDown => t.(minutes := DecSixty(t.minutes))
    case SecondUp => t.(seconds := IncSixty(t.seconds))
    case SecondDown => t.(seconds := DecSixty(t.seconds))
    case Outside => t
  }

  /** The effect of `clockDisplay_performIncDec` on the time: at most one field changes, by
      one step up or down in its cycle, the time stays valid, and a touch outside the boxes
      changes nothing. */
  lemma IncDecChangesOneField(t: Time, x: int, y: int)
    requires ValidTime(t)
    ensures var r := ApplyBox(BoxAt(x, y), t);
            && ValidTime(r)
            && (BoxAt(x, y) == Outside ==> r == t)
            && (r.hours != t.hours ==>
                  r.minutes == t.minutes && r.seconds == t.seconds
                  && (r.hours == t.hours % 12 + 1 || r.hours == (t.hours + 10) % 12 + 1))
            && (r.minutes != t.minutes ==>
                  r.hours == t.hours && r.seconds == t.seconds
                  && (r.minutes == (t.minutes + 1) % 60 || r.minutes == (t.minutes + 59) % 60))
            && (r.seconds != t.seconds ==>
                  r.hours == t.hours && r.minutes == t.minutes
                  && (r.seconds == (t.seconds + 1) % 60 || r.seconds == (t.seconds + 59) % 60))
  {
  }

  /** A text cell of the screen: blank, or showing the value last printed there. */
  datatype Cell = Blank | Shows(value: UInt8)

  datatype Screen = Screen(hours: Cell, minutes: Cell, seconds: Cell)

  function ShowsTime(t: Time): Screen
  {
    Screen(Shows(t.hours), Shows(t.minutes), Shows(t.seconds))
  }

  /** The display bookkeeping: the time, the `old_*` copies and the screen. */
  datatype Face = Face(time: Time, last: Time, screen: Screen)

  const StartFace: Face := Face(StartTime, StartTime, Screen(Blank, Blank, Blank))

  /** The changed-fields part of `clockDisplay_updateTimeDisplay`: each field that differs
      from its `old_*` copy is recorded and printed. */
  function RedrawChanged(f: Face): (g: Face)
    ensures g.time == f.time && g.last == f.time
    ensures f.time.hours == f.last.hours ==> g.screen.hours == f.screen.hours
    ensures f.time.minutes == f.last.minutes ==> g.screen.minutes == f.screen.minutes
    ensures f.time.seconds == f.last.seconds ==> g.screen.seconds == f.screen.seconds
    ensures f.time.hours != f.last.hours ==> g.screen.hours == Shows(f.time.hours)
    ensures f.time.minutes != f.last.minutes ==> g.screen.minutes == Shows(f.time.minutes)
    ensures f.time.seconds != f.last.seconds ==> g.screen.seconds == Shows(f.time.seconds)
  {
    var t := f.time;
    var (lh, sh) := if t.hours != f.last.hours then (t.hours, Shows(t.hours)) else (f.last.hours, f.screen.hours);
    var (lm, sm) := if t.minutes != f.last.minutes then (t.minutes, Shows(t.minutes)) else (f.last.minutes, f.screen.minutes);
    var (ls, ss) := if t.seconds != f.last.seconds then (t.seconds, Shows(t.seconds)) else (f.last.seconds, f.screen.seconds);
    Face(t, Time(lh, lm, ls), Screen(sh, sm, ss))
  }

  /** `clockDisplay_updateTimeDisplay(force)` as written: a forced update sets the time to
      12:59:59 and prints it, but leaves the `old_*` copies at the values before. */
  function UpdateAsWritten(f: Face, force: bool): (g: Face)
    ensures force ==> g.time == ForcedTime && g.screen == ShowsTime(ForcedTime) && g.last == f.time
    ensures !force ==> g == RedrawChanged(f)
  {
    var g := RedrawChanged(f);
    if force then g.(time := ForcedTime, screen := ShowsTime(ForcedTime)) else g
  }

  /** Right after the start-up forced update, the clock advances from 12:59:59 to 1:00:00;
      the next update compares 1:00:00 against the stale `old_*` copies (1:00:00) and redraws
      nothing, so the screen goes on showing 12:59:59. */
  lemma StaleScreenAsWritten()
    ensures var f1 := UpdateAsWritten(StartFace, true);
            var f2 := UpdateAsWritten(f1.(time := Advance(f1.time)), false);
            f2.time == Time(1, 0, 0) && f2.screen == ShowsTime(ForcedTime)
  {
  }

  /** What the screen is meant to show: the forced update also records 12:59:59 in the
      `old_*` copies. */
  function Update(f: Face, force: bool): (g: Face)
    ensures force ==> g.time == ForcedTime && g.last == ForcedTime && g.screen == ShowsTime(ForcedTime)
    ensures !force ==> g == RedrawChanged(f)
  {
    var g := RedrawChanged(f);
    if force then Face(ForcedTime, ForcedTime, ShowsTime(ForcedTime)) else g
  }

  /** The screen shows the `old_*` copies. */
  predicate Coherent(f: Face)
  {
    f.screen == ShowsTime(f.last)
  }

  /** With the corrected update, a forced update makes the screen coherent, every update
      keeps it so, and after any update the screen shows the current time; an unforced update
      leaves the time as it was. */
  lemma UpdateShowsTime(f: Face, force: bool)
    requires Coherent(f) || force
    ensures var g := Update(f, force);
            Coherent(g) && g.screen == ShowsTime(g.time) && g.last == g.time
            && (!force ==> g.time == f.time)
  {
  }

  /** The clock's globals. `screen` stands for what the display shows at the three cursor
      positions. */
  class Clock {
    var hours: UInt8
    var minutes: UInt8
    var seconds: UInt8
    var oldHours: UInt8
    var oldMinutes: UInt8
    var oldSeconds: UInt8
    var screen: Screen

    function Now(): Time
      reads this
    {
      Time(hours, minutes, seconds)
    }

    function Model(): Face
      reads this
    {
      Face(Now(), Time(oldHours, oldMinutes, oldSeconds), screen)
    }

    constructor ()
      ensures Model() == StartFace
    {
      hours, minutes, seconds := 1, 0, 0;
      oldHours, oldMinutes, oldSeconds := 1, 0, 0;
      screen := Screen(Blank, Blank, Blank);
    }

    /** `clockDisplay_init`: after drawing the static face (not modelled) it forces an update,
        so the clock shows 12:59:59 while the copies keep the time before. */
    method Init()
      modifies this
      ensures Model() == UpdateAsWritten(old(Model()), true)
      ensures Now() == ForcedTime && screen == ShowsTime(ForcedTime)
    {
      UpdateTimeDisplay(true);
    }

    method IncHours()
      modifies this`hours
      ensures hours == IncHour(old(hours))
    {
      hours := Inc8(hours);
      if hours > MaxHours {
        hours := MinHours;
      }
    }

    method DecHours()
      modifies this`hours
      ensures hours == DecHour(old(hours))
    {
      if hours == MinHours {
        hours := MaxHours;
      } else {
        hours := Dec8(hours);
      }
    }

    method IncMins()
      modifies this`minutes
      ensures minutes == IncSixty(old(minutes))
    {
      minutes := Inc8(minutes);
      if minutes > MaxMinsAndSeconds {
        minutes := MinTime;
      }
    }

    method DecMins()
      modifies this`minutes
      ensures minutes == DecSixty(old(minutes))
    {
      if minutes == MinTime {
        minutes := MaxMinsAndSeconds;
      } else {
        minutes := Dec8(minutes);
      }
    }

    method IncSec()
      modifies this`seconds
      ensures seconds == IncSixty(old(seconds))
    {
      seconds := Inc8(seconds);
      if seconds > MaxMinsAndSeconds {
        seconds := MinTime;
      }
    }

    method DecSec()
      modifies this`seconds
      ensures seconds == DecSixty(old(seconds))
    {
      if seconds == MinTime {
        seconds := MaxMinsAndSeconds;
      } else {
        seconds := Dec8(seconds);
      }
    }

    /** Redraws the fields that changed since the last update; a forced update then sets the
        time to 12:59:59 and prints all three fields, leaving the copies as they were. */
    method UpdateTimeDisplay(force: bool)
      modifies this
      ensures Model() == UpdateAsWritten(old(Model()), force)
    {
      if hours != oldHours {
        oldHours := hours;
        screen := screen.(hours := Shows(hours));
      }
      if minutes != oldMinutes {
        oldMinutes := minutes;
        screen := screen.(minutes := Shows(minutes));
      }
      if seconds != oldSeconds {
        oldSeconds := seconds;
        screen := screen.(seconds := Shows(seconds));
      }
      if force {
        hours, minutes, seconds := InitHour, InitMinute, InitSecond;
        screen := ShowsTime(Now());
      }
    }

    /** The touch at (x, y) increments or decrements the field of its box, then the display
        is brought up to date. */
    method PerformIncDec(x: Int16, y: Int16)
      modifies this
      ensures Model() == Update(old(Model()).(time := ApplyBox(BoxAt(x, y), old(Now()))), false)
    {
      if y < IncBotBound && y > IncTopBound && x > HourLeftBound && x < HourRightBound {
        IncHours();
      } else if y < DecBotBound && y > DecTopBound && x > HourLeftBound && x < HourRightBound {
        DecHours();
      } else if y < IncBotBound && y > IncTopBound && x > MinuteLeftBound && x < MinuteRightBound {
        IncMins();
      } else if y < DecBotBound && y > DecTopBound && x > MinuteLeftBound && x < MinuteRightBound {
        DecMins();
      } else if y < IncBotBound && y > IncTopBound && x > SecondLeftBound && x < SecondRightBound {
        IncSec();
      } else if y < DecBotBound && y > DecTopBound && x > SecondLeftBound && x < SecondRightBound {
        DecSec();
      }
      UpdateTimeDisplay(false);
    }

    method AdvanceTimeOneSecond()
      modifies this`hours, this`minutes, this`seconds
      ensures Now() == Advance(old(Now()))
    {
      seconds := Inc8(seconds);
      if seconds > MaxMinsAndSeconds {
        minutes := Inc8(minutes);
        seconds := MinTime;
      }
      if minutes > MaxMinsAndSeconds {
        hours := Inc8(hours);
        minutes := MinTime;
      }
      if hours > MaxHours {
        hours := MinHours;
      }
    }
  }
}
