# ECEn 330 tick-driven state machines, in Dafny

This project models the game and clock logic of three small embedded programs for a
320 x 240 touch-screen board. Each program is a set of state machines. A machine is a group
of C file-scope variables (state, counters, flags) that a `*_tick()` function updates once per
timer period.

- **Simon** (lab6) is a memory game.
  - A 1000-entry sequence store (`globals.c`).
  - The quadrant and the drawn-flag bookkeeping of the display (`simonDisplay.c`).
  - A touch handler that debounces, captures a region and reports a release (`buttonHandler.c`).
  - A playback machine that flashes the sequence (`flashSequence.c`).
  - A verification machine with a timeout counter and sticky error flags (`verifySequence.c`).
  - A controller that drives the other machines through an enable / wait / disable interlock and
    keeps the level, the length being played and the high score (`simonControl.c`).
- **Clock** (lab4) is a 12-hour clock set by touch.
  - The time arithmetic, the six touch boxes and the redraw-on-change bookkeeping
    (`clockDisplay.c`).
  - The touch and auto-repeat controller that also counts ticks into seconds (`clockControl.c`).
- **Snake** is the game-flow machine (`snakeControl.c`).
  - It picks the difficulty from the band of a touch and shows the instructions for 70 ticks.
  - It learns the four buttons, then places the snake and moves its head.
  - It ends the game at the field's bounds and shows the game-over screen for 40 ticks.

Each machine is written the same way:

- a `class` whose fields are the C file's globals;
- a `Model()` function that reads those fields into a datatype value;
- pure `Action`, `Transition` and `Next` functions as the reference definition of one tick;
- a `Tick` method that runs the action switch and the transition switch on the fields, in the
  source's order, and ensures `Model() == Next(old(Model()), …)`.

What the source promises is proved about `Next`:

- per-state lemmas;
- invariants that every tick keeps;
- multi-tick lemmas over `Run`, which is n ticks under a fixed environment. They cover message
  timeouts, the interlock order, a full correct play and the clock's auto-repeat.

Fixed-width C integers are subset types of `int` (`UInt8`, `UInt16`, `UInt32`, `Int8`,
`Int16`). Wrap-around is written out where it can happen: `global_level`, `bhCounter`,
`currLvl`, `seqLength`, `seed`, `pos`, `position`, the snake's coordinates and timers, and
`countToSecond`.

Verification stops at the first mismatch (`lab6/verifySequence.c:119-120`), and the model
follows the code.

## Model

| member | source | states |
|---|---|---|
| SimonGlobals.StoredIterationLength | lab6/globals.c:43-46 | the stored iteration length is one less than the argument for 1..256, 0 stores 255, and in general it is one less than the argument modulo 256 |
| SimonGlobals.SequenceStore.constructor | lab6/globals.c:17-19 | the store starts with all 1000 entries 0, length 0 and iteration length 1 |
| SimonGlobals.SequenceStore.SetSequence | lab6/globals.c:24-30 | for n ≤ 1000 the first n entries are the argument's, every later entry is unchanged, the length is n and the iteration length is unchanged |
| SimonGlobals.SequenceStore.GetSequenceValue | lab6/globals.c:33-35 | returns the stored entry at an index inside the buffer; `SetSequence` states through it that the first n entries read back as written |
| SimonGlobals.SequenceStore.GetSequenceLength | lab6/globals.c:38-40 | returns the length last published, which never exceeds the 1000-entry buffer |
| SimonGlobals.SequenceStore.GetSequenceIterationLength | lab6/globals.c:51-53 | returns the iteration length, which is kept in 8 bits and so is below 256 |
| SimonGlobals.SequenceStore.SetSequenceIterationLength | lab6/globals.c:43-53 | the getter then returns the argument minus one, truncated to 8 bits; only the iteration length changes |
| SimonDisplay.ComputeRegionNumber | lab6/simonDisplay.c:51-70 | the region is in 0..3 and is (y ≥ H/2 ? 2 : 0) + (x ≥ W/2 ? 1 : 0) |
| SimonDisplay.PointIn | lab6/simonDisplay.c:51-70 | every region number 0..3 is the region of some point |
| SimonDisplay.DrawButtonFlags | lab6/simonDisplay.c:75-156 | drawing sets `buttonDrawn[r]`, erasing clears it, a call that matches the flag changes nothing, no other entry and no square flag changes, and r ≥ 4 changes nothing |
| SimonDisplay.DrawSquareFlags | lab6/simonDisplay.c:177-266 | drawing an undrawn square sets its flag and clears the button's; erasing a drawn square clears both; every other call changes nothing |
| SimonDisplay.AllButtonsFlags | lab6/simonDisplay.c:159-172 | after drawing all buttons every button flag is set, after erasing all every flag is clear, and square flags are untouched |
| SimonDisplay.DrawButtonIdempotent | lab6/simonDisplay.c:75-156 | drawing or erasing the same button twice is the same as once |
| SimonDisplay.DrawSquareIdempotent | lab6/simonDisplay.c:177-266 | drawing or erasing the same square twice is the same as once |
| SimonDisplay.FlashLeavesButton | lab6/simonDisplay.c:75-266 | a square drawn, erased and the button redrawn leaves the button shown and the square not shown, whatever the flags were |
| SimonDisplay.Display.constructor | lab6/simonDisplay.c:46-47 | both flag arrays start all false |
| SimonDisplay.Display.DrawButton | lab6/simonDisplay.c:75-156 | the flag arrays change as `DrawButtonFlags` says |
| SimonDisplay.Display.DrawAllButtons | lab6/simonDisplay.c:159-164 | the loop leaves the flag arrays as `AllButtonsFlags(…, false)` |
| SimonDisplay.Display.EraseAllButtons | lab6/simonDisplay.c:167-172 | the loop leaves the flag arrays as `AllButtonsFlags(…, true)` |
| SimonDisplay.Display.DrawSquare | lab6/simonDisplay.c:177-266 | the flag arrays change as `DrawSquareFlags` says |
| ButtonHandler.Next | lab6/buttonHandler.c:85-165 | a timeout sends the handler to init_st from any state. init_st waits while disabled and goes to wait_for_touch_st or draw_buttons_st depending on `drawn`. Debounce is left only with the counter at 1, which resets it and captures the region once; the region and counter change nowhere else. touched_st advances only without a touch. `released` is raised only by released_st, which goes to finished_st. finished_st holds while enabled and clears `drawn` on disable |
| ButtonHandler.Paint | lab6/buttonHandler.c:90-164 | draw_buttons_st shows every button, also on a tick that times out. The tick that completes debounce shows the touched region's square (hiding its button if the square was not shown). The release tick hides the captured region's square and shows its button. Each of these leaves the other regions alone, and every other tick leaves the display unchanged |
| ButtonHandler.ReleasePoll | lab6/buttonHandler.c:69-76 | the poll returns the `released` flag and leaves it false, changing nothing else |
| ButtonHandler.ReleaseReportedOnce | lab6/buttonHandler.c:69-76 | two consecutive polls never both report a release |
| ButtonHandler.HoldInTouched | lab6/buttonHandler.c:146-150 | while the finger stays down, touched_st keeps waiting and changes nothing |
| ButtonHandler.TouchAndDebounce | lab6/buttonHandler.c:128-145 | a touch and the debounce tick reach touched_st with the region of the point read on the debounce tick |
| ButtonHandler.LiftAndRelease | lab6/buttonHandler.c:146-156 | a lift and the release tick reach finished_st with `released` raised |
| ButtonHandler.TouchCycle | lab6/buttonHandler.c:128-156 | a touch, debounce, any number of held ticks, a lift and the release tick end in finished_st with `released` set, the touched region captured and the counter at 0 |
| ButtonHandler.TimeOutDuringDebounceLeavesCounter | lab6/buttonHandler.c:99-145 | a timeout during debounce sends the handler to init_st with the counter left at 1, so the next touch enters debounce with the counter already past the settled value |
| ButtonHandler.Machine.constructor | lab6/buttonHandler.c:23-37 | the handler starts in init_st with every flag false and the counter 0 |
| ButtonHandler.Machine.Enable | lab6/buttonHandler.c:49 | only the enable flag changes, to true |
| ButtonHandler.Machine.Disable | lab6/buttonHandler.c:52 | only the enable flag changes, to false |
| ButtonHandler.Machine.ReleaseDetected | lab6/buttonHandler.c:69-76 | the result and the new state are those of `ReleasePoll` |
| ButtonHandler.Machine.IsComplete | lab6/buttonHandler.c:79-82 | the result is always true, and the completion flag is set |
| ButtonHandler.Machine.TimeOutOccurred | lab6/buttonHandler.c:169-171 | only the timeout flag changes, to the argument |
| ButtonHandler.Machine.Tick | lab6/buttonHandler.c:85-165 | the globals become `Next` of the old ones and the display flags become `Paint` of the old ones |
| ButtonHandler.Machine.DoAction | lab6/buttonHandler.c:91-109 | the action switch: the debounce counter counts with 8-bit wrap; the buttons are drawn in draw_buttons_st |
| ButtonHandler.Machine.DoTransition | lab6/buttonHandler.c:111-164 | the transition switch, with its effect on the display flags |
| FlashSequence.Next | lab6/flashSequence.c:51-110 | the tick keeps the invariant (position below 256, counter non-zero only while waiting, complete only in finished_st). init_st waits for the enable. Each wait lasts six ticks and leaves the counter 0. erase_st finishes at the iteration length or moves to the next position, so `pos` never passes it. finished_st reports completion while enabled and resets on disable |
| FlashSequence.Paint | lab6/flashSequence.c:53-71 | draw_st shows the square of the current entry (hiding its button if the square was not shown); erase_st hides that square and shows its button; both leave the other regions alone, and every other state, or an entry outside 0..3, leaves the display unchanged |
| FlashSequence.PlaybackAt | lab6/flashSequence.c:53-97 | 1 + 8k + j ticks after being armed the machine is j ticks into the round of position k (draw, six waits, erase) |
| FlashSequence.PlaybackCompletes | lab6/flashSequence.c:53-107 | positions 0..L take 1 + 8(L + 1) ticks, completion is reported on the next tick and not before |
| FlashSequence.Machine.constructor | lab6/flashSequence.c:24-35 | the machine starts in init_st with every flag false and the counters 0 |
| FlashSequence.Machine.Enable | lab6/flashSequence.c:38 | only the enable flag changes, to true |
| FlashSequence.Machine.Disable | lab6/flashSequence.c:41 | only the enable flag changes, to false |
| FlashSequence.Machine.IsComplete | lab6/flashSequence.c:48 | the result is the completion flag, which implies finished_st |
| FlashSequence.Machine.Tick | lab6/flashSequence.c:51-110 | the globals become `Next` of the old ones and the display flags become `Paint` of the old ones |
| VerifySequence.Next | lab6/verifySequence.c:56-136 | the tick keeps the invariant. init_st starts a fresh run when enabled, clearing every flag. In release_st the timeout wins over a touch, a touch resets the count, and a release moves on. verify_region_st sets the user error exactly when the region differs from the stored entry. inc_st stops at the first error or at the iteration length and otherwise moves one position on. finished_st reports completion until disabled. A timeout error implies finished_st or init_st |
| VerifySequence.HandlerEffect | lab6/verifySequence.c:58-112 | the tick enables the touch handler in enable_button_st, disables it in verify_region_st, and clears its release flag only when it polls it in release_st |
| VerifySequence.ReleaseHandshake | lab6/verifySequence.c:97-112 | with the handler's release flag up and no touch or timeout, release_st moves to verify_region_st |
| VerifySequence.CorrectRound | lab6/verifySequence.c:58-126 | a correct answer from enable_button_st reaches the next position, or finishes at the iteration length, with no error |
| VerifySequence.CorrectRoundsFrom | lab6/verifySequence.c:94-126 | correct answers from any position up to the iteration length end in finished_st with no error |
| VerifySequence.CorrectPlayerCompletes | lab6/verifySequence.c:56-136 | correct answers for positions 0..L reach finished_st with both error flags false at position L, and completion is reported on the next tick |
| VerifySequence.TimeOutAfterIdleTicks | lab6/verifySequence.c:64-112 | from a count of t, release_st lasts 20 − t ticks without a touch and then reports the timeout in finished_st |
| VerifySequence.TimeOutCountCarriesOver | lab6/verifySequence.c:97-126 | the timeout count is not reset between positions |
| VerifySequence.Machine.constructor | lab6/verifySequence.c:22-34 | the machine starts in init_st with every flag false and the counters 0 |
| VerifySequence.Machine.Enable | lab6/verifySequence.c:37 | only the enable flag changes, to true |
| VerifySequence.Machine.Disable | lab6/verifySequence.c:41 | only the enable flag changes, to false |
| VerifySequence.Machine.IsTimeOutError | lab6/verifySequence.c:47 | the result is the timeout flag, which implies finished_st or init_st |
| VerifySequence.Machine.IsUserInputError | lab6/verifySequence.c:50 | the result is the user-error flag, which is never up while a position is still being checked |
| VerifySequence.Machine.IsComplete | lab6/verifySequence.c:53 | the result is the completion flag, which implies finished_st or init_st |
| VerifySequence.Machine.Tick | lab6/verifySequence.c:56-136 | the globals become `Next` of the old ones, and the touch handler changes as `HandlerEffect` says |
| VerifySequence.Machine.DoAction | lab6/verifySequence.c:58-79 | the action switch, with its enable and disable of the touch handler |
| VerifySequence.Machine.DoTransition | lab6/verifySequence.c:81-135 | the transition switch, with its poll of the touch handler |
| SimonControl.Generated | lab6/simonControl.c:100-106 | exactly the first currLvl entries are rewritten, each to a region number in 0..3, and the rest are kept |
| SimonControl.GeneratedDeterministic | lab6/simonControl.c:100-106 | the same seed and length generate the same prefix, whatever the buffer held |
| SimonControl.Next | lab6/simonControl.c:117-342 | the seed counts ticks in init_st and nothing else changes it; the level, length and high score change only in disable_verify_st, on a touch in wait_new_lvl_st, and in wait_end_game_st |
| SimonControl.NextKeepsInv | lab6/simonControl.c:160-340 | every tick keeps each message counter below its limit in its wait state and zero where it is not in use. The new-level counter keeps its final value (at most 40) through end_game_st and wait_end_game_st, and only the reset clears it. The game-over flag stays down |
| SimonControl.SequenceAfter | lab6/simonControl.c:195-208 | when init_st is left for a new level or on a touch, entry i < currLvl becomes the i-th draw of the generator seeded with the counted seed, reduced to a region 0..3, and the later entries are kept; every other tick leaves the buffer as it was |
| SimonControl.NextFromInit | lab6/simonControl.c:120-137 | a new level goes to start_st without a touch, a touch goes to release_st, otherwise the game stays; a sequence is published exactly when init_st is left |
| SimonControl.NextInterlock | lab6/simonControl.c:210-241 | each enable and disable state lasts one tick, and each wait state lasts until its machine reports completion |
| SimonControl.NextAfterVerify | lab6/simonControl.c:242-261 | an error ends the game; a full-length success completes the level with the length as high score; otherwise the length grows by one and the level restarts at start_st |
| SimonControl.NextWaitCompleteLvl | lab6/simonControl.c:265-271 | the level-complete message moves on when its counter reaches 20, clearing it |
| SimonControl.NextWaitNewLvl | lab6/simonControl.c:275-311 | a touch goes one level up with length 1, the counters zeroed and `nextLvl` set; otherwise the prompt times out at 40 and the game ends |
| SimonControl.NextWaitEndGame | lab6/simonControl.c:316-340 | the game-over message resets the game when its counter reaches 40 |
| SimonControl.NextMessageStart | lab6/simonControl.c:262-315 | the first tick of each message only moves to its wait state |
| SimonControl.NextInterlockFrame | lab6/simonControl.c:210-241 | inside the interlock a tick changes only the state and leaves the interlock only for disable_verify_st |
| SimonControl.NextKeepsLevelInv | lab6/simonControl.c:242-340 | 1 ≤ seqLength ≤ currLvl and highScore ≤ currLvl hold after every tick except a level-up from 255 |
| SimonControl.InterlockFrom | lab6/simonControl.c:218-241 | with both machines complete, each interlock tick moves one state along and changes nothing else |
| SimonControl.InterlockOrder | lab6/simonControl.c:143-158 | from start_st the states follow start, enable flash, wait flash, disable flash, enable verify, wait verify, disable verify |
| SimonControl.CompleteLevelCounting | lab6/simonControl.c:166-169 | while waiting, the level-complete message only counts |
| SimonControl.CompleteLevelPause | lab6/simonControl.c:265-271 | the level-complete message lasts until its counter reaches 20 and then shows the next-level prompt |
| SimonControl.NewLevelCounting | lab6/simonControl.c:175-177 | without a touch, the next-level prompt only counts |
| SimonControl.NewLevelTimeOut | lab6/simonControl.c:275-311 | without a touch the prompt lasts until its counter reaches 40 and then ends the game |
| SimonControl.EndGameCounting | lab6/simonControl.c:188-190 | the game-over message only counts |
| SimonControl.EndGameReset | lab6/simonControl.c:316-340 | the game-over message lasts until its counter reaches 40 and then resets the game, keeping the seed |
| SimonControl.ResetIsFirstLevel | lab6/simonControl.c:329-338 | the reset game is at level 4, length 1, high score 0, in init_st, with both invariants holding |
| SimonControl.NextIdleInit | lab6/simonControl.c:120-137 | an idle tick in init_st counts the seed and marks the screen set up, and changes nothing else |
| SimonControl.SeedCountsIdleTicks | lab6/simonControl.c:78-136 | while waiting for the first touch the seed counts ticks modulo 2^32 and nothing else moves |
| SimonControl.LevelClimbs | lab6/simonControl.c:249-259 | a success below the level grows the length by one; at the level it records the level as high score; the level invariant is kept |
| SimonControl.PlaybackCoversSeqLength | lab6/simonControl.c:140-142 | publishing seqLength as iteration length makes playback cover positions 0..seqLength − 1 exactly |
| SimonControl.VerificationCoversSeqLength | lab6/simonControl.c:140-142 | publishing seqLength makes verification check exactly seqLength entries, five ticks each |
| SimonControl.FlashSwitch | lab6/simonControl.c:143-151 | playback is enabled exactly in enable_flash_st and disabled exactly in disable_flash_st |
| SimonControl.VerifySwitch | lab6/simonControl.c:152-159 | verification is enabled exactly in enable_verify_st and disabled exactly in disable_verify_st |
| SimonControl.PanelEffect | lab6/simonControl.c:143-190 | the buttons are drawn when playback is enabled and erased around the level and game-over messages; squares are untouched |
| SimonControl.StoreEntries | lab6/simonControl.c:197-206 | a published sequence puts the same seeded draws, as regions 0..3, in the store's first currLvl entries and keeps the rest; a tick that does not publish leaves the store alone |
| SimonControl.Controller.constructor | lab6/simonControl.c:61-78 | the controller starts at level 4, length 1, high score 0, in init_st, with a zero buffer |
| SimonControl.Controller.Enable | lab6/simonControl.c:345 | only the enable flag changes, to true |
| SimonControl.Controller.Disable | lab6/simonControl.c:348 | only the enable flag changes, to false |
| SimonControl.Controller.IsGameOver | lab6/simonControl.c:352 | the result is always false |
| SimonControl.Controller.SetSequenceLength | lab6/simonControl.c:356-358 | the store's iteration length becomes `StoredIterationLength(length)` |
| SimonControl.Controller.GenerateSequence | lab6/simonControl.c:100-106 | the loop leaves the buffer as `Generated` from the seed and the level |
| SimonControl.Controller.Tick | lab6/simonControl.c:117-342 | the globals become `Next` of the old ones. The store's iteration length, the peers' enables and the button flags change as the switch functions say |
| SimonControl.Controller.Advance | lab6/simonControl.c:117-342 | the controller's own globals become `Next`, and the buffer and the store change as `SequenceAfter` and `StoreEntries` say |
| SimonControl.Controller.DoAction | lab6/simonControl.c:119-191 | the action switch on the controller's own variables |
| SimonControl.Controller.DoPeerAction | lab6/simonControl.c:140-191 | the action switch's calls into the store, the display and the two machines |
| SimonControl.Controller.DoTransition | lab6/simonControl.c:194-341 | the transition switch, with the sequence it publishes |
| SimonControl.Controller.TransitionOnward | lab6/simonControl.c:210-241 | the transitions of the interlock and message-start states |
| SimonControl.Controller.TransitionFromInit | lab6/simonControl.c:195-209 | init_st's transition, with generation and publication |
| SimonControl.Controller.TransitionFromDisableVerify | lab6/simonControl.c:242-261 | disable_verify_st's transition |
| SimonControl.Controller.TransitionFromWaitCompleteLvl | lab6/simonControl.c:265-271 | wait_complete_lvl_st's transition |
| SimonControl.Controller.TransitionFromWaitNewLvl | lab6/simonControl.c:275-311 | wait_new_lvl_st's transition |
| SimonControl.Controller.TransitionFromWaitEndGame | lab6/simonControl.c:316-340 | wait_end_game_st's transition |
| ClockDisplay.IncHour | lab4/clockDisplay.c:118-124 | on a valid hour the increment stays in 1..12 and wraps 12 to 1 |
| ClockDisplay.DecHour | lab4/clockDisplay.c:128-133 | on a valid hour the decrement stays in 1..12 and wraps 1 to 12 |
| ClockDisplay.IncSixty | lab4/clockDisplay.c:137-162 | minutes and seconds increment modulo 60, wrapping 59 to 0 |
| ClockDisplay.DecSixty | lab4/clockDisplay.c:147-171 | minutes and seconds decrement modulo 60, wrapping 0 to 59 |
| ClockDisplay.IncDecInverse | lab4/clockDisplay.c:118-171 | an increment followed by the matching decrement, or the reverse, restores each field |
| ClockDisplay.TimeAt | lab4/clockDisplay.c:99-106 | every position of the 12-hour cycle is a valid time |
| ClockDisplay.SecondsRoundTrip | lab4/clockDisplay.c:99-106 | valid times and the 43200 positions of the cycle are in one-to-one correspondence |
| ClockDisplay.AdvanceAddsOneSecond | lab4/clockDisplay.c:306-324 | advancing keeps the time valid and adds one second modulo 12 hours |
| ClockDisplay.BoxAt | lab4/clockDisplay.c:262-302 | each of the six boxes is hit exactly when the point is strictly inside its row and column bounds, and otherwise the point is outside all of them |
| ClockDisplay.IncDecChangesOneField | lab4/clockDisplay.c:262-302 | a touch changes at most one field by one step and keeps the time valid; outside the boxes nothing changes |
| ClockDisplay.RedrawChanged | lab4/clockDisplay.c:180-204 | each field that differs from its copy is redrawn and copied; unchanged fields keep what the screen shows |
| ClockDisplay.UpdateAsWritten | lab4/clockDisplay.c:180-219 | the update as written: a forced update sets and prints 12:59:59 but leaves the copies at the earlier time |
| ClockDisplay.StaleScreenAsWritten | lab4/clockDisplay.c:205-218 | after the start-up forced update and one second's advance the time is 1:00:00 while the screen still shows 12:59:59 |
| ClockDisplay.Update | lab4/clockDisplay.c:180-219 | the corrected update: a forced update also records 12:59:59 in the copies |
| ClockDisplay.UpdateShowsTime | lab4/clockDisplay.c:180-219 | after any update the screen shows the current time and the copies equal it; an unforced update leaves the time alone |
| ClockDisplay.Clock.constructor | lab4/clockDisplay.c:99-106 | the clock starts at 1:00:00 |
| ClockDisplay.Clock.IncHours | lab4/clockDisplay.c:118-124 | only the hours change, as `IncHour` says |
| ClockDisplay.Clock.DecHours | lab4/clockDisplay.c:128-133 | only the hours change, as `DecHour` says |
| ClockDisplay.Clock.IncMins | lab4/clockDisplay.c:137-143 | only the minutes change, as `IncSixty` says |
| ClockDisplay.Clock.DecMins | lab4/clockDisplay.c:147-152 | only the minutes change, as `DecSixty` says |
| ClockDisplay.Clock.IncSec | lab4/clockDisplay.c:156-162 | only the seconds change, as `IncSixty` says |
| ClockDisplay.Clock.DecSec | lab4/clockDisplay.c:166-171 | only the seconds change, as `DecSixty` says |
| ClockDisplay.Clock.UpdateTimeDisplay | lab4/clockDisplay.c:180-219 | the time, the copies and the screen become `UpdateAsWritten` of the old ones |
| ClockDisplay.Clock.Init | lab4/clockDisplay.c:257 | the start-up forced update: the clock shows 12:59:59 and the copies keep the time before |
| ClockDisplay.Clock.PerformIncDec | lab4/clockDisplay.c:262-303 | the touched box's field changes as `ApplyBox` says, then an unforced update follows |
| ClockDisplay.Clock.AdvanceTimeOneSecond | lab4/clockDisplay.c:306-324 | the time becomes `Advance` of the old time |
| ClockControl.Next | lab4/clockControl.c:93-200 | init_st goes to waiting_for_touch_st. Every tick ending in waiting zeroes the three counters. `touched` is never cleared and is set only on reaching ad_timer_running_st |
| ClockControl.NextKeepsInv | lab4/clockControl.c:93-200 | every tick keeps the per-state counter values and countToSecond in 0..10, and never enters never_touched_st or add_second_to_clock_st |
| ClockControl.NoAdvanceBeforeTouch | lab4/clockControl.c:161-186 | the clock never advances before the first touch |
| ClockControl.ReleaseIncDec | lab4/clockControl.c:108-152 | a release when the ADC settles or during auto-timer performs one inc/dec and returns to waiting. A release in the rate states returns to waiting without one. A held touch performs one only in rate_timer_expired_st |
| ClockControl.TapIncDecsOnce | lab4/clockControl.c:101-186 | a quick tap performs exactly one inc/dec and returns to waiting |
| ClockControl.HoldReachesRepeat | lab4/clockControl.c:101-147 | holding the touch reaches rate_timer_running_st in five ticks with no inc/dec |
| ClockControl.RepeatEverySecondTick | lab4/clockControl.c:131-194 | while held in the rate loop, 2k ticks perform k inc/decs and return to the same state |
| ClockControl.CountingToSecond | lab4/clockControl.c:161-179 | after the first touch the untouched ticks of a second only count |
| ClockControl.SecondEveryElevenTicks | lab4/clockControl.c:161-179 | after the first touch, eleven untouched ticks advance the clock exactly once and return to the same state |
| ClockControl.DisplayAfterKeepsTime | lab4/clockControl.c:93-200 | whatever a tick does to the clock keeps the time valid |
| ClockControl.Controller.constructor | lab4/clockControl.c:24-49 | the controller starts in init_st with every counter zero and `touched` false |
| ClockControl.Controller.Tick | lab4/clockControl.c:93-200 | the globals become `Next` of the old ones and the clock changes as `DisplayAfter` says |
| ClockControl.Controller.DoTransition | lab4/clockControl.c:96-156 | the transition switch, with its inc/dec call |
| ClockControl.Controller.DoAction | lab4/clockControl.c:157-199 | the action switch, with its advance and display update |
| SnakeControl.Next | snake/snakeControl.c:159-380 | every tick follows an edge of the state diagram: init to set_mode, set_mode back to init or on to instruct, instruct to display_button, display_button and end_button alternate until start, start to move, move to finish, finish back to init |
| SnakeControl.ModeAt | snake/snakeControl.c:133-150 | y in (75, 125) gives easy, y in (125, 175) gives medium, y > 175 gives hard, and any other y (including exactly 125 and 175) keeps the difficulty |
| SnakeControl.DirectionAfter | snake/snakeControl.c:254-258 | buttons 0, 1, 2, 3 pick right, up, down, left, and any other value keeps the direction |
| SnakeControl.Moved | snake/snakeControl.c:260-282 | the head moves 5 in the direction with 16-bit wrap, and the tail and fruit are unchanged |
| SnakeControl.DifficultyOnlyChosen | snake/snakeControl.c:133-150 | the difficulty changes only in set_mode_st; the game-over reset keeps it |
| SnakeControl.FlagsOnlyOnButton | snake/snakeControl.c:198-238 | a button's flag is raised only in display_button_st when that button is reported, and cleared only by the game-over reset |
| SnakeControl.GeometryOnlyInGame | snake/snakeControl.c:241-282 | the coordinates change only in start_st and move_st |
| SnakeControl.NextKeepsInv | snake/snakeControl.c:159-380 | every tick keeps the invariant. The instruction timer is 0 before the instructions, below 70 while they show and 70 after. The game-over timer runs only in finish_st. No flag is set before the button screen and all are set once the game starts. A difficulty is chosen from the instructions on. The length stays 2 |
| SnakeControl.ModeChosen | snake/snakeControl.c:303-324 | set_mode_st returns to init_st when the difficulty is still ERR and otherwise goes to instruct_st |
| SnakeControl.InstructCounting | snake/snakeControl.c:186-197 | the instruction ticks before the last only count |
| SnakeControl.InstructTimeOut | snake/snakeControl.c:325-338 | from a timer of 0 the instructions show for exactly 70 ticks and then the button screen follows |
| SnakeControl.ButtonGate | snake/snakeControl.c:340-353 | display_button_st and end_button_st alternate, and the game starts exactly when all four flags are set |
| SnakeControl.Placement | snake/snakeControl.c:241-252 | start_st places the snake and goes to move_st |
| SnakeControl.PlacedWithoutWrap | snake/snakeControl.c:244-251 | with a grid width up to 20: head_y = difficulty/2 · width = tail_y = fruit_y; head_x = 40 + 3 · width; tail_x = head_x − 2 · width; fruit_x = (difficulty − 2) · width |
| SnakeControl.MoveStep | snake/snakeControl.c:253-282 | move_st picks the direction, moves the head, and ends the game exactly when the moved head is out of bounds |
| SnakeControl.UpWrapEndsGame | snake/snakeControl.c:357-359 | moving up past 0 wraps head_y above 240, which the bounds test catches |
| SnakeControl.FinishCounting | snake/snakeControl.c:283-293 | the game-over ticks before the last only count |
| SnakeControl.GameOverReset | snake/snakeControl.c:361-377 | the game-over screen lasts until its timer reaches 40 and then resets to init_st, keeping the difficulty |
| SnakeControl.Game.constructor | snake/snakeControl.c:92-122 | the game starts in init_st with difficulty ERR, direction right, every flag false and the length 2 |
| SnakeControl.Game.Tick | snake/snakeControl.c:159-380 | the globals, including the button-flag array, become `Next` of the old ones, and the invariant is kept |
| SnakeControl.Game.DoAction | snake/snakeControl.c:161-295 | the action switch |
| SnakeControl.Game.DoScreenAction | snake/snakeControl.c:161-295 | the action switch outside display_button_st |
| SnakeControl.Game.ShowInstructions | snake/snakeControl.c:186-197 | the instruction timer counts with 8-bit wrap and the text is marked written |
| SnakeControl.Game.ShowGameOver | snake/snakeControl.c:283-293 | the game-over timer counts with 8-bit wrap and the text is marked written |
| SnakeControl.Game.SetModeFromTouch | snake/snakeControl.c:133-150 | the difficulty becomes `ModeAt` of the old one |
| SnakeControl.Game.ShowButton | snake/snakeControl.c:198-238 | the reported button is stored and, when it is 0..3, its flag is set |
| SnakeControl.Game.PlaceSnake | snake/snakeControl.c:241-252 | the coordinates become `Placed` |
| SnakeControl.Game.MoveHead | snake/snakeControl.c:253-282 | the direction becomes `DirectionAfter` and the coordinates become `Moved` |
| SnakeControl.Game.DoTransition | snake/snakeControl.c:297-379 | the transition switch |
| SnakeControl.Game.ResetGame | snake/snakeControl.c:362-377 | the globals become `Reset` of the old ones |
| SnakeControl.Game.ClearButtons | snake/snakeControl.c:372 | the loop clears all four button flags |

## Left out

- Pixels, colours, text and `sprintf` formatting are not modelled. Simon keeps only its drawn flags; the clock keeps only the three numbers on screen.
- `display_isTouched`, `display_getTouchedPoint`, `get_button`, `rand` and `snakeDisplay_calcGridWidth` become parameters of each tick. `get_button` and `snakeDisplay_calcGridWidth` are called but have no body in the program's sources.
- The touch screen is sampled once per tick. The clock controller's repeated `display_isTouched` calls see the same value.
- `rand` is a deterministic function of the seed and the call index; the C library generator is not modelled.
- The panel is taken as 320 x 240; the display header is not part of this model.
- No file sets the order in which the lab6 machines tick. Each machine's `Tick` takes the others' flags as they stand when it starts, and the controller's `Tick` reads the peers' flags before its action switch.
- SimonControl.NextKeepsLevelInv: does not cover a level-up from level 255, where the 8-bit `currLvl` wraps to 0 and the bookkeeping breaks.
- ButtonHandler.Next: finished_st does not clear `released` on disable, although the comment above `buttonHandler_releaseDetected` says it should. The model follows the code, and no property depends on it.
- `ClockDisplay.Update` is the corrected forced update of the Findings table. The clock methods follow the code as written. The controller uses only unforced updates, and for those `Update` and `UpdateAsWritten` are equal.
- `ClockControl.Controller` does not call `ClockDisplay.Clock.Init`: the two are started one after the other by the program's `main`, which is not part of this model.
- `setFruitCoor` is never called and uses `time`/`rand`; it is not modelled. Likewise the snake's body drawing (`drawSnake`, `eraseTail`, `drawApple`).
- The drawing of the clock face in `clockDisplay_init` is not modelled; its final forced update is `ClockDisplay.Clock.Init`.
- Hardware drivers, the interrupt superloops in the `main` files, `clockDisplay_runTest`, `simonDisplay_runTest`, `debugStatePrint` and the other display `*_init` functions are display setup, timing or tracing, with no game logic.

## Findings

| source | as written | input that shows it | evidently intended | confidence | as-written member | corrected member |
|---|---|---|---|---|---|---|
| lab4/clockDisplay.c:205-218 | a forced update sets the time to 12:59:59 and prints it but leaves `old_hours`, `old_minutes`, `old_seconds` at the earlier time | start-up (time 1:00:00), forced update, one second's advance back to 1:00:00, then an unforced update: nothing differs from the copies, so the screen keeps showing 12:59:59 | the copies record what was printed, so the next update redraws every field that changed | medium, not executed | ClockDisplay.StaleScreenAsWritten | ClockDisplay.UpdateShowsTime |
