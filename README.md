# Fitness tracker views: exercise counters, leaderboard and streak card

This project models the logic inside the React views of a webcam fitness tracker.

- **Push-up counter.** It reads the pose landmarks of each camera frame. When both elbows drop more than 0.07 below their shoulders, the position becomes "down". A later frame with both elbows more than 0.07 above the shoulders counts one push-up and sets "up". A seconds timer runs while started. Reset and save act on the count and the timer.
- **Squat counter.** It uses the same up/down machine on knees against hips. The detection loop is started when tracking starts and reads the tracking flag of that moment, so in the model frames are processed only while tracking (see "## Left out" for a stop that comes before the pose library has loaded).
- **Plank timer.** It combines the push-up detector with a plank-hold detector. The hold detector counts whole seconds since the hip first came level with or above the shoulder.
- **Shoulder-tap counter.** A wrist near the opposite shoulder, with the elbow between 30 and 90 degrees, marks that side active and schedules a one-second timer. The timer counts the tap.
- **Wall of Fame.** A leaderboard carousel of one or three cards per page. Each card shows a name made from the user's e-mail.
- **Master the moves.** A wrapping carousel over four exercises.
- **Streak card.** A 7-day window over the completed days the server reports. The week streak stands only with at least 3 workouts in the window.

Pure views (the carousels and the streak card) are datatypes and functions.

The exercise views keep React state and refs that their handlers update in place. Each one is a `class` whose methods are proved equal to pure step functions (`PushupFrame`, `SquatFrame`, `HoldFrame`, `RegisterFrame`, `Fire`). The lemmas are stated about those functions. Camera frames, timer firings, the clock and server answers are explicit method calls and parameters:

- a frame is a sequence of optional landmark points, with coordinates as exact reals;
- the clock is a millisecond `nat` passed in;
- a save's outcome is `Accepted` (a 2xx answer whose body parses as JSON), `Rejected` (another answer) or `Unreachable` (the request or the parsing of a 2xx body throws).

Files:

- `common.dfy`: `Options`, `Pose` (landmarks and the 0.07 threshold) and `Session` (save outcome, summary, e-mail truthiness).
- `repetition.dfy`: the up/down machine shared by the three repetition counters.
- `pushup.dfy`, `squats.dfy`, `plank.dfy`, `shouldertap.dfy`: the exercise views.
- `walloffame.dfy`, `mastermoves.dfy`, `streaktracker.dfy`: the carousels and the streak card.

## Model

| member | source | states |
|---|---|---|
| Repetition.Step | src/components/PushupCounter.tsx:120-133 | A frame in the down zone sets Down with the count unchanged. A frame in the up zone counts one more exactly when the position was Down, and leaves Up. Count rises by at most one; with exclusive zones it rises iff the position moves into Up from elsewhere |
| Repetition.RunCount | src/components/PushupCounter.tsx:108-135 | Over any sequence of frames with exclusive zones, the final count is the start count plus the number of entries into Up |
| Repetition.DownFramesNeverCount | src/components/PushupCounter.tsx:120-126 | Frames only in the down zone never change the count |
| Repetition.UpFramesWithoutDownNeverCount | src/components/PushupCounter.tsx:128-133 | Starting outside Down, frames only in the up zone never change the count: a push-up needs a down phase first |
| Repetition.CyclesCountExactly | src/components/PushupCounter.tsx:120-133 | n full down/up cycles add exactly n to the count and end in Up, from any start |
| Pushup.PushupZones | src/components/PushupCounter.tsx:109-133 | No zones iff one of landmarks 11-14 is missing. Down iff both elbows are more than 0.07 below their shoulders; up iff both are more than 0.07 above. The two zones never hold together |
| Pushup.PushupFrame | src/components/PushupCounter.tsx:108-135 | A frame missing an arm landmark changes nothing. The down zone sets Down and keeps the count. The count rises by one iff the position was Down and the elbows are in the up zone, and then the position is Up. A frame in neither zone, or in the up zone while the position is not Down, changes nothing |
| Pushup.Observation | src/components/PushupCounter.tsx:114-133 | The zones a frame shows, none for a frame missing a landmark; always exclusive |
| Pushup.PushupRunCount | src/components/PushupCounter.tsx:87-135 | The detection loop over a stream of frames is the up/down machine over their zones, and its count is the start count plus the entries into Up |
| Pushup.PushupCounter.constructor | src/components/PushupCounter.tsx:10-16 | Count and timer zero, stopped, no interval, no position, no e-mail |
| Pushup.PushupCounter.ProfileLoaded | src/components/PushupCounter.tsx:17-37 | Stores the e-mail from the profile and changes nothing else |
| Pushup.PushupCounter.DetectPushup | src/components/PushupCounter.tsx:108-135 | The new position and count are `PushupFrame` of the old ones; timer and running flag untouched |
| Pushup.PushupCounter.RunPoseDetection | src/components/PushupCounter.tsx:78-92 | The first detected pose, if any, goes through `DetectPushup`; no pose changes nothing |
| Pushup.PushupCounter.StartTimer | src/components/PushupCounter.tsx:146-151 | Running, with an interval; count, timer and position kept |
| Pushup.PushupCounter.StopTimer | src/components/PushupCounter.tsx:153-156 | Stopped, interval cleared; count, timer and position kept |
| Pushup.PushupCounter.Tick | src/components/PushupCounter.tsx:148-150 | One interval firing adds a second while running, nothing otherwise |
| Pushup.PushupCounter.ResetAll | src/components/PushupCounter.tsx:158-163 | Count and timer zero, stopped, interval cleared; the position ref is kept |
| Pushup.PushupCounter.SaveData | src/components/PushupCounter.tsx:164-204 | Without a truthy e-mail, nothing is sent and nothing changes. Otherwise the summary sent carries the e-mail, "pushup", the count, the timer and the notes. Only an accepted save zeroes the count, and the timer is kept |
| Squats.SquatZones | src/components/SquatsCount.tsx:129-147 | No zones iff one of landmarks 23-26 is missing. Down iff both knees are more than 0.07 above their hips (smaller y); up iff both are more than 0.07 below. The zones are exclusive |
| Squats.SquatFrame | src/components/SquatsCount.tsx:129-156 | A frame missing a leg landmark changes nothing. The down zone sets Down. The count rises by one iff the position was Down and the knees are in the up zone, and then the position is Up. A frame in neither zone, or in the up zone while the position is not Down, changes nothing |
| Squats.Observation | src/components/SquatsCount.tsx:134-153 | The zones a frame shows, none for a frame missing a leg landmark; always exclusive |
| Squats.SquatRunCount | src/components/SquatsCount.tsx:96-156 | The detection loop over a stream of frames while tracking is the up/down machine over their zones, and its count is the start count plus the entries into Up |
| Squats.SquatCounter.constructor | src/components/SquatsCount.tsx:11-18 | The reset state with no position and no e-mail |
| Squats.SquatCounter.ProfileLoaded | src/components/SquatsCount.tsx:21-41 | Stores the e-mail and changes nothing else |
| Squats.SquatCounter.DetectSquat | src/components/SquatsCount.tsx:129-156 | The new position and count are `SquatFrame` of the old ones |
| Squats.SquatCounter.RunPoseDetection | src/components/SquatsCount.tsx:96-110 | While not tracking, a frame changes nothing. While tracking, the first pose goes through `SquatFrame` |
| Squats.SquatCounter.StartTracking | src/components/SquatsCount.tsx:169-172 | Tracking and timer active; count, duration and position kept |
| Squats.SquatCounter.StopTracking | src/components/SquatsCount.tsx:175-178 | Not tracking, timer inactive; count, duration and position kept |
| Squats.SquatCounter.Tick | src/components/SquatsCount.tsx:44-55 | One interval firing adds a second while the timer is active, nothing otherwise; since tracking and the timer are switched together, the duration grows exactly while tracking |
| Squats.SquatCounter.ResetAll | src/components/SquatsCount.tsx:181-187 | Count and duration zero, stopped, position cleared. Resetting a reset view changes nothing |
| Squats.SquatCounter.SaveData | src/components/SquatsCount.tsx:190-231 | Without a truthy e-mail, nothing is sent and nothing changes. Otherwise the summary is sent. An accepted save zeroes count and duration; a rejected or failed one keeps both |
| Plank.HoldFrame | src/components/PlankTimer.tsx:159-178 | A frame missing landmark 11 or 23 changes nothing. In the posture (hip y at most shoulder y) the hold is active, the start is taken only when there was none, and the shown time is the whole seconds since the start. Out of the posture the start is cleared, the hold inactive and the shown time kept |
| Plank.HoldTimeGrows | src/components/PlankTimer.tsx:164-171 | While the posture holds and the clock does not go back, the start stays put and the shown time is non-negative and never decreases |
| Plank.LoopFrame | src/components/PlankTimer.tsx:97-118 | One loop pass runs the push-up rule and the hold rule on the frame when the running flag it reads is set, and changes nothing otherwise |
| Plank.LoopFrameAsWritten | src/components/PlankTimer.tsx:59-129 | The loop as built at mount reads the first render's running flag, false, so no frame ever changes the tracker or the hold |
| Plank.AsWrittenIgnoresRunningTimer | src/components/PlankTimer.tsx:128-178 | A concrete frame that is lowered and in plank: the loop as written leaves the state alone, while the intended loop sets Down, takes the start time and marks the hold active |
| Plank.PlankTimer.constructor | src/components/PlankTimer.tsx:11-19 | The reset state, no position, no e-mail |
| Plank.PlankTimer.ProfileLoaded | src/components/PlankTimer.tsx:22-42 | Stores the e-mail and changes nothing else |
| Plank.PlankTimer.DetectPushup | src/components/PlankTimer.tsx:128-157 | While running, position and count follow `PushupFrame`; otherwise nothing changes |
| Plank.PlankTimer.DetectPlank | src/components/PlankTimer.tsx:159-178 | While running, the hold follows `HoldFrame` at the given clock reading; otherwise nothing changes |
| Plank.PlankTimer.RunPoseDetection | src/components/PlankTimer.tsx:97-118 | The first pose, if any, goes through `LoopFrame` with the current running flag |
| Plank.PlankTimer.StartTimer | src/components/PlankTimer.tsx:188-190 | Running; everything else kept |
| Plank.PlankTimer.StopTimer | src/components/PlankTimer.tsx:192-194 | Stopped; everything else kept |
| Plank.PlankTimer.Tick | src/components/PlankTimer.tsx:45-56 | One interval firing adds a second while running, nothing otherwise |
| Plank.PlankTimer.ResetAll | src/components/PlankTimer.tsx:196-202 | Count and time zero, stopped, hold inactive with no start; the position ref is kept |
| Plank.PlankTimer.SaveData | src/components/PlankTimer.tsx:204-244 | Without a truthy e-mail nothing is sent. A save that is not accepted changes nothing. An accepted save resets the view |
| ShoulderTap.Touching | src/components/ShoulderTapCounter.tsx:93-133 | No side when a landmark 11-16 is missing. Right iff the right wrist is within 0.05 of the left shoulder on both axes and the right elbow angle is strictly between 30 and 90; Left symmetrically |
| ShoulderTap.RegisterSide | src/components/ShoulderTapCounter.tsx:135-136 | A touching side not yet active becomes active and gets one timer; otherwise nothing changes |
| ShoulderTap.RegisterFrame | src/components/ShoulderTapCounter.tsx:135-159 | The touching sides join the active set. Each newly active side gets exactly one timer; an already active side gets none. The count is unchanged |
| ShoulderTap.RegisterSidesInTurn | src/components/ShoulderTapCounter.tsx:135-159 | Registering the right side and then the left equals registering the frame's touching set at once |
| ShoulderTap.Fire | src/components/ShoulderTapCounter.tsx:139-145 | A firing timer is removed. If its side is active, the count rises by one and the side is cleared; otherwise count and active set are unchanged |
| ShoulderTap.SidesIndependent | src/components/ShoulderTapCounter.tsx:135-159 | Registering or firing one side leaves the other side's mark and timers alone |
| ShoulderTap.RegisterKeepsValid | src/components/ShoulderTapCounter.tsx:135-159 | Registration keeps the invariant: each side has at most one timer, exactly while it is active |
| ShoulderTap.FireCommits | src/components/ShoulderTapCounter.tsx:139-158 | Under the invariant a firing timer always finds its side active, counts one tap, and keeps the invariant |
| ShoulderTap.RegisterFramePending | src/components/ShoulderTapCounter.tsx:135-159 | A frame schedules exactly as many timers as sides it newly registers |
| ShoulderTap.EveryTapCountedOnce | src/components/ShoulderTapCounter.tsx:91-160 | Along any feasible run of frames and timer firings from a valid state, the invariant holds. Counted taps plus waiting timers equal the start plus the taps registered: none is lost or counted twice |
| ShoulderTap.ShoulderTapCounter.constructor | src/components/ShoulderTapCounter.tsx:7-9 | Count zero, no active side, no timer |
| ShoulderTap.ShoulderTapCounter.DetectShoulderTap | src/components/ShoulderTapCounter.tsx:93-160 | The new state is `RegisterFrame` of the old one with the sides the frame touches |
| ShoulderTap.ShoulderTapCounter.FireDebounce | src/components/ShoulderTapCounter.tsx:139-158 | The new state is `Fire` of the old one |
| WallOfFame.ItemsPerPage | src/components/WallOfFame.tsx:42-44 | One card iff the window is narrower than 640, three otherwise |
| WallOfFame.Visible | src/components/WallOfFame.tsx:105-106 | The cards from the start index on, a full page when enough remain, fewer at the end, in order |
| WallOfFame.JsRem | src/components/WallOfFame.tsx:53 | JavaScript's truncating remainder: smaller than the divisor in size, zero or of the dividend's sign, and Dafny's remainder for non-negative operands |
| WallOfFame.NextSlideAsWritten | src/components/WallOfFame.tsx:52-54 | The forward arrow as written gives NaN exactly when the entries are one fewer than a page |
| WallOfFame.PrevSlideAsWritten | src/components/WallOfFame.tsx:56-62 | The back arrow as written gives NaN exactly when the entries are one fewer than a page |
| WallOfFame.VisibleAsWritten | src/components/WallOfFame.tsx:105-106 | A NaN start index shows no card |
| WallOfFame.TwoEntriesOnWideScreenVanish | src/components/WallOfFame.tsx:52-62 | With two entries and three cards per page, both entries show at first, but either arrow makes the index NaN and the carousel empty |
| WallOfFame.Positions | src/components/WallOfFame.tsx:53 | The number of start positions: one per full page, and at least one |
| WallOfFame.NextSlide | src/components/WallOfFame.tsx:52-54 | Always lands on a start position. From a start position it moves one forward, the last wrapping to the first |
| WallOfFame.PrevSlide | src/components/WallOfFame.tsx:56-62 | Always lands on a start position. From a start position it moves one back, the first wrapping to the last |
| WallOfFame.SlidesInverse | src/components/WallOfFame.tsx:52-62 | Back undoes forward and forward undoes back |
| WallOfFame.SlidesAgreeWithAsWritten | src/components/WallOfFame.tsx:52-62 | Whenever the entries fill at least a page, the intended stepping gives the same index as the written one |
| WallOfFame.SlideShowsFullPage | src/components/WallOfFame.tsx:52-106 | After either arrow, the carousel shows a full page, or every entry when there are fewer than a page |
| WallOfFame.DotStarts | src/components/WallOfFame.tsx:82-92 | The page dots jump to exactly the entries whose index is a multiple of the page size; the first entry always has one |
| WallOfFame.DotShowsSomeCards | src/components/WallOfFame.tsx:82-106 | A dot's start index shows between one card and a full page |
| WallOfFame.DotPastLastPosition | src/components/WallOfFame.tsx:52-92 | With five entries and three per page, the dot for entry 3 lies past the last arrow position, 2, and the arrows bring it back into range |
| WallOfFame.Letters | src/components/WallOfFame.tsx:120 | The e-mail with every non-letter removed: only ASCII letters, no longer than the input |
| WallOfFame.LettersAppend | src/components/WallOfFame.tsx:120 | Removing non-letters keeps order: the letters of a concatenation are the concatenated letters |
| WallOfFame.LettersKeepsEveryLetter | src/components/WallOfFame.tsx:120 | Every letter is kept as often as it occurs, and nothing else is |
| WallOfFame.LettersOfLetters | src/components/WallOfFame.tsx:120 | A string of letters only is left as it is |
| WallOfFame.DisplayName | src/components/WallOfFame.tsx:120 | The card's name is the first eight letters of the e-mail, or all of them when there are fewer |
| MasterMoves.PrevExercise | src/components/MasterMoves.tsx:15-17 | Stays a valid index. The first wraps to the last, otherwise one back; equal to stepping back modulo four |
| MasterMoves.NextExercise | src/components/MasterMoves.tsx:19-21 | Stays a valid index. The last wraps to the first, otherwise one forward; equal to stepping forward modulo four |
| MasterMoves.PrevNextInverse | src/components/MasterMoves.tsx:15-21 | Back undoes forward and forward undoes back |
| MasterMoves.NextTimes | src/components/MasterMoves.tsx:19-21 | Any number of forward presses keeps the index valid |
| MasterMoves.NextTimesIsModular | src/components/MasterMoves.tsx:19-21 | k forward presses move the index k places modulo the number of exercises |
| MasterMoves.FullCycleReturns | src/components/MasterMoves.tsx:5-21 | Four forward presses return to the same exercise |
| StreakTracker.InitialCard | src/components/StreakTracker.tsx:5-6 | The first render shows the week from today with all figures zero |
| StreakTracker.WeekDays | src/components/StreakTracker.tsx:12 | Seven consecutive days from the start date |
| StreakTracker.InWeek | src/components/StreakTracker.tsx:12 | A day is in the window iff it lies in the seven days from the start |
| StreakTracker.WorkoutDays | src/components/StreakTracker.tsx:21-25 | The number of completed-day entries in the window, never more than the entries |
| StreakTracker.WorkoutDaysCountsEachDay | src/components/StreakTracker.tsx:21-25 | That number is the sum, over the seven days, of how often each occurs among the completed days (a repeated day counts each time) |
| StreakTracker.WeekStreak | src/components/StreakTracker.tsx:28 | The server's week streak with at least three workouts, zero otherwise |
| StreakTracker.Refresh | src/components/StreakTracker.tsx:14-41 | Without an e-mail, or when the request fails, the card is unchanged. Otherwise best streak and completed days are stored as received, and the week streak is kept only with at least three workouts in the shown week |
| StreakTracker.RefreshedStreak | src/components/StreakTracker.tsx:21-34 | A refreshed week streak is the server's or zero. It is zero whenever the shown week holds fewer than three completed-day entries |
| StreakTracker.Back | src/components/StreakTracker.tsx:59 | The back arrow shows the week seven days earlier, figures unchanged |
| StreakTracker.Forward | src/components/StreakTracker.tsx:82 | The forward arrow shows the week seven days later, figures unchanged |
| StreakTracker.BackForwardInverse | src/components/StreakTracker.tsx:59-82 | Back then forward, and forward then back, show the same week |
| StreakTracker.ForwardWindowFollows | src/components/StreakTracker.tsx:12-82 | The week after starts the day after the shown week ends; the week before ends the day before it starts |
| StreakTracker.Highlighted | src/components/StreakTracker.tsx:65-75 | Day i of the window is highlighted iff that day is among the completed days |
| StreakTracker.HighlightedAtMostWorkouts | src/components/StreakTracker.tsx:21-75 | The highlighted days of a week are never more than the workouts counted for it |

## Left out

- The camera, the pose-landmarker library and canvas drawing are not modelled. A frame's landmarks are an input.
- `calculateAngle` is not modelled because it uses square roots and arc-cosines. The two elbow angles are inputs of `Touching`. A NaN angle fails both comparisons, as an out-of-range angle does.
- Floating point is not modelled. Coordinates are exact reals, the 0.07 and 0.05 thresholds are exact fractions, and comparisons have no rounding.
- Scheduling is not modelled: `requestAnimationFrame`, `setInterval`, `setTimeout` and the one-second debounce delay. Each frame, interval firing and timer firing is an explicit method call, in any order the caller chooses.
- Clock readings are not modelled. `Date.now()` is a `now` parameter, and the two readings in `detectPlank` are treated as one.
- Network requests are not modelled. The profile request is `ProfileLoaded`, a save's outcome is a parameter, and the streak response is an optional value.
- Saves are atomic in the model, because the race between an awaited save and frames, ticks or a reset arriving meanwhile is a concurrency matter.
- `Session.SaveResponse`: a 2xx answer whose body is empty or not JSON (a 204, say) makes `response.json()` throw before any counter is cleared. It behaves as `Unreachable`, not as `Accepted`.
- Squats.SquatCounter.RunPoseDetection: gated by the current tracking flag. In the view, a stop that comes before the pose library has finished loading cancels nothing. The loop that starts afterwards has read tracking as on and keeps counting squats after the stop. That start/stop race is a matter of timing and is not modelled.
- StreakTracker.Refresh: each streak fetch is treated as atomic and is counted against the week shown when its answer arrives. In the view, the workouts are counted against the week of the render that sent the request, and an earlier request is never cancelled. An answer that arrives after Back or Forward can therefore set a week streak computed for the previous week. That race is not modelled.
- Dates are day numbers. The streak card's date strings, time zones and `format` are not modelled.
- `Pushup.PushupCounter.StartTimer`: requires the counter to be stopped, because the view only offers Start while stopped. A second start while running would leak the first interval, and that is not modelled.
- The shoulder-tap view's `leftTapState` and `rightTapState` are not modelled because nothing reads them. Its count is never saved or reset.
- The Wall of Fame's leaderboard fetch, its loading and error states, and the "view all" list are not modelled. Its start index is not re-clamped when a resize changes the page size, and that case is not modelled either.
- Tutorials, toggles, animations and the other views and routes of the application are not modelled, because they hold no logic of these views.

## Findings

| source | as written | input that shows it | evidently intended | confidence | as-written member | corrected member |
|---|---|---|---|---|---|---|
| src/components/PlankTimer.tsx:59-129 | The detection loop is created once at mount. It calls the first render's `detectPushup` and `detectPlank`, which read that render's `isRunning`, false, so both always return early | Start the timer, then show a frame with elbows lowered and the hip level with the shoulder: count, position and hold stay unchanged | The detectors run while the timer runs | not executed | Plank.LoopFrameAsWritten, Plank.AsWrittenIgnoresRunningTimer | Plank.LoopFrame, Plank.PlankTimer.RunPoseDetection |
| src/components/WallOfFame.tsx:52-62 | The arrows take the index modulo `length - itemsPerPage + 1`. That is 0 when there is one entry fewer than a page, so the index becomes NaN and `slice(NaN, NaN)` shows nothing | Two leaderboard entries on a screen at least 640 wide, then press either arrow | With fewer entries than a page, the only start position is 0 | not executed | WallOfFame.NextSlideAsWritten, WallOfFame.TwoEntriesOnWideScreenVanish | WallOfFame.NextSlide, WallOfFame.Positions, WallOfFame.SlideShowsFullPage |
