# Pavlov's mask bot, modelled in Dafny

This project models the decision and motion logic of a uArm Swift robot arm.
The arm hands a snack to a person the video analytics server reports as masked.
For a person reported as maskless, it picks up a mask and throws it towards them.

- `main.py` (module `Reaction`, file `reaction.dfy`) is the alert loop. Each packet of the zone-status stream is reduced to the alerts of every stream's full-frame zone. An alert is reactable when:
  - its id has not been handled;
  - its alarm is one of the two mask alarms in the startup catalog;
  - it started at least three seconds after the last reaction.

  The arm responds only when exactly one alert is reactable. It then plays the next sound of the matching cycle, picks up from the matching pile and, for a maskless person, throws. After that the alert's id joins the handled set and the reaction time is taken from the clock.
- `maskbot/actions.py` (module `Actions`, file `actions.dfy`) is the pickup move:
  - move over the pile and switch the pump on;
  - wait for the move to finish;
  - dive 100 mm;
  - step down in polar increments with an alternating wiggle until the limit switch closes or the step budget `|max_down // down_increment|` runs out;
  - pause, then rise to height 165.
- `maskbot/recording.py` (module `Recording`, file `recording.dfy`) covers waypoint recordings:
  - the pose sample and its equality, which ignores the timestamp;
  - the Euclidean distance between samples;
  - recording waypoints from keyboard prompts while the limit switch toggles the pump;
  - replaying a recording at speed `min(distance / duration, max_speed)`.

Everything the arm is told to do, plus the sounds and pauses, is appended to the `log` of a `Bot` object (`arm.dfy`, module `Arm`). Each imperative method is proved to append exactly the commands given by a specification function:
- `Actions.Pickup` appends `Actions.PickupScript`;
- `Recording.RobotRecording.Create` appends `Recording.RecordScript`;
- `Recording.RobotRecording.Play` appends `Recording.PlayScript`;
- `Reaction.RespondToPerson` appends `Reaction.RespondScript`;
- `Reaction.ReactionController.Run` appends the log of `Reaction.RunLoop`.

The lemmas state the source's promises about those functions. Values the program reads from the outside world are parameters of the model: keyboard lines, arm positions, limit-switch readings and clock values.

Python semantics written out:
- `//` is floor division (`Actions.FloorDiv`);
- `int()` truncates toward zero (`Recording.Trunc`);
- `[2, -2][i % 2 == 0]` is -2 on even steps (`Actions.Wiggle`);
- the alarm dictionary comprehension keeps the last alarm with a given id;
- comparing a pose with `None` is false, so the first sample is always stored;
- a stream without the full-frame zone (`KeyError`) and an empty sound directory (`StopIteration` from the cycle) end the loop with a `StepError`.

The docstring of `create` (maskbot/recording.py:74-77) says recording stops when the callback returns true. Line 80 only assigns `callback`, and nothing calls it. The loop ends only at the keyboard line `q` (line 93). The model follows the code.

## Model

| member | source | states |
|---|---|---|
| Actions.FloorDiv | maskbot/actions.py:29 | Python's `//`: the quotient rounded toward minus infinity, for both signs of the divisor |
| Actions.Abs | maskbot/actions.py:29 | `abs` of the step budget is non-negative and equals `n` or `-n` |
| Actions.DescentBound | maskbot/actions.py:29 | the step budget `abs(max_down // down_increment)`: going down, the fewest steps of `abs(down_increment)` that cover `max_down`; going up, the most whole steps that fit in it |
| Actions.DefaultDescentBound | maskbot/actions.py:16-29 | with the defaults 100 and -3, `100 // -3` is -34, so the descent has at most 34 steps |
| Actions.Wiggle | maskbot/actions.py:36 | the sideways wiggle is -2 exactly on even steps and 2 exactly on odd steps |
| Actions.WiggleAlternates | maskbot/actions.py:35-36 | consecutive wiggles have opposite signs |
| Actions.FirstContact | maskbot/actions.py:29-31 | the number of descent steps taken: within the budget, no switch reading before it, and the switch closed at it unless the budget ran out |
| Actions.Descent | maskbot/actions.py:32-39 | the k-th descent step is a relative polar move of `down_increment` with the k-th wiggle at speed 150 |
| Actions.PickupScript | maskbot/actions.py:16-49 | reference definition of everything a pickup issues: the setup, the descent up to the first contact, the pause and the ascent; `Actions.Pickup` is proved to issue it and `Actions.PickupShape`, `Actions.PickupPolarCount` and `Actions.NeverHitShortDescent` state its properties |
| Actions.Pickup | maskbot/actions.py:16-49 | appends exactly the pickup script to the arm's log; `neverHit` holds iff no reading within the budget closed the switch (the `for`/`else` branch) |
| Actions.PickupPolarCount | maskbot/actions.py:27-39 | the number of polar moves issued equals the number of readings before the first contact, capped by the budget |
| Actions.PickupShape | maskbot/actions.py:20-49 | a pickup starts with the move over the pile at speed 25 without waiting, pump on, the wait and the 100 mm dive; it ends with a 0.5 s pause and the rise to height 165 at the pile's x and y |
| Actions.NeverHitShortDescent | maskbot/actions.py:29-42 | with budget `9 // -3`, a switch that never closes gives exactly three wiggled steps between the dive and the pause |
| Recording.SameStateIff | maskbot/recording.py:25-34 | two samples are equal iff x, y, z and pump are equal; the timestamp is ignored |
| Recording.SameStateIgnoresTime | maskbot/recording.py:29-33 | changing only a sample's time keeps it equal to itself |
| Recording.SameStateIsEquivalence | maskbot/recording.py:25-34 | sample equality is reflexive, symmetric and transitive |
| Recording.SameState | maskbot/recording.py:25-34 | reference definition of `__eq__`: the two field maps with `time` removed are equal; `Recording.SameStateIff`, `Recording.SameStateIgnoresTime` and `Recording.SameStateIsEquivalence` state its properties |
| Recording.Distance | maskbot/recording.py:20-23 | reference definition of `distance` as the norm of the coordinate differences; `Recording.DistanceIsEuclidean`, `Recording.DistanceSymmetric` and `Recording.DistanceZeroIffSamePosition` state its properties |
| Recording.DistanceIsEuclidean | maskbot/recording.py:20-23 | the distance is non-negative and its square is the sum of the squared coordinate differences |
| Recording.DistanceSymmetric | maskbot/recording.py:20-23 | the distance from a to b equals the distance from b to a |
| Recording.DistanceZeroIffSamePosition | maskbot/recording.py:20-23 | the distance is zero iff the two samples have the same position |
| Recording.Trunc | maskbot/recording.py:61-63 | `int()` on a float truncates toward zero for both signs |
| Recording.ReplaySpeed | maskbot/recording.py:55-57 | given the rate `distance / duration`, the replay speed never exceeds `max_speed` or the rate, and it is one of the two |
| Recording.ReplaySpeedClampScenario | maskbot/recording.py:45-57 | a 500 mm move in 0.1 s is replayed at the 150 cap |
| Recording.QuitIndex | maskbot/recording.py:93 | the prompt loop ends at the first line `q`: no earlier line is `q` |
| Recording.RobotRecording.Create | maskbot/recording.py:69-112 | the recording stores exactly the deduplicated samples; the arm receives pump off and then one pump command per switch press; `finished` holds iff a `q` line was read |
| Recording.RobotRecording.AddState | maskbot/recording.py:114-115 | appends one sample to the recording |
| Recording.Recorded | maskbot/recording.py:93-107 | reference definition of the samples the recording loop appends, comparing each new sample with the last appended one; its properties are the lemmas in the rows below |
| Recording.RecordedHasNoRepeats | maskbot/recording.py:103-107 | no stored sample equals the previous one, or the last sample kept before recording resumed |
| Recording.Samples | maskbot/recording.py:93-102 | one sample is built per prompt before the `q`, with the pump as toggled so far |
| Recording.RecordedCoversSamples | maskbot/recording.py:101-107 | deduplication loses nothing: every prompt's sample equals, ignoring time, a stored sample or the sample kept before recording resumed |
| Recording.RecordedFromSamples | maskbot/recording.py:101-107 | every stored sample is the sample of some prompt before the `q` |
| Recording.KeepChanges | maskbot/recording.py:101-107 | an independent statement of the dedup rule: keep a prompt's sample exactly when it differs, ignoring time, from the previous prompt's; it never keeps more samples than it is given and always keeps the first when nothing came before |
| Recording.RecordedKeepsChanges | maskbot/recording.py:93-107 | the recording loop stores exactly `KeepChanges` of the prompts' samples: a sample is stored if and only if it differs from the previous prompt's sample |
| Recording.ReturnToEarlierPoseStored | maskbot/recording.py:101-107 | three prompts at poses A, B, A without a press store all three samples, because only the previous sample is compared |
| Recording.RecordedLength | maskbot/recording.py:93-107 | at most one sample is stored per prompt before the `q` |
| Recording.RecordedStartsWithFirstReading | maskbot/recording.py:83-107 | the first prompt is always stored, with the pump on iff the switch was pressed then and the time measured from the start |
| Recording.RepeatedPoseStoredOnce | maskbot/recording.py:101-106 | two prompts at the same pose without a switch press store a single sample |
| Recording.RecordedTimesSorted | maskbot/recording.py:101-102 | with a non-decreasing clock the stored timestamps are non-decreasing |
| Recording.PumpCommands | maskbot/recording.py:93-99 | reference definition of the `set_pump` calls made in the prompt loop; `Recording.PumpCommandsAlternate` and `Recording.PumpCommandsCount` state its properties |
| Recording.RecordScript | maskbot/recording.py:83-99 | reference definition of everything `create` sends to the arm: pump off, then the prompt loop's pump commands; `Recording.RobotRecording.Create` is proved to issue it |
| Recording.PumpCommandsAlternate | maskbot/recording.py:83-99 | the pump commands issued while recording alternate on, off, on, ...: the pump starts off and each press flips it |
| Recording.PumpCommandsCount | maskbot/recording.py:97-99 | one pump command is issued per switch press |
| Recording.Presses | maskbot/recording.py:97 | switch presses are counted only up to the `q` line |
| Recording.RobotRecording.Play | maskbot/recording.py:45-67 | appends exactly the replay script: the setup move at speed 100, pump off, then each pair's move and pump change, in order |
| Recording.ReplayAll | maskbot/recording.py:54-67 | the loop of `play` appends exactly the commands of every consecutive pair, in order |
| Recording.IssuePlaySetup | maskbot/recording.py:46-51 | appends the move to the first sample at speed 100, then pump off |
| Recording.ReplayPair | maskbot/recording.py:55-66 | one loop pass: a single move and, only when the pump differs, a pump command |
| Recording.ReplayMove | maskbot/recording.py:55-64 | one replay move is an absolute, waiting `set_position` to the truncated x and y of the next sample, with the truncated y in the z slot as written, at a speed no greater than `max_speed` |
| Recording.ReplayMoveSpeed | maskbot/recording.py:55-57 | the speed of a replay move is `min(distance / duration, max_speed)`: at most both, and equal to one of them |
| Recording.ReplayMoves | maskbot/recording.py:54-67 | reference definition of the loop's commands, pair by pair; `Recording.ReplayMoveCount`, `Recording.ReplaySpeedBounded`, `Recording.ReplayPumpOnlyOnChange` and `Recording.ReplayMovesPump` state its properties |
| Recording.PlayScript | maskbot/recording.py:45-67 | reference definition of everything `play` sends: the setup, then the replay moves; `Recording.RobotRecording.Play` is proved to issue it and `Recording.PlayFinalPump` states where the pump ends |
| Recording.ReplayMoveCount | maskbot/recording.py:54-64 | a recording of n samples replays n - 1 moves |
| Recording.ReplaySpeedBounded | maskbot/recording.py:55-64 | no replayed move is faster than `max_speed` |
| Recording.ReplayPumpOnlyOnChange | maskbot/recording.py:65-66 | every pump command follows a move and sets the pump to a sample whose pump differs from its predecessor's |
| Recording.ReplayMovesPump | maskbot/recording.py:65-66 | after the replay moves the pump is as the last sample has it if any pair changes it, and as before otherwise |
| Recording.PlayFinalPump | maskbot/recording.py:51-66 | after playing, the pump matches the last sample only if some pair changes it; otherwise it is off |
| Recording.ReplayDropsInitialPump | maskbot/recording.py:51-66 | a recording whose pump is on throughout is replayed with the pump off |
| Recording.HeldPumpTraceRecorded | maskbot/recording.py:93-107 | the trace used by `Recording.ReplayDropsInitialPump` is what the recording loop stores when the switch is pressed at the first of two prompts at distinct poses |
| Recording.ReplayIgnoresZ | maskbot/recording.py:60-64 | a sample at height 100 with y = 0 is replayed at height 0 |
| Recording.IntendedReplayTracksPump | maskbot/recording.py:51-66 | with the pump set from the first sample, the replay always ends with the pump as the last sample has it |
| Recording.IntendedReplayReachesSamples | maskbot/recording.py:60-64 | each corrected replay move goes to the truncated x, y and z of a sample |
| Recording.IntendedMove | maskbot/recording.py:60-64 | the corrected replay move goes to the truncated x, y and z of the next sample, at a speed no greater than `max_speed` |
| Reaction.AlarmCatalog | main.py:83-88 | the catalog maps only to the two mask alarm names, every mask alarm's id is in it, and every entry comes from a listed alarm |
| Reaction.Draw | main.py:78-81 | the cycle yields a file of the directory, and nothing for an empty directory |
| Reaction.DrawCycles | main.py:78-81 | the first round yields the sorted files in order; the next round starts again from the first |
| Reaction.OngoingAlerts | main.py:98-100 | the alerts are collected iff every stream has the full-frame zone; the result holds exactly the alerts of the streams' full-frame zones; otherwise the error names the first stream without that zone |
| Reaction.OngoingAlertsAppend | main.py:98-100 | the chain over two groups of streams is the first group's alerts followed by the second's, and the first missing zone wins; this fixes order and multiplicity |
| Reaction.OngoingAlertsSingle | main.py:98-100 | a single stream contributes exactly its full-frame zone's alerts, or a missing-zone error |
| Reaction.Reactable | main.py:103-108 | an alert is kept iff it is ongoing, unhandled, catalogued and debounced; each kept alert appears as often as among the ongoing alerts; the kept alerts keep their order |
| Reaction.ReactableIff | main.py:103-108 | an alert is reactable iff it is ongoing, its id is unhandled, its alarm is catalogued and it started no earlier than three seconds after the last reaction (the boundary counts) |
| Reaction.CanReact | main.py:105-107 | reference definition of the comprehension's condition; `Reaction.ReactableIff` states it as an if-and-only-if |
| Reaction.AmbiguousStepIsNoOp | main.py:115-116 | with zero or several reactable alerts the iteration changes nothing and dispatches nothing |
| Reaction.SoleReactableIsChosen | main.py:115-135 | when exactly one alert is reactable it is reacted to: the iteration fails iff the sound list of its alarm is empty; otherwise the alert is chosen, its id joins the handled set, the reaction time becomes `now`, and a mask alarm gets a response that throws exactly for the maskless alarm |
| Reaction.Step | main.py:96-135 | reference definition of one iteration's effect on the ledger and what it dispatches; `Reaction.AmbiguousStepIsNoOp` and `Reaction.SoleReactableIsChosen` state both directions of the exactly-one rule, and `Reaction.ReactionMarksHandled`, `Reaction.HandledGrowsByAtMostOne` and `Reaction.DispatchByCategory` state what a reaction does |
| Reaction.React | main.py:121-135 | reference definition of the dispatch on the chosen alert's alarm name; `Reaction.DispatchByCategory` states it per category and `Reaction.ReactionController.ReactTo` is proved to follow it |
| Reaction.ReactionMarksHandled | main.py:115-135 | a reaction picks the only reactable alert, adds exactly its new id to the handled set and sets the reaction time to the clock after the response |
| Reaction.HandledGrowsByAtMostOne | main.py:134 | the handled set never shrinks and gains at most one id per iteration |
| Reaction.DispatchByCategory | main.py:121-133 | a masked alert gets the next good sound at the snack pile without a throw; a maskless alert gets the next bad sound at the mask pile with the throw to (200, 0, 30); only the cycle drawn from advances |
| Reaction.MaskedScenario | main.py:94-135 | the first masked alert, started at time 10, is answered with the first good sound at the snack pile and becomes the only handled id |
| Reaction.MasklessScenario | main.py:94-135 | the first maskless alert, started at time 10, is answered with the first bad sound at the mask pile and the throw to (200, 0, 30), and becomes the only handled id |
| Reaction.TwoReactableScenario | main.py:103-116 | two simultaneously reactable alerts are both ignored |
| Reaction.RespondOrder | main.py:22-46 | a response is: home at speed 100, the sound, the pickup, home at speed 30, the optional throw, pump off, a one-second pause, home at speed 50 |
| Reaction.RespondScript | main.py:22-46 | reference definition of everything `respond_to_person` issues; `Reaction.RespondOrder` states its order and `Reaction.RespondToPerson` is proved to issue it |
| Reaction.RespondToPerson | main.py:22-46 | appends exactly that response to the arm's log |
| Reaction.IssueFinale | main.py:39-46 | appends the moves after the pickup |
| Reaction.ReactionController.Iterate | main.py:96-135 | one iteration updates the ledger as `Reaction.Step` says and appends the dispatched response; on an error it changes nothing |
| Reaction.ReactionController.ReactTo | main.py:121-135 | reacting to the chosen alert updates the ledger as `Reaction.React` says and appends the dispatched response; a missing sound changes nothing |
| Reaction.ReactionController.Run | main.py:91-135 | the loop over the stream ends with the ledger, log and error of `Reaction.RunLoop` |
| Reaction.Extend | main.py:95-135 | reference definition of one pass of the loop over the run so far: nothing after an exception, otherwise `Reaction.Step` and the dispatched response; `Reaction.RunLoopStopsAfterFailure` and `Reaction.RunNeverRepeats` state its properties |
| Reaction.RunLoop | main.py:95-135 | reference definition of the loop over a finite prefix of the stream, as a fold of `Reaction.Extend`; `Reaction.ReactionController.Run` is proved to follow it |
| Reaction.RunNeverRepeats | main.py:103-134 | over the whole loop the handled set only grows, and no alert id is reacted to twice or after it was handled |
| Reaction.RunLoopStopsAfterFailure | main.py:95-137 | after an exception the loop does nothing more |

## Left out

- I/O is not modelled. Keyboard lines, arm positions, limit-switch readings and clock values are parameters. The sound, the sleeps and the `get_is_moving` busy-wait appear in the log as single commands (`PlaySound`, `Sleep`, `WaitWhileMoving`).
- Floating point is modelled with reals. The square root in `distance` is a parameter `norm`, whose Euclidean property is assumed only where the distance lemmas require it. Rounding of float division is not modelled.
- The following are not part of this model:
  - `maskbot/sound.py`, `maskbot/user_helpers.py` (except the two alarm names) and `actions.prompt_get_position`;
  - saving and loading recordings;
  - argument parsing, the server connection, `SwiftAPI()`, `reset` and the home move at startup (main.py:49-77);
  - the `KeyboardInterrupt` handler, `print` and logging.
- The full-frame zone's name comes from the analytics client library; the model uses `"Screen"`.
- The `create` callback is left out: the code never calls it.
- Sound files are an input list assumed already sorted; `glob` and `sorted` are left out.
- The stream is infinite; the model runs the loop over a finite prefix of packets.
- Recording.RobotRecording.Play: requires a non-empty recording with distinct consecutive timestamps. The source raises `IndexError` or `ZeroDivisionError` there.
- Actions.Pickup: requires a non-zero `down_increment` (the source raises `ZeroDivisionError`) and at least as many switch readings as the step budget.
- Reaction.ReactionController.Iterate: the clock reading `time()` after the response is the parameter `now`.

## Findings

| source | as written | input that shows it | evidently intended | confidence | as-written member | corrected member |
|---|---|---|---|---|---|---|
| maskbot/recording.py:60-64 | replay sends `int(new_pos.y)` as the z coordinate | samples (0, 0, 100) then (10, 0, 100): the second is replayed at z = 0 | send `int(new_pos.z)` as z | high, not executed | Recording.ReplayIgnoresZ | Recording.IntendedReplayReachesSamples |
| maskbot/recording.py:51-66 | replay switches the pump off and turns it back on only when consecutive samples differ | a recording whose samples all have the pump on: it is replayed with the pump off | start the pump as the first sample has it | medium, not executed | Recording.ReplayDropsInitialPump | Recording.IntendedReplayTracksPump |
