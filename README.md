# YouTube TOP handover coordinator, modelled in Dafny

This project models the core of `YouTubeTOP`. It is a TouchDesigner texture operator (TOP) that plays web videos through two stream controllers, "main" and "spare". At any time one controller holds the *active* role, and its frames are shown. The other holds the *handover* role: it pre-buffers the next video, so that a switch can be seamless.

The host drives the operator once per cycle:

- `getGeneralInfo` reads one status snapshot from each controller.
- `getOutputFormat` moves the device out of `None` once the active video is known. It applies pending start-time seeks and declares a handover `Ready` when its buffer is at least 90% full.
- `execute` refreshes the playback parameters from the host inputs. It then either starts a load, when the desired URL is neither controller's, or advances ordinary playback. Ordinary playback covers the swap to a ready handover, pause, one-shot seek and speed, and the looping restart through the same transition. Frames are rendered while the device is `Running`.
- Decoded frames arrive asynchronously through `onFrameRendering`. Only deliveries from the active controller while `Running` are kept.

Modules:

- `TouchInputs` (`inputs.dfy`): the fixed table of host inputs and the read helpers `getFloatValue`, `getBoolValue`, `updateFloatValue` and `getStringValue`. The last one strips `\r` and `\n`. These helpers are pure functions that return `(found, value)` or `(found, updated, value)`.
- `PlaybackParameters` (`parameters.dfy`): the parameter record, and `Refresh`, the function that specifies `updateParameters`.
- `StreamControl` (`stream_controller.dfy`): the stream controller as an abstract object. Its `status` snapshot is published by the media backend. Every command sent to it is appended to its `commands` log.
- `TopStatus` (`top_status.dfy`): the two state variables, their display strings and the information table's row names.
- `Handover` (`handover.dfy`): the decisions as pure functions. These are the role swap, the swap permission, the load and readiness guards, the playback status and the start-time conversion.
- `YouTube` (`youtube_top.dfy`): the operator as a class.
  - Its fields are the source's fields. The controllers are object references whose roles are exchanged in place.
  - The frame buffer is a byte sequence, and rendered frames are appended to a log.
  - `execute` and `getOutputFormat` are methods made of smaller methods, one per branch of the source, each with a contract on the new state.
  - The outcome of each branch of `execute` is defined once, as a predicate over the new state and a `Snapshot` of the state the branch started from. `Loaded` covers the load branch; `Advanced` covers the swap and ordinary playback. `Load`, `Advance`, `Respond` and `Execute` all state their outcome through these two predicates, and the start-time bookkeeping through `StartTimeConsumed`.

The class invariant `Valid()` states two things:

- the active and handover roles are held by two distinct controllers, one role each;
- seamless mode keeps the switch cue down.

Every method preserves it.

Points kept exactly as written:

- **Always-true inner guard.** Once a load is needed, the inner guard of the Running branch always holds (`RestartsHandover`, `LoadRestartsHandover`).
- **Format condition.** The condition for reporting the handover format, `!seamless || (seamless && switchCue)`, reduces to `!seamless` under the invariant (`FormatFollowsHandover`, `GetOutputFormat`).
- **Start-time truncation.** The start time truncates the seconds before multiplying by 1000 (`StartTimeMs`, `StartTimeDropsFraction`).
- **Switch cue.** The cue is raised only through the "updated" flag of `updateFloatValue`. It is cleared only by `performTransition`, or forced down in seamless mode.

One-shot parameter flags behave as the code does, not as a one-cycle flag would:

- `isNewEndTime` is never lowered;
- `isNewSeekValue` and `isNewPlaybackSpeed` are lowered only when ordinary playback consumes them;
- `isNewStartTime` is lowered each time `execute` consumes it.

## Model

| member | source | states |
|---|---|---|
| TouchInputs.Slot | msvs/youtube_top.cpp:107-139 | every logical input sits at a position below 10, in one of the 4 channels of that input |
| TouchInputs.SlotNames | msvs/youtube_top.cpp:128-139 | the URL comes from a string input and all others from float inputs; each input is named after its position ("value3" at position 3) |
| TouchInputs.SlotsDistinct | msvs/youtube_top.cpp:128-139 | two different logical inputs have different slots: they differ in position, in channel or in the required input name |
| TouchInputs.GetFloatValue | msvs/youtube_top.cpp:745-757 | found exactly when the input at the slot's position exists and carries the slot's name; then the value is that channel, otherwise the caller's value is kept |
| TouchInputs.HostWriteReadBack | msvs/youtube_top.cpp:745-757 | a value the host writes into a slot's channel is read back from that slot, and reads of other slots are unaffected |
| TouchInputs.GetBoolValue | msvs/youtube_top.cpp:778-790 | when present, the switch is on exactly when the channel exceeds 0.5; otherwise the caller's value is kept |
| TouchInputs.UpdateFloatValue | msvs/youtube_top.cpp:759-776 | the value changes only when the input is present, and then to the channel; the flag afterwards is "was raised or the value changed", so it is never lowered |
| TouchInputs.RemoveAll | msvs/youtube_top.cpp:737-738 | the result has no occurrence of the character, keeps the count of every other character, and is the input when the character does not occur |
| TouchInputs.RemoveAllAppend | msvs/youtube_top.cpp:737-738 | removal distributes over concatenation |
| TouchInputs.StripLineBreaks | msvs/youtube_top.cpp:737-738 | the result has no `\r` or `\n`, keeps every other character's count, and leaves a string without line breaks unchanged |
| TouchInputs.StripLineBreaksAppend | msvs/youtube_top.cpp:737-738 | stripping distributes over concatenation, so the kept characters keep their order |
| TouchInputs.StripLineBreaksIdempotent | msvs/youtube_top.cpp:737-738 | stripping twice is stripping once |
| TouchInputs.GetStringValue | msvs/youtube_top.cpp:730-743 | when the string slot is present the value is its text stripped of line breaks; otherwise the caller's value is untouched |
| PlaybackParameters.Refresh | msvs/youtube_top.cpp:629-649 | the URL follows a present input, stripped; pause, loop and blackout follow the 0.5 threshold; the stored seek, speed, start and end values follow a present input and are kept otherwise; each "is new" flag is up iff it was up or its value changed; seamless mode is on unless "switch on cue" reads on; in seamless mode the cue is down and its value kept, otherwise the cue value follows a present input and the cue is edge-triggered, so releasing it raises it too |
| PlaybackParameters.RefreshDeliversOnce | msvs/youtube_top.cpp:629-649 | after the consumer lowers the flags, refreshing from the same inputs raises none and changes nothing |
| TopStatus.StatusString | msvs/youtube_top.cpp:185-200 | every status has a non-empty name other than the "N/A" fallback |
| TopStatus.StatusStringInjective | msvs/youtube_top.cpp:185-200 | different statuses get different names |
| TopStatus.HandoverStatusString | msvs/youtube_top.cpp:202-217 | every handover status has a non-empty name other than "N/A" |
| TopStatus.HandoverStatusStringInjective | msvs/youtube_top.cpp:202-217 | different handover statuses get different names |
| TopStatus.InfoDatSize | msvs/youtube_top.cpp:461-470 | the table has one row per row name (19) and 2 columns |
| TopStatus.ChannelName | msvs/youtube_top.cpp:448-459 | an index naming a row gives that row's non-empty name; any other index leaves the channel name as it was |
| Handover.SwapRoles | msvs/youtube_top.cpp:673-684 | from any assignment the result is a valid one over the two controllers; from a valid one the roles are exchanged |
| Handover.SwapTwiceRestores | msvs/youtube_top.cpp:673-684 | two swaps restore a valid assignment |
| Handover.CanSwitch | msvs/youtube_top.cpp:374-375 | the swap permission as written equals "seamless mode or a cue" |
| Handover.FormatFollowsHandover | msvs/youtube_top.cpp:303-304 | the condition as written equals "not seamless or a cue", and under the seamless-mode invariant just "not seamless" |
| Handover.RestartsHandover | msvs/youtube_top.cpp:356-357 | whenever the URL differs from the handover controller's the condition holds; it fails only for an Initiated handover of the same URL |
| Handover.LoadRestartsHandover | msvs/youtube_top.cpp:327-357 | once a load is needed, a running device always (re)starts the handover |
| Handover.NeedLoad | msvs/youtube_top.cpp:327 | a load is needed exactly when the desired URL is neither the active nor the handover controller's |
| Handover.BecomesReady | msvs/youtube_top.cpp:286-299 | the handover becomes Ready when its video info is known, a handover was initiated and its buffer is at least 90% full |
| Handover.LoopRestart | msvs/youtube_top.cpp:399-410 | an ended stream is restarted exactly when the device is unpaused and looping, and the device then settles in ReadyToRun |
| Handover.PlaybackStatus | msvs/youtube_top.cpp:399-410 | ordinary playback never leaves the device in None, and it is Running exactly when not paused and the stream has not ended |
| Handover.Truncate | msvs/youtube_top.cpp:335 | conversion to int truncates toward zero |
| Handover.StartTimeMs | msvs/youtube_top.cpp:335 | the start time is a whole number of seconds in milliseconds, never further from zero than the exact value and less than a second closer |
| Handover.StartTimeDropsFraction | msvs/youtube_top.cpp:335 | 1.5 s gives 1000 ms where 1500 ms would be exact |
| StreamControl.StreamController.Play | msvs/youtube_top.cpp:360-368 | a play command for the URL is appended to the controller's log |
| StreamControl.StreamController.Stop | msvs/youtube_top.cpp:348-349 | a stop command is appended |
| StreamControl.StreamController.Pause | msvs/youtube_top.cpp:384 | a pause command with the flag is appended |
| StreamControl.StreamController.Seek | msvs/youtube_top.cpp:386-390 | a seek to the position is appended |
| StreamControl.StreamController.SeekToStart | msvs/youtube_top.cpp:276-281 | a seek to start/total is appended, unevaluated |
| StreamControl.StreamController.SetPlaybackSpeed | msvs/youtube_top.cpp:392-397 | a speed command is appended |
| YouTube.YouTubeTop.constructor | msvs/youtube_top.cpp:220-233 | controllers "main" (active) and "spare" (handover), status None, no handover, initial parameters, execute count 0 |
| YouTube.YouTubeTop.GetGeneralInfo | msvs/youtube_top.cpp:240-253 | asks to cook every frame, reads both snapshots, keeps the host's clear-buffers flag only while the status is None |
| YouTube.YouTubeTop.InitTexture | msvs/youtube_top.cpp:609-627 | the frame buffer is replaced by one of the active video's frame size |
| YouTube.YouTubeTop.RenderBlackFrame | msvs/youtube_top.cpp:651-657 | the buffer becomes a frame of zeros of the active size, and that frame is rendered |
| YouTube.YouTubeTop.OnFrameRendering | msvs/youtube_top.cpp:595-607 | a delivery is copied and marked new exactly when it is tagged with the current active controller and the device is Running; otherwise nothing changes |
| YouTube.YouTubeTop.SwapControllers | msvs/youtube_top.cpp:672-688 | the roles are exchanged (as SwapRoles says), the invariant is kept, and both snapshots are re-read |
| YouTube.YouTubeTop.PerformTransition | msvs/youtube_top.cpp:659-670 | status ReadyToRun, no handover, cue cleared, roles exchanged; the old active controller is stopped and, now handover, told to play the current URL; the new active controller gets no command |
| YouTube.YouTubeTop.GetOutputFormat | msvs/youtube_top.cpp:255-315 | reported format (handover's when it becomes ready outside seamless mode, else the active one's once known, else the host's); None to ReadyToRun only when the active video is known; Ready only from Initiated with a known, ≥90% buffered handover; start-time adjustments and the seeks issued |
| YouTube.YouTubeTop.ActiveFormat | msvs/youtube_top.cpp:263-284 | active part of getOutputFormat: format, leaving None with a sized buffer, the pending seek, and dropping the active adjustment |
| YouTube.YouTubeTop.HandoverFormat | msvs/youtube_top.cpp:286-312 | handover part: the pause, the pending seek and its adjustment, readiness, and the handover format when permitted |
| YouTube.YouTubeTop.UpdateParameters | msvs/youtube_top.cpp:629-649 | the new parameters are Refresh of the old ones and the inputs; the invariant is kept |
| YouTube.YouTubeTop.ConsumeStartTime | msvs/youtube_top.cpp:329-338 | `StartTimeConsumed`: a new start time is converted to milliseconds and its flag lowered, the active adjustment is armed iff the start lies ahead of the active position, and the handover adjustment is armed; without one, the start time and both adjustments are kept; the branch's starting state is untouched |
| YouTube.YouTubeTop.Load | msvs/youtube_top.cpp:341-371 | `Loaded`: the roles and both snapshots are kept; empty URL: None, no handover, frame mark cleared, both controllers stopped, black frame rendered; Running: handover Initiated and only the handover controller plays the URL; otherwise None and both play it |
| YouTube.YouTubeTop.Swaps | msvs/youtube_top.cpp:374-377 | the no-load branch swaps exactly when the handover is Ready and seamless mode is on or a cue is raised |
| YouTube.YouTubeTop.Advance | msvs/youtube_top.cpp:372-437 | `Advanced`: a Ready handover that seamless mode or a cue permits is swapped in (roles exchanged, cue lowered, no handover, the old active controller stopped and re-armed with the URL, both snapshots re-read); a device past None then gets the pause, one-shot seek and speed commands, settles as PlaybackStatus says from the (new) active stream, restarts an ended looping stream by a second transition that also re-reads the snapshots and re-arms the handover start-time adjustment, and renders only while Running (a black buffer under blackout, the received frame otherwise); a device in None without a swap is unchanged, frame buffer, snapshots and adjustment included; Ready is never entered |
| YouTube.YouTubeTop.SwapAndPlay | msvs/youtube_top.cpp:377-437 | the swap case of `Advanced`: the transition followed by ordinary playback of the new active controller |
| YouTube.YouTubeTop.SwapThenPlayback | msvs/youtube_top.cpp:377-437 | playback's outcome from the state a swap leaves is the swap outcome of `Advanced` from the state before it |
| YouTube.YouTubeTop.SwapThenRestart | msvs/youtube_top.cpp:377-412 | the same when the swapped-in stream has ended and loops, so a second transition swaps the roles back |
| YouTube.YouTubeTop.SwapThenPlayOn | msvs/youtube_top.cpp:377-436 | the same when the swapped-in stream plays on |
| YouTube.YouTubeTop.PlayOn | msvs/youtube_top.cpp:382-436 | without a permitted swap pending, ordinary playback has the outcome `Advanced` states |
| YouTube.YouTubeTop.Playback | msvs/youtube_top.cpp:382-436 | the status settles as PlaybackStatus says; seek and speed are sent once and their flags lowered; the commands each controller receives; a looping restart is a transition that re-arms the handover adjustment; frames are rendered only while Running |
| YouTube.YouTubeTop.SendPlaybackCommands | msvs/youtube_top.cpp:384-397 | the pause switch, the one-shot seek (active only) and speed (both controllers), with their flags lowered |
| YouTube.YouTubeTop.SettleStatus | msvs/youtube_top.cpp:399-416 | the status as PlaybackStatus says; an ended, looping, unpaused stream goes through the transition, re-arms the handover adjustment and pauses the new active controller as configured |
| YouTube.YouTubeTop.SettleAndRender | msvs/youtube_top.cpp:399-435 | SettleStatus followed by rendering while Running |
| YouTube.YouTubeTop.RenderFrame | msvs/youtube_top.cpp:422-435 | blackout renders a black frame; otherwise a newly arrived frame is rendered once and its mark consumed |
| YouTube.YouTubeTop.Respond | msvs/youtube_top.cpp:325-437 | the load decision is taken on the parameters before the start time is consumed; the start time and active adjustment follow `StartTimeConsumed`; a needed load has the outcome `Loaded` with the start-time flag lowered and the handover adjustment armed by a new start time; otherwise the outcome is `Advanced` from the parameters with that flag lowered and the handover adjustment as the start time left it; Ready is never entered |
| YouTube.YouTubeTop.ConsumeThenLoad | msvs/youtube_top.cpp:329-371 | the start time is consumed as `StartTimeConsumed` says, a new one arming the handover adjustment, then the load branch has the outcome `Loaded` |
| YouTube.YouTubeTop.ConsumeThenAdvance | msvs/youtube_top.cpp:329-437 | the start time is consumed as `StartTimeConsumed` says, then the no-load branch has the outcome `Advanced`, starting from a handover adjustment armed by a new start time |
| YouTube.YouTubeTop.Execute | msvs/youtube_top.cpp:318-438 | the count grows by one; on the refreshed parameters the start time is consumed as `StartTimeConsumed` says, a needed load has the outcome `Loaded` and otherwise the outcome is `Advanced`, with the handover adjustment armed by a new start time and re-armed by a looping restart; Ready is never entered |

## Left out

- OpenGL texture creation, deletion and upload (`createVideoTexture`, `renderTexture`, `glIsTexture`, the `GetError` macro). A render is modelled as a frame appended to the `rendered` log.
- The stream controllers' implementation, on top of VLC. A controller is an object whose status is published by the backend and whose commands are logged. Frame callbacks are the `OnFrameRendering` method, tagged with the controller. `youtube_top.h` and the controller sources are not part of this model.
- Locking (`ScopedLock`) and the decoder thread that calls `onFrameRendering`. The callback is a sequential method.
- Raw memory. `malloc` becomes a buffer of the frame size with unspecified contents, `memset` a buffer of zeros, and `memcpy` a copy of a frame-size prefix.
  - The source copies `frameSize_` bytes into a buffer sized when the texture was last created. If the active frame size changes in between, it can overrun. The model has no fixed-size allocation and cannot show this.
  - `OnFrameRendering` requires a delivered frame of at least one frame size, which the decoder guarantees and the source assumes.
- Floating point. Floats are mathematical reals: no NaN, no rounding, no `float` to `int` overflow. `Truncate` models the `(int)` cast for values in range.
- The seek fraction `startTime / totalTime` is recorded unevaluated, as `SeekToStart(startMs, totalMs)`.
- The declared types of `startTimeSec_` and of the video info fields are not visible. The start time is an integer number of milliseconds compared with the total time as integers. The initial values of `startTimeSec_`, `isFrameUpdated_` and `frameData_`, which the constructor does not set, are taken as 0, false and empty.
- `getInfoDATEntries` (formatted values), `getWarningString`, `getErrorString`, `getInfoPopupString` and `getNumInfoCHOPChans`, which returns the constant 1. These are display formatting. Only the row names and the table size are modelled.
- The DLL entry points `GetTOPAPIVersion`, `CreateTOPInstance` and `DestroyTOPInstance`, and the host's input layout. The inputs are a pair of sequences of named inputs.
- StartTimeMs: the product `(int)seconds * 1000` is computed on unbounded integers. In the source it is a 32-bit `int` product, which overflows once the truncated seconds reach 2147484 in magnitude. The stated bounds hold only below that.
