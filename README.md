# vcs-chat-recording: recording overlay and session state, in Dafny

This project models the browser demo that records a Daily call with its
chat and emoji reactions drawn on the recording. While the local participant
owns the recording, three things go into the recording's layout:

* a text overlay showing the last 15 chat lines, joined by `"\r\n"`;
* an image overlay for each of four known reaction emoji;
* an image-hiding layout sent one second after the last reaction.

The model covers these parts:

* the Record button's toggle and its label and disabled state, in both revisions;
* the event handlers of the call object;
* the chat and reaction senders;
* the selection of a participant's playable tracks;
* the tiles kept on the page for the participants.

## The model

* `util.dfy` (`Util`) holds `Option` and the truthiness of an optional boolean.
* `daily.dfy` (`Daily`) holds the call object.
  * It is an append-only log of the commands the page sends: start and stop recording, update the recording layout, write meeting session data, write user data, send an app message.
  * The layouts and app-message payloads are datatypes.
  * What the page reads from the SDK is a parameter of the method that reads it:
    * the meeting session's `isRecording`;
    * the participants map;
    * the local media state;
    * the local user data.
* `dom.dfy` (`Dom`) holds the class `Page`, with the parts of the page the code writes:
  * the participant tiles;
  * the chat transcript and the shown reactions;
  * the chat input;
  * the Record button;
  * the mic and cam labels;
  * the in-call buttons, as an `array<bool>` of disabled flags;
  * the join button;
  * the lobby and call visibility.

  `View()` is its value.
* `recording.dfy` (`Recording`) models `call/recording.js`.
  * The module state (`visibleMessages`, `reactionTimeout`, `recordingState.isRecordingOwner`) is the class `Recorder`.
  * Its methods are proved against pure functions over the value `Projector`:
    * `Update` for `updateRecording`;
    * `Fire` for the clear timer's callback;
    * `ToggleEffects` and `RecordButton` for the toggle and the button.
  * Properties over any sequence of events are lemmas about `Run`, which folds `Update` and `Fire` over a trace.
  * The reaction timer is the due time of the pending clear (`Some(now + 1000)`), and its firing is an explicit `TimerFires(now)` event.
  * The two random draws of a reaction image are a value `Ambient` passed in with each payload, along with the clock. Their ranges are subset types: height 2 to 5, opacity 5 to 10 tenths.
* `call.dfy` (`Call`) models `call/call.js`.
  * `getParticipantTracks` is a function.
  * The tile operations are methods on the page. The roster after any sequence of joins and leaves (`RosterRun`) is related to a set-based reference definition (`Present`).
* `chat.dfy` (`Chat`) models `call/chat.js`: the chat form's submit handler and the reaction buttons' click handler, each as a method whose contract fixes the order of effects.
* `controls.dfy` (`Controls`) models `call/controls.js`, the revision of the controls that the entry point does not import.
* `dispatcher.dfy` (`Dispatcher`) models the handlers that `src/index.js` registers on the call object.

### Where the code departs from the behaviour a reader would expect

The model follows the code.

* One might expect leaving a meeting to reset the recording state. `left-meeting` does not cancel a pending reaction clear, empty the overlay buffer or reset the ownership flag. `Dispatcher.OnLeftMeeting` leaves the `Recorder` as it was.
* One might expect every participant to keep the chat history that the overlay shows. A participant that does not own the recording never adds chat lines to its overlay buffer, because `updateRecording` returns before `getChatRecordingLayout` runs. If a participant becomes owner mid-recording, its buffer starts from whatever it had before.
* One might expect removing a participant without a tile to do nothing. `removeParticipantEle` for a session with no tile throws before changing anything. `Call.RemoveParticipantEle` returns `None` in that case and changes nothing.
* One might expect one tile per participant to be enforced. `addParticipantEle` does not check for an existing tile. `Call.UpdateMedia` and `Call.RemoveParticipantEle` act on the first tile with the id, as `getElementById` does.
* One might expect `maybeUpdateTrack` to skip the swap when the stream already plays the new track. Its guard compares the current track's `id` with the new track object, so the guard always holds and the first track is always removed and the new one added. `Call.MaybeUpdateTrack` writes both branches on the stream's list of tracks. `Call.RosterRunSingleTrack` shows that every stream on the page holds at most one track, so the element always ends up playing exactly the new track.
* `src/index.js` imports names that the imported modules do not export: `maybeUpdateRecording` from `call/recording.js` and `clearChat` from `call/chat.js`.
  * The model takes `maybeUpdateRecording` to be `updateRecording`.
  * It takes `clearChat` to empty the chat transcript.

## Model

| member | source | states |
|---|---|---|
| Recording.Window | src/call/recording.js:134-139 | the buffer after push-then-shift holds `min(n, 15)` of the `n` lines and they are the newest ones, in order (a suffix of all lines) |
| Recording.WindowAppend | src/call/recording.js:135-139 | trimming to 15 after every push gives the same buffer as keeping every line and taking the last 15 |
| Recording.OverlayLine | src/call/recording.js:134 | the line is the name, then `": "`, then the message |
| Recording.JoinLines | src/call/recording.js:153 | the joined text is empty for no lines and otherwise starts with the oldest line |
| Recording.JoinLinesEndsWithNewest | src/call/recording.js:153 | the joined text ends with the newest line |
| Recording.JoinLinesNewestLast | src/call/recording.js:153 | the overlay text after a new line is the previous text, then `"\r\n"`, then the new line: the newest line is last |
| Recording.SplitJoin | src/call/recording.js:153 | cutting the overlay text at `"\r\n"` gives back exactly the buffered lines in arrival order, when no line holds a carriage return |
| Recording.ChatLayout | src/call/recording.js:141-156 | a `custom` text overlay, shown bottom right at offset (-1, 0.5) in font Exo of size 1 and colour `rgba(255, 255, 255, 0.95)`, without participant labels, whose content is the buffer joined by `"\r\n"` |
| Recording.ImageAssets | src/call/recording.js:50-61 | preset `custom` with exactly the keys `images/up`, `images/down`, `images/heart`, `images/boo` |
| Recording.ImageAssetUrls | src/call/recording.js:50-61 | each image `images/<name>` is served as `<name>.png` from the assets folder |
| Recording.ReactionAsset | src/call/recording.js:166-184 | an asset name exists iff the emoji is one of ❤️ 👍 👎 🎃, and it is one of `heart`, `up`, `down`, `boo` |
| Recording.ReactionTable | src/call/recording.js:168-180 | ❤️ gives `heart`, 👍 `up`, 👎 `down`, 🎃 `boo` |
| Recording.ReactionAssetsRegistered | src/call/recording.js:49-63 | every asset a reaction layout can name was registered under `images/` when the recording was started |
| Recording.ReactionAssetInjective | src/call/recording.js:168-180 | two different known emoji never show the same image |
| Recording.ReactionLayout | src/call/recording.js:189-202 | a `custom` image overlay, shown top left with fade, naming the asset, with height the drawn value in 2 to 5 and opacity the drawn tenths, between 0.5 and 1.0 |
| Recording.ClearReactionLayout | src/call/recording.js:205-212 | a `custom` layout that hides the image overlay, different from every chat and reaction layout |
| Recording.ReactionRecordingLayout | src/call/recording.js:165-203 | a layout exists iff the emoji is known; it shows the image overlay with that emoji's asset, height 2 to 5 and opacity 0.5 to 1.0 |
| Recording.Update | src/call/recording.js:96-124 | a non-owner and a payload of another kind change nothing and emit nothing. A chat as owner appends its line to the 15-line window, keeps the timer and emits one text-overlay update showing the window. An emoji as owner keeps the buffer and re-arms the clear at `now + 1000`. It emits something iff the emoji is known, and then exactly the image layout of the emoji's table entry. Ownership is unchanged and the buffer stays at most 15 |
| Recording.Fire | src/call/recording.js:113-116 | the clear is emitted iff one is pending and due; it emits the hide-image layout once and disarms the timer; otherwise nothing changes; the buffer and ownership are never touched |
| Recording.Run | src/call/recording.js:96-124 | no sequence of payloads and timer firings changes ownership |
| Recording.RunWindow | src/call/recording.js:133-139 | as owner, after any run the buffer is the last 15 of the previous buffer followed by every chat line of the run, in arrival order |
| Recording.ChatOverlayAfterRun | src/call/recording.js:133-157 | from an empty buffer, after `n` chat payloads the buffer holds `min(n, 15)` lines, the newest last |
| Recording.RunNotOwner | src/call/recording.js:96-99 | as non-owner, no run changes the buffer or arms a timer; the only command it can emit is the one clear already pending, and with none pending the run is inert |
| Recording.RunDeadline | src/call/recording.js:109-116 | as owner, a pending clear is always due exactly 1000 ms after the last emoji payload, however many came before (debounce) |
| Recording.RunClearsBounded | src/call/recording.js:109-116 | over any run, clears sent plus the one still pending never exceed the emoji payloads plus the one pending at the start |
| Recording.DebounceScenario | src/call/recording.js:106-123 | reactions at 0 ms and 500 ms: two image updates, no clear at 1000 ms, exactly one clear at 1500 ms, nothing at 2000 ms |
| Recording.ToggleEffects | src/call/recording.js:27-42 | a click starts the recording with the four `images/*` assets iff `isRecording` is falsy or missing, and stops it iff recording and owner. It always ends by writing `isRecording := !isRecording`, owner or not; the new ownership flag is `!isRecording` |
| Recording.RecordButton | src/call/recording.js:72-87 | label "Stop Recording" iff in progress, else "Start Recording"; disabled iff in progress and not owner |
| Recording.OwnerSessionScenario | src/call/recording.js:25-43 | start by a non-owner makes it owner with an enabled Stop button; a chat then shows `"Alice: hi"` on the overlay; the next click sends stop and `isRecording: false` |
| Recording.NonOwnerClickScenario | src/call/recording.js:32-41 | a non-owner's click during a recording sends no stop, only `isRecording: false`, and its button stays disabled |
| Recording.StartRecording | src/call/recording.js:49-63 | sends one start with preset `custom` and the four `images/*` assets |
| Recording.Recorder.constructor | src/call/recording.js:10-19 | empty buffer, no pending clear, not owner; the buffer bound of at most 15 lines holds |
| Recording.Recorder.ClickRecordToggle | src/call/recording.js:27-42 | disables the Record button, sends the commands of `ToggleEffects` in order and sets ownership to its flag; the buffer and timer are kept |
| Recording.Recorder.UpdateRecordBtn | src/call/recording.js:72-87 | the Record button becomes `RecordButton(inProgress, owner)`; nothing else on the page changes |
| Recording.Recorder.GetChatRecordingLayout | src/call/recording.js:133-157 | after the push and the shift loop the buffer is the 15-line window of the old buffer plus the new line, and the layout shows it; the buffer holds at most 15 lines |
| Recording.Recorder.UpdateRecording | src/call/recording.js:96-124 | the new state and the commands sent are those of `Update`; the 15-line bound is kept |
| Recording.Recorder.FireReactionTimer | src/call/recording.js:113-116 | the new state and the commands sent are those of `Fire`; the 15-line bound is kept |
| Call.ParticipantTracks | src/call/call.js:197-224 | video selected iff it has a persistent track in state `playable` or `loading`; audio by the same rule and never for the local participant; no tracks gives neither |
| Call.ParticipantEleId | src/call/call.js:346-348 | the id is `participant-` followed by the session id |
| Call.ParticipantEleIdInjective | src/call/call.js:346-348 | different sessions get different element ids |
| Call.MicLabel | src/call/call.js:66-73 | "Disable Mic" iff on, "Enable Mic" iff off |
| Call.CamLabel | src/call/call.js:91-98 | "Disable Cam" iff on, "Enable Cam" iff off |
| Call.NewParticipantEle | src/call/call.js:231-256 | a new tile has the participant's element id, a video child with no source, and an audio child iff the participant is remote; no stream holds more than one track |
| Call.FindEle | src/call/call.js:287-289 | the index found is the first tile with the id; none is found iff no tile has it |
| Call.MaybeUpdateTrack | src/call/call.js:173-190 | with no source the element plays a new stream of just the new track. With a source, the first track is removed and every track after it is kept: the new track is in the stream, the stream does not grow, and every other track in it was there after the first. A stream with no tracks is left unchanged (the source throws). From a stream of at most one track the result is exactly the new track |
| Call.WithTracks | src/call/call.js:144-163 | an unselected child keeps its source. A selected track on a child whose stream holds at most one track leaves that child playing exactly the track. The tile keeps its id and children, and keeps at most one track per stream |
| Call.RemoveMedia | src/call/call.js:316-324 | the tile's video and audio (if any) stop playing; id and children are kept |
| Call.RemoveEle | src/call/call.js:262-266 | with no tile for the session the tiles are unchanged; otherwise exactly the first matching tile is gone (one fewer, the same multiset otherwise) |
| Call.UpdateTile | src/call/call.js:144-155 | with no tile nothing changes; otherwise only the first matching tile changes, to `WithTracks` of the participant's selected tracks; ids are kept at every position |
| Call.RemoveEleDistinct | src/call/call.js:262-266 | removing a session's tile from distinct tiles keeps them distinct and removes exactly that id |
| Call.RosterRunPresent | src/call/call.js:231-266 | after any joins, leaves and track starts with no duplicate join, the page holds one tile per participant that joined and has not left, and no id twice |
| Call.RosterRunSingleTrack | src/call/call.js:173-190 | after any joins, leaves and track starts, no stream on the page holds more than one track |
| Call.TrackStartedPlaysSelected | src/call/call.js:144-155 | after any run, a track start leaves the participant's tile playing exactly each selected track, one per stream, on each child it has |
| Call.AddParticipantEle | src/call/call.js:231-256 | the new tile is appended, nothing else changes |
| Call.RemoveParticipantEle | src/call/call.js:262-266 | the first tile with the id is removed and returned with its media released; with no such tile nothing changes and nothing is returned |
| Call.RemoveAllParticipantEles | src/call/call.js:271-280 | no tile remains; every removed tile, in page order, had its media released |
| Call.UpdateMedia | src/call/call.js:144-155 | the tiles become `UpdateTile` of the old ones: a no-op when the participant has no tile; nothing else on the page changes |
| Call.SetInCallDisabled | src/call/call.js:119-124 | every in-call button gets the given disabled flag; nothing else changes |
| Call.EnableControls | src/call/call.js:115-125 | every in-call button is enabled |
| Call.DisableCallControls | src/call/call.js:130-137 | every in-call button is disabled |
| Call.ShowLobby | src/call/call.js:40-48 | the call is hidden, the join button enabled, the lobby shown |
| Call.ShowInCall | src/call/call.js:294-302 | the call is shown with every in-call button disabled and the lobby hidden |
| Call.UpdateMicLabel | src/call/call.js:66-73 | only the mic label changes, to `MicLabel(isOn)` |
| Call.UpdateCamLabel | src/call/call.js:91-98 | only the cam label changes, to `CamLabel(isOn)` |
| Chat.DisplayName | src/call/chat.js:30 | the local name, or `Guest` when it is empty; never empty |
| Chat.NameSpan | src/call/chat.js:67-69 | the name span's text is the name and then `": "` |
| Chat.RenderedLine | src/call/chat.js:63-77 | the transcript entry is the name, then `": "`, then the message |
| Chat.EchoMatchesOverlay | src/call/chat.js:69-73 | the local transcript entry (name span, then message span) equals the overlay line for the same chat |
| Chat.AddChatMsg | src/call/chat.js:63-77 | appends one rendered line to the transcript, nothing else changes |
| Chat.ShowReaction | src/call/chat.js:83-88 | appends the emoji to the shown reactions, nothing else changes |
| Chat.SubmitChat | src/call/chat.js:22-47 | the input is cleared, then the chat is broadcast to `'*'`, echoed under the local name or `Guest`, and handed to the overlay with the same name and message, in that order. When the broadcast throws, nothing after it runs |
| Chat.ClickEmoji | src/call/chat.js:125-133 | sends the emoji with no explicit recipient, shows it, then hands it to the overlay; when the send throws nothing else happens |
| Controls.ReactionAssets | src/call/controls.js:100-109 | preset `default` with exactly the keys `reaction/up`, `reaction/down`, `reaction/heart`, `reaction/boo` |
| Controls.ReactionAssetUrls | src/call/controls.js:97-108 | each image `reaction/<name>` is served as `<name>.png` from the page origin's `assets` folder |
| Controls.ToggleEffects | src/call/controls.js:92-127 | not recording: start with preset `default` and the four `reaction/*` assets under the page origin, set the user data's ownership flag, write `isRecording: true`, and disable the button. Recording and not owner, or user data missing: nothing. Recording and owner: stop, then both flags `false` |
| Controls.RevisionsDifferOnNonOwnerStop | src/call/controls.js:112-118 | on a non-owner's click during a recording the wired revision still writes `isRecording: false`; this one writes nothing |
| Controls.ClickRecordToggle | src/call/controls.js:92-127 | sends the commands of `ToggleEffects` in order and disables the button only when it starts a recording |
| Controls.RecordButtonAfter | src/call/controls.js:78-88 | label by `inProgress`; never enables the button; disables it only when in progress and not owner; otherwise `disabled` is unchanged |
| Controls.UpdateRecordBtn | src/call/controls.js:78-88 | the Record button becomes `RecordButtonAfter` of the old one; nothing else changes |
| Controls.EnableControls | src/call/controls.js:165-175 | every in-call button is enabled |
| Controls.DisableControls | src/call/controls.js:177-185 | every in-call button is disabled and the join button enabled |
| Controls.SubmitChat | src/call/controls.js:22-44 | the same ordered effects and cut-off as `Chat.SubmitChat` |
| Controls.ClickEmoji | src/call/controls.js:46-62 | the same ordered effects as `Chat.ClickEmoji` |
| Dispatcher.SenderName | src/index.js:114-116 | the sender's user name, or `Guest` when the sender is unknown or the name is empty; never empty |
| Dispatcher.RecordingPayload | src/index.js:112-135 | a chat becomes a chat payload under the resolved name, a reaction an emoji payload; no other kind reaches the overlay |
| Dispatcher.ReceivedChatMatchesSent | src/index.js:112-123 | a received chat reaches the overlay under the same name the sender used for its own overlay update |
| Dispatcher.OnAppMessage | src/index.js:107-136 | a chat is rendered under the resolved name and then handed to the overlay (state and commands as `Update`). A reaction is shown and then handed to the overlay. Any other kind changes nothing |
| Dispatcher.OnRecordingStarted | src/index.js:62-67 | writes `isRecording: true`, then sets the Record button to `RecordButton(true, owner)`; ownership unchanged |
| Dispatcher.OnRecordingStopped | src/index.js:68-73 | writes `isRecording: false`, then sets the Record button to `RecordButton(false, owner)`; ownership unchanged |
| Dispatcher.OnParticipantUpdated | src/index.js:74-82 | a non-local update changes nothing; a local one sets both labels from the current local cam and mic state |
| Dispatcher.OnJoinedMeeting | src/index.js:41-52 | the local tile is appended and `UpdateTile` binds the first tile with its id (the new one when there was none) to its selected tracks; the call is shown, the lobby hidden, every in-call button enabled |
| Dispatcher.OnLeftMeeting | src/index.js:53-61 | every in-call button disabled, lobby shown, join enabled, no tile left (media released), transcript empty; overlay buffer, timer, ownership and the command log untouched |
| Dispatcher.OnParticipantJoined | src/index.js:83-87 | appends the participant's tile |
| Dispatcher.OnParticipantLeft | src/index.js:88-92 | removes the participant's tile; nothing is removed iff there was none |
| Dispatcher.OnTrackStarted | src/index.js:93-97 | the tiles become `UpdateTile` of the old ones: the participant's tile, if any, is bound to its selected tracks |
| Dispatcher.OnError | src/index.js:98-103 | shows the lobby with the join button enabled; nothing else changes |

## Left out

- The Daily SDK itself is not modelled: joining, recording, layout rendering, app-message delivery and replication of session data. Its calls are entries in the command log. Its reads are parameters. The events it raises are separate handler calls.
- Handler installation is not modelled: the `onclick`/`onsubmit` assignments, the emoji-button loop, and `setupChatForm`/`setupRecordToggle` being run again on every join. Only what each installed handler does is modelled.
- The chat textarea's Enter-key listener (src/call/chat.js:49-55) is not modelled. It only submits the form.
- The join form's submit handler is not modelled. It disables the join button, calls `join`, and calls `showLobby` again when `join` throws (src/call/call.js:14-34). It sits outside the recording and session-state logic.
- The mic, cam and leave buttons' `onclick` handlers and the `nonfatal-error` handler are not modelled. They only call the SDK or log.
- Styling, class names, the local reaction's random size and opacity, and its timed fade-out and removal in `showReaction` are not modelled, because they are presentation only.
- `Math.random` (`src/call/util.js`) is not modelled. Each draw is an arbitrary value in the range `rand` returns, passed in with the payload.
- Real timers and clocks are not modelled. The pending clear is a due time, and firing is an explicit event.
- A track object is reduced to its id, and a MediaStream to the list of its tracks. Call.MaybeUpdateTrack therefore writes the guard comparing a track's `id` with a track object as always holding, instead of comparing values of two types.
- Call.MaybeUpdateTrack: on a stream with no tracks, the source throws a TypeError out of `updateMedia`. The model leaves that element unchanged and still binds the other child. `Call.RosterRunSingleTrack` shows that no such stream arises on the page.
- `getParticipantTracks` throws on a `tracks` object without `video`. It also throws on a remote participant's `tracks` without `audio`; a local participant's `audio` is never read. The model gives every participant with tracks both entries.
- `src/call/dom.js`, imported by `src/call/controls.js`, is not part of this model. `Controls` uses the `Chat` definitions of `addChatMsg` and `showReaction`.
- Which buttons sit under `#incall` is set by `index.html`, which is not part of this model. The Record button is kept apart from the in-call buttons.
- The two revisions enable different join buttons. `Call.ShowLobby` enables the first button of `#joinForm` (src/call/call.js:45-46, 339). `Controls.DisableControls` enables the first button of `#join` (src/call/controls.js:66-67, 204). Both set the one `joinDisabled` flag of the page, so the model does not tell the two elements apart.
- `showLobby`'s use of the browser's global for the `lobby` element id is taken as working.
- Chat.SubmitChat: the only exception modelled is one thrown by `sendAppMessage`. A throw from reading the local participant, or from the recording callback, is not modelled.
- Chat.ClickEmoji: an exception thrown by the send propagates out of the handler. The model stops there and does not model what the browser does next.
- Controls.ToggleEffects: a missing `userData` (TypeError) and a non-owner early return give the same result in the model. Only the console output differs.
- No arbitration of two participants starting a recording at once, because the code has none.
