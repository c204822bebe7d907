/**
 * The other revision of the controls: a Record toggle keyed on the local
 * participant's user data, a Record button update taking the ownership flag
 * as an argument, the chat and reaction handlers, and the in-call button
 * loops. Nothing wires this revision into the page's handlers.
 */
module Controls {
  import opened Util
  import Daily
  import Dom
  import Recording
  import Call
  import Chat

  /** The `layout` this revision passes to `startRecording`; `origin` is
      `protocol//host` of the page. */
  function ReactionAssets(origin: string): (opts: Daily.RecordingOptions)
    ensures opts.preset == "default"
    ensures opts.sessionAssets.Keys == {"reaction/up", "reaction/down", "reaction/heart", "reaction/boo"}
  {
    Daily.RecordingOptions("default", map[
      "reaction/up" := origin + "/assets/up.png",
      "reaction/down" := origin + "/assets/down.png",
      "reaction/heart" := origin + "/assets/heart.png",
      "reaction/boo" := origin + "/assets/boo.png"])
  }

  /** Each image `reaction/<name>` is served as `<name>.png` from the page's
      own `assets` folder. */
  lemma ReactionAssetUrls(origin: string, name: string)
    requires name in {"up", "down", "heart", "boo"}
    ensures "reaction/" + name in ReactionAssets(origin).sessionAssets
    ensures ReactionAssets(origin).sessionAssets["reaction/" + name] == origin + "/assets/" + name + ".png"
  {
    assert "reaction/" + "heart" == "reaction/heart" && "reaction/" + "up" == "reaction/up";
    assert "reaction/" + "down" == "reaction/down" && "reaction/" + "boo" == "reaction/boo";
  }

  /** The commands one click sends and whether it disables the button.
      `userData` is the truthiness of `participants().local.userData.isRecordingOwner`,
      None when `userData` itself is missing, which makes the read throw. */
  datatype ToggleOutcome = ToggleOutcome(commands: seq<Daily.Command>, disablesButton: bool)

  function ToggleEffects(isRecording: Option<bool>, userData: Option<bool>, origin: string): (r: ToggleOutcome)
    ensures r.disablesButton <==> !Truthy(isRecording)
    ensures !Truthy(isRecording) ==>
              r.commands == [Daily.StartRecording(ReactionAssets(origin)),
                             Daily.SetUserData(true), Daily.SetMeetingSessionData(true)]
    ensures Truthy(isRecording) && userData != Some(true) ==> r.commands == []
    ensures Truthy(isRecording) && userData == Some(true) ==>
              r.commands == [Daily.StopRecording, Daily.SetUserData(false), Daily.SetMeetingSessionData(false)]
    ensures r.commands != [] ==>
              r.commands[|r.commands| - 2..] == [Daily.SetUserData(!Truthy(isRecording)),
                                                 Daily.SetMeetingSessionData(!Truthy(isRecording))]
  {
    var recording := Truthy(isRecording);
    if !recording then
      ToggleOutcome([Daily.StartRecording(ReactionAssets(origin)),
                     Daily.SetUserData(true), Daily.SetMeetingSessionData(true)], true)
    else if userData != Some(true) then
      ToggleOutcome([], false)
    else
      ToggleOutcome([Daily.StopRecording, Daily.SetUserData(false), Daily.SetMeetingSessionData(false)], false)
  }

  /** The two revisions part on a click by a non-owner during a recording:
      the wired one still writes `isRecording: false`, this one writes nothing. */
  lemma RevisionsDifferOnNonOwnerStop(origin: string)
    ensures Recording.ToggleEffects(Some(true), false).commands == [Daily.SetMeetingSessionData(false)]
    ensures ToggleEffects(Some(true), Some(false), origin).commands == []
  {
  }

  /** The Record button's `onclick` in this revision. */
  method ClickRecordToggle(call: Daily.CallObject, page: Dom.Page, isRecording: Option<bool>,
                           userData: Option<bool>, origin: string)
    modifies call, page
    ensures var r := ToggleEffects(isRecording, userData, origin);
      && call.log == old(call.log) + r.commands
      && page.View() == if r.disablesButton then old(page.View()).(recordBtn := old(page.recordBtn).(disabled := true))
                        else old(page.View())
  {
    var recording := Truthy(isRecording);
    if !recording {
      call.StartRecording(ReactionAssets(origin));
      page.recordBtn := page.recordBtn.(disabled := true);
    } else {
      if userData.None? {
        return;  // reading `isRecordingOwner` of undefined throws
      }
      if !userData.value {
        return;
      }
      call.StopRecording();
    }
    call.SetUserData(!recording);
    call.SetMeetingSessionData(!recording);
  }

  /** `updateRecordBtn(recordingInProgress, isRecordingOwner)` applied to button `b`. */
  function RecordButtonAfter(b: Dom.Button, inProgress: bool, owner: bool): (r: Dom.Button)
    ensures r.text == if inProgress then "Stop Recording" else "Start Recording"
    ensures b.disabled ==> r.disabled
    ensures r.disabled <==> b.disabled || (inProgress && !owner)
  {
    if inProgress then
      Dom.Button("Stop Recording", if !owner then true else b.disabled)
    else
      b.(text := "Start Recording")
  }

  method UpdateRecordBtn(page: Dom.Page, inProgress: bool, owner: bool)
    modifies page
    ensures page.View() == old(page.View()).(recordBtn := RecordButtonAfter(old(page.recordBtn), inProgress, owner))
  {
    if inProgress {
      page.recordBtn := page.recordBtn.(text := "Stop Recording");
      if !owner {
        page.recordBtn := page.recordBtn.(disabled := true);
      }
      return;
    }
    page.recordBtn := page.recordBtn.(text := "Start Recording");
  }

  /** `enableControls`: every in-call button is enabled. */
  method EnableControls(page: Dom.Page)
    modifies page.incallButtons
    ensures page.View() == old(page.View()).(incall := seq(page.incallButtons.Length, _ => false))
  {
    Call.SetInCallDisabled(page, false);
  }

  /** `disableControls`: every in-call button is disabled and the join
      button enabled. */
  method DisableControls(page: Dom.Page)
    modifies page, page.incallButtons
    ensures page.View() == old(page.View()).(incall := seq(page.incallButtons.Length, _ => true), joinDisabled := false)
  {
    Call.SetInCallDisabled(page, true);
    page.joinDisabled := false;
  }

  /** This revision's chat `onsubmit`: the same steps in the same order as
      in the chat module. */
  method SubmitChat(call: Daily.CallObject, page: Dom.Page, rec: Recording.Recorder,
                    localUserName: string, sendFails: bool, amb: Recording.Ambient)
    modifies call, page, rec
    ensures var msg := old(page.chatInput);
      var name := Chat.DisplayName(localUserName);
      var t := Recording.Update(old(rec.State()), Recording.ChatUpdate(name, msg), amb);
      if sendFails then
        && call.log == old(call.log)
        && rec.State() == old(rec.State())
        && page.View() == old(page.View()).(chatInput := "")
      else
        && call.log == old(call.log) + [Daily.SendAppMessage(Daily.ChatMessage(msg), Some("*"))] + t.emitted
        && rec.State() == t.next
        && page.View() == old(page.View()).(chatInput := "", chatLines := old(page.chatLines) + [Chat.RenderedLine(name, msg)])
  {
    Chat.SubmitChat(call, page, rec, localUserName, sendFails, amb);
  }

  /** This revision's reaction `onclick`: the same steps as in the chat module. */
  method ClickEmoji(call: Daily.CallObject, page: Dom.Page, rec: Recording.Recorder,
                    emoji: string, sendFails: bool, amb: Recording.Ambient)
    modifies call, page, rec
    ensures var t := Recording.Update(old(rec.State()), Recording.EmojiUpdate(emoji), amb);
      if sendFails then
        && call.log == old(call.log)
        && rec.State() == old(rec.State())
        && page.View() == old(page.View())
      else
        && call.log == old(call.log) + [Daily.SendAppMessage(Daily.EmojiMessage(emoji), None)] + t.emitted
        && rec.State() == t.next
        && page.View() == old(page.View()).(reactions := old(page.reactions) + [emoji])
  {
    Chat.ClickEmoji(call, page, rec, emoji, sendFails, amb);
  }
}
