/**
 * The call object's event handlers registered by `setupCallObject`. Each
 * handler is a method running the same fixed sequence of page updates, SDK
 * writes and overlay updates; the event's fields are its parameters.
 */
module Dispatcher {
  import opened Util
  import Daily
  import Dom
  import Recording
  import Call
  import Chat

  /** The name of a chat's sender, `participants()[fromId]?.user_name || 'Guest'`. */
  function SenderName(participants: map<string, Daily.Participant>, fromId: string): (name: string)
    ensures name != ""
    ensures fromId in participants && participants[fromId].userName != "" ==> name == participants[fromId].userName
    ensures (fromId !in participants || participants[fromId].userName == "") ==> name == Chat.GuestName
  {
    if fromId in participants then Chat.DisplayName(participants[fromId].userName) else Chat.GuestName
  }

  /** The payload the overlay receives for an app-message, None for a kind
      the handler ignores. */
  function RecordingPayload(participants: map<string, Daily.Participant>, fromId: string, data: Daily.AppData): (r: Option<Recording.RecordingData>)
    ensures r.None? <==> data.OtherMessage?
    ensures data.ChatMessage? ==> r == Some(Recording.ChatUpdate(SenderName(participants, fromId), data.msg))
    ensures data.EmojiMessage? ==> r == Some(Recording.EmojiUpdate(data.emoji))
  {
    match data
    case ChatMessage(msg) => Some(Recording.ChatUpdate(SenderName(participants, fromId), msg))
    case EmojiMessage(emoji) => Some(Recording.EmojiUpdate(emoji))
    case OtherMessage(_) => None
  }

  /** Sent and received chats reach the overlay in the same form: a chat the
      local participant submits and the same chat arriving at a peer give the
      same overlay payload when the peer knows the sender under that name. */
  lemma ReceivedChatMatchesSent(participants: map<string, Daily.Participant>, fromId: string, localUserName: string, msg: string)
    requires fromId in participants && participants[fromId].userName == localUserName
    ensures RecordingPayload(participants, fromId, Daily.ChatMessage(msg))
         == Some(Recording.ChatUpdate(Chat.DisplayName(localUserName), msg))
  {
  }

  /** `app-message`: a chat is rendered, then handed to the overlay under the
      resolved sender name; a reaction is shown, then handed to the overlay;
      any other kind changes nothing. */
  method OnAppMessage(call: Daily.CallObject, page: Dom.Page, rec: Recording.Recorder,
                      participants: map<string, Daily.Participant>, fromId: string,
                      data: Daily.AppData, amb: Recording.Ambient)
    modifies call, page, rec
    ensures data.ChatMessage? ==>
      var name := SenderName(participants, fromId);
      var t := Recording.Update(old(rec.State()), Recording.ChatUpdate(name, data.msg), amb);
      && page.View() == old(page.View()).(chatLines := old(page.chatLines) + [Chat.RenderedLine(name, data.msg)])
      && rec.State() == t.next
      && call.log == old(call.log) + t.emitted
    ensures data.EmojiMessage? ==>
      var t := Recording.Update(old(rec.State()), Recording.EmojiUpdate(data.emoji), amb);
      && page.View() == old(page.View()).(reactions := old(page.reactions) + [data.emoji])
      && rec.State() == t.next
      && call.log == old(call.log) + t.emitted
    ensures data.OtherMessage? ==>
      page.View() == old(page.View()) && rec.State() == old(rec.State()) && call.log == old(call.log)
  {
    match data {
      case ChatMessage(msg) =>
        var name := SenderName(participants, fromId);
        Chat.AddChatMsg(page, name, msg);
        rec.UpdateRecording(call, Recording.ChatUpdate(name, msg), amb);
      case EmojiMessage(emoji) =>
        Chat.ShowReaction(page, emoji);
        rec.UpdateRecording(call, Recording.EmojiUpdate(emoji), amb);
      case OtherMessage(_) =>
    }
  }

  /** `recording-started`: publish `isRecording: true`, then refresh the
      Record button. Ownership is not touched. */
  method OnRecordingStarted(call: Daily.CallObject, page: Dom.Page, rec: Recording.Recorder)
    modifies call, page
    ensures call.log == old(call.log) + [Daily.SetMeetingSessionData(true)]
    ensures page.View() == old(page.View()).(recordBtn := Recording.RecordButton(true, rec.isRecordingOwner))
    ensures rec.State() == old(rec.State())
  {
    call.SetMeetingSessionData(true);
    rec.UpdateRecordBtn(page, true);
  }

  /** `recording-stopped`: publish `isRecording: false`, then refresh the
      Record button. Ownership is not touched. */
  method OnRecordingStopped(call: Daily.CallObject, page: Dom.Page, rec: Recording.Recorder)
    modifies call, page
    ensures call.log == old(call.log) + [Daily.SetMeetingSessionData(false)]
    ensures page.View() == old(page.View()).(recordBtn := Recording.RecordButton(false, rec.isRecordingOwner))
    ensures rec.State() == old(rec.State())
  {
    call.SetMeetingSessionData(false);
    rec.UpdateRecordBtn(page, false);
  }

  /** `participant-updated`: only the local participant's update refreshes
      the labels, from the call's current `localVideo()`/`localAudio()`. */
  method OnParticipantUpdated(page: Dom.Page, p: Daily.Participant, localVideo: bool, localAudio: bool)
    modifies page
    ensures page.View() == if !p.local then old(page.View())
                           else old(page.View()).(camLabel := Call.CamLabel(localVideo), micLabel := Call.MicLabel(localAudio))
  {
    if !p.local {
      return;
    }
    Call.UpdateCamLabel(page, localVideo);
    Call.UpdateMicLabel(page, localAudio);
  }

  /** `joined-meeting`: add the local tile, bind its media, show the call and
      enable its buttons. The handlers the chat form and the Record button
      get are `Chat.SubmitChat` and `Recorder.ClickRecordToggle`. */
  method OnJoinedMeeting(page: Dom.Page, local: Daily.Participant)
    modifies page, page.incallButtons
    ensures page.View() == old(page.View()).(
              participants := Call.UpdateTile(old(page.participants) + [Call.NewParticipantEle(local)], local),
              inCallHidden := false, lobbyHidden := true,
              incall := seq(page.incallButtons.Length, _ => false))
    ensures Call.FindEle(old(page.participants), Call.ParticipantEleId(local.sessionId)).None? ==>
      page.participants == old(page.participants) + [Call.WithTracks(Call.NewParticipantEle(local), Call.ParticipantTracks(local))]
  {
    ghost var s := page.participants + [Call.NewParticipantEle(local)];
    ghost var id := Call.ParticipantEleId(local.sessionId);
    Call.AddParticipantEle(page, local);
    assert page.participants == s && s[|s| - 1].id == id;
    if Call.FindEle(s[..|s| - 1], id).None? {
      assert Call.FindEle(s, id) == Some(|s| - 1);
    }
    Call.UpdateMedia(page, local);
    Call.ShowInCall(page);
    Call.EnableControls(page);
  }

  /** `left-meeting`: disable the in-call buttons, show the lobby, remove
      every tile and clear the transcript. The overlay buffer, the pending
      clear and the ownership flag are left as they were, and nothing is
      sent. */
  method OnLeftMeeting(call: Daily.CallObject, page: Dom.Page, rec: Recording.Recorder)
    returns (removed: seq<Dom.ParticipantEle>)
    modifies page, page.incallButtons
    ensures page.View() == old(page.View()).(
              incall := seq(page.incallButtons.Length, _ => true),
              inCallHidden := true, joinDisabled := false, lobbyHidden := false,
              participants := [], chatLines := [])
    ensures |removed| == |old(page.participants)|
    ensures forall k :: 0 <= k < |removed| ==> removed[k] == Call.RemoveMedia(old(page.participants)[k])
    ensures rec.State() == old(rec.State()) && call.log == old(call.log)
  {
    Call.DisableCallControls(page);
    Call.ShowLobby(page);
    removed := Call.RemoveAllParticipantEles(page);
    page.chatLines := [];
  }

  /** `participant-joined`. */
  method OnParticipantJoined(page: Dom.Page, p: Daily.Participant)
    modifies page
    ensures page.View() == old(page.View()).(participants := old(page.participants) + [Call.NewParticipantEle(p)])
  {
    Call.AddParticipantEle(page, p);
  }

  /** `participant-left`; `removed` is None when the tile is missing and the
      handler throws. */
  method OnParticipantLeft(page: Dom.Page, sessionId: string) returns (removed: Option<Dom.ParticipantEle>)
    modifies page
    ensures page.View() == old(page.View()).(participants := Call.RemoveEle(old(page.participants), sessionId))
    ensures removed.Some? <==> Call.FindEle(old(page.participants), Call.ParticipantEleId(sessionId)).Some?
  {
    removed := Call.RemoveParticipantEle(page, sessionId);
  }

  /** `track-started`. */
  method OnTrackStarted(page: Dom.Page, p: Daily.Participant)
    modifies page
    ensures page.View() == old(page.View()).(participants := Call.UpdateTile(old(page.participants), p))
  {
    Call.UpdateMedia(page, p);
  }

  /** `error`: back to the lobby; nothing else is undone. */
  method OnError(page: Dom.Page)
    modifies page
    ensures page.View() == old(page.View()).(inCallHidden := true, joinDisabled := false, lobbyHidden := false)
  {
    Call.ShowLobby(page);
  }
}
