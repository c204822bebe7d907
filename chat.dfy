/**
 * Chat and emoji reactions: the chat form's submit handler, the reaction
 * buttons' click handler, the rendered transcript line and the name fallback.
 * The recording callback these handlers are given is `Recorder.UpdateRecording`.
 */
module Chat {
  import opened Util
  import Daily
  import Dom
  import Recording

  const GuestName: string := "Guest"

  /** `user_name || 'Guest'`; a missing name is the empty string here. */
  function DisplayName(userName: string): (name: string)
    ensures name != ""
    ensures userName != "" ==> name == userName
    ensures userName == "" ==> name == GuestName
  {
    if userName != "" then userName else GuestName
  }

  /** The text of the `chatName` span of a transcript entry. */
  function NameSpan(name: string): (span: string)
    ensures |span| == |name| + 2 && span[..|name|] == name && span[|name|..] == ": "
  {
    name + ": "
  }

  /** The text of a transcript entry rendered by `addChatMsg`: its name span
      followed by its `chatMsg` span. */
  function RenderedLine(name: string, msg: string): (line: string)
    ensures |line| == |name| + 2 + |msg|
    ensures line[..|name|] == name && line[|name|..|name| + 2] == ": " && line[|name| + 2..] == msg
  {
    NameSpan(name) + msg
  }

  /** The local transcript and the recording's overlay show the same line. */
  lemma EchoMatchesOverlay(name: string, msg: string)
    ensures RenderedLine(name, msg) == Recording.OverlayLine(name, msg)
  {
  }

  /** `addChatMsg(name, msg)`. */
  method AddChatMsg(page: Dom.Page, name: string, msg: string)
    modifies page
    ensures page.View() == old(page.View()).(chatLines := old(page.chatLines) + [RenderedLine(name, msg)])
  {
    page.chatLines := page.chatLines + [RenderedLine(name, msg)];
  }

  /** `showReaction(emoji)`; the fade-out is not modelled. */
  method ShowReaction(page: Dom.Page, emoji: string)
    modifies page
    ensures page.View() == old(page.View()).(reactions := old(page.reactions) + [emoji])
  {
    page.reactions := page.reactions + [emoji];
  }

  /** The chat form's `onsubmit`. The message is read and the form reset
      first; then the broadcast to `'*'`, the local echo and the recording
      callback run in that order. When the broadcast throws (`sendFails`) the
      exception is caught and nothing after it runs. */
  method SubmitChat(call: Daily.CallObject, page: Dom.Page, rec: Recording.Recorder,
                    localUserName: string, sendFails: bool, amb: Recording.Ambient)
    modifies call, page, rec
    ensures var msg := old(page.chatInput);
      var name := DisplayName(localUserName);
      var t := Recording.Update(old(rec.State()), Recording.ChatUpdate(name, msg), amb);
      if sendFails then
        && call.log == old(call.log)
        && rec.State() == old(rec.State())
        && page.View() == old(page.View()).(chatInput := "")
      else
        && call.log == old(call.log) + [Daily.SendAppMessage(Daily.ChatMessage(msg), Some("*"))] + t.emitted
        && rec.State() == t.next
        && page.View() == old(page.View()).(chatInput := "", chatLines := old(page.chatLines) + [RenderedLine(name, msg)])
  {
    var msg := page.chatInput;
    page.chatInput := "";
    var name := DisplayName(localUserName);
    if sendFails {
      return;
    }
    call.SendAppMessage(Daily.ChatMessage(msg), Some("*"));
    AddChatMsg(page, name, msg);
    rec.UpdateRecording(call, Recording.ChatUpdate(name, msg), amb);
  }

  /** A reaction button's `onclick`, `emoji` being the button's text: the
      broadcast (no explicit recipient), the local display and the recording
      callback, in that order. There is no try/catch: when the broadcast
      throws, nothing after it runs. */
  method ClickEmoji(call: Daily.CallObject, page: Dom.Page, rec: Recording.Recorder,
                    emoji: string, sendFails: bool, amb: Recording.Ambient)
    modifies call, page, rec
    ensures var t := Recording.Update(old(rec.State()), Recording.EmojiUpdate(emoji), amb);
      if sendFails then
        && call.log == old(call.log)
        && rec.State() == old(rec.State())
        && page.View() == old(page.View())
      else
        && call.log == old(call.log) + [Daily.SendAppMessage(Daily.EmojiMessage(emoji), None)] + t.emitted
        && rec.State() == t.next
        && page.View() == old(page.View()).(reactions := old(page.reactions) + [emoji])
  {
    if sendFails {
      return;
    }
    call.SendAppMessage(Daily.EmojiMessage(emoji), None);
    ShowReaction(page, emoji);
    rec.UpdateRecording(call, Recording.EmojiUpdate(emoji), amb);
  }
}
