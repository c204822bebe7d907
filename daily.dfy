/**
 * The parts of Daily's call object that the application touches, as data.
 * Every SDK call that acts outside this process (start/stop/update a
 * recording, write meeting-session data or user data, broadcast an app
 * message) is one entry appended to `CallObject.log`; what the SDK reads back
 * (participants, meeting-session state, local media flags) is passed to the
 * handlers as parameters.
 */
module Daily {
  import opened Util

  /** A media track, by identity only. */
  type TrackId = string

  /** `participant.tracks.video` / `participant.tracks.audio`. */
  datatype TrackInfo = TrackInfo(state: string, persistentTrack: Option<TrackId>)

  datatype Tracks = Tracks(video: TrackInfo, audio: TrackInfo)

  /** A participant as the SDK reports it; `tracks` may be missing. */
  datatype Participant = Participant(
    sessionId: string,
    local: bool,
    userName: string,
    tracks: Option<Tracks>)

  /** Payloads sent with `sendAppMessage` and received in `app-message`:
      `{kind: 'chat', msg}`, `{kind: 'emoji', emoji}` or any other kind. */
  datatype AppData =
    | ChatMessage(msg: string)
    | EmojiMessage(emoji: string)
    | OtherMessage(kind: string)

  /** The `composition_params` of a VCS layout update. */
  datatype CompositionParams =
    | TextOverlay(
        showTextOverlay: bool,
        alignHorizontal: string,
        alignVertical: string,
        offsetXGu: real,
        offsetYGu: real,
        fontSizeGu: real,
        fontFamily: string,
        color: string,
        showParticipantLabels: bool,
        content: string)
    | ImageOverlay(
        showImageOverlay: bool,
        position: string,
        enableFade: bool,
        assetName: string,
        opacity: real,
        heightGu: int)
    | HideImageOverlay(showImageOverlay: bool)

  datatype Layout = Layout(preset: string, params: CompositionParams)

  /** The `layout` argument of `startRecording`. */
  datatype RecordingOptions = RecordingOptions(preset: string, sessionAssets: map<string, string>)

  datatype Command =
    | StartRecording(options: RecordingOptions)
    | StopRecording
    | UpdateRecording(layout: Layout)
    | SetMeetingSessionData(isRecording: bool)
    | SetUserData(isRecordingOwner: bool)
    | SendAppMessage(data: AppData, to: Option<string>)

  /** The call object: the commands it has been asked to carry out, in order. */
  class CallObject {
    var log: seq<Command>

    constructor ()
      ensures log == []
    {
      log := [];
    }

    method StartRecording(options: RecordingOptions)
      modifies this
      ensures log == old(log) + [Command.StartRecording(options)]
    {
      log := log + [Command.StartRecording(options)];
    }

    method StopRecording()
      modifies this
      ensures log == old(log) + [Command.StopRecording]
    {
      log := log + [Command.StopRecording];
    }

    method UpdateRecording(layout: Layout)
      modifies this
      ensures log == old(log) + [Command.UpdateRecording(layout)]
    {
      log := log + [Command.UpdateRecording(layout)];
    }

    method SetMeetingSessionData(isRecording: bool)
      modifies this
      ensures log == old(log) + [Command.SetMeetingSessionData(isRecording)]
    {
      log := log + [Command.SetMeetingSessionData(isRecording)];
    }

    method SetUserData(isRecordingOwner: bool)
      modifies this
      ensures log == old(log) + [Command.SetUserData(isRecordingOwner)]
    {
      log := log + [Command.SetUserData(isRecordingOwner)];
    }

    method SendAppMessage(data: AppData, to: Option<string>)
      modifies this
      ensures log == old(log) + [Command.SendAppMessage(data, to)]
    {
      log := log + [Command.SendAppMessage(data, to)];
    }
  }
}
