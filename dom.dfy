/**
 * The document the application renders into, reduced to what the handlers
 * read and write: the participant tiles, the chat transcript, the reactions
 * shown, the chat input, the record/mic/cam buttons, the disabled flags of
 * the buttons under `#incall`, the join button and the two views.
 */
module Dom {
  import opened Util
  import Daily

  /** A `<video>` or `<audio>` element; `srcObject` is the list of tracks of
      the MediaStream it plays, in order, or None when `srcObject` is null. */
  datatype MediaEle = MediaEle(srcObject: Option<seq<Daily.TrackId>>)

  /** A `.participant` tile: its element id, its video child and, for remote
      participants, its audio child. */
  datatype ParticipantEle = ParticipantEle(id: string, video: MediaEle, audio: Option<MediaEle>)

  datatype Button = Button(text: string, disabled: bool)

  /** Everything a handler can observe of the page, as one value. */
  datatype PageState = PageState(
    participants: seq<ParticipantEle>,
    chatLines: seq<string>,
    reactions: seq<string>,
    chatInput: string,
    recordBtn: Button,
    micLabel: string,
    camLabel: string,
    incall: seq<bool>,
    joinDisabled: bool,
    inCallHidden: bool,
    lobbyHidden: bool)

  class Page {
    var participants: seq<ParticipantEle>
    var chatLines: seq<string>
    var reactions: seq<string>
    var chatInput: string
    var recordBtn: Button
    var micLabel: string
    var camLabel: string
    /** `disabled` of every button under `#incall`. */
    const incallButtons: array<bool>
    var joinDisabled: bool
    var inCallHidden: bool
    var lobbyHidden: bool

    function View(): PageState
      reads this, incallButtons
    {
      PageState(participants, chatLines, reactions, chatInput, recordBtn, micLabel, camLabel,
                incallButtons[..], joinDisabled, inCallHidden, lobbyHidden)
    }

    /** A page showing the lobby, with `buttons` in-call buttons, all disabled. */
    constructor (buttons: nat)
      ensures fresh(incallButtons) && incallButtons.Length == buttons
      ensures View() == PageState([], [], [], "", Button("Start Recording", false),
                                  "Disable Mic", "Disable Cam", seq(buttons, _ => true),
                                  false, true, false)
    {
      participants, chatLines, reactions, chatInput := [], [], [], "";
      recordBtn := Button("Start Recording", false);
      micLabel, camLabel := "Disable Mic", "Disable Cam";
      incallButtons := new bool[buttons](_ => true);
      joinDisabled, inCallHidden, lobbyHidden := false, true, false;
    }
  }
}
