/**
 * Call operations: which of a participant's tracks are played, the
 * participant tiles on the page (add, bind media, remove one, remove all), the
 * element ids, the mic/cam labels, and enabling or disabling the in-call
 * buttons and switching between the lobby and the call view.
 */
module Call {
  import opened Util
  import Daily
  import Dom

  const PlayableState: string := "playable"
  const LoadingState: string := "loading"
  const EleIdPrefix: string := "participant-"

  /** `{videoTrack, audioTrack}`, None standing for null. */
  datatype MediaTracks = MediaTracks(videoTrack: Option<Daily.TrackId>, audioTrack: Option<Daily.TrackId>)

  /** A track is played when it has a persistent track and is playable or loading. */
  predicate Selectable(t: Daily.TrackInfo)
  {
    t.persistentTrack.Some? && (t.state == PlayableState || t.state == LoadingState)
  }

  /** `getParticipantTracks`. */
  function ParticipantTracks(p: Daily.Participant): (r: MediaTracks)
    ensures p.tracks.None? ==> r == MediaTracks(None, None)
    ensures r.videoTrack.Some? <==> p.tracks.Some? && Selectable(p.tracks.value.video)
    ensures r.videoTrack.Some? ==> r.videoTrack == p.tracks.value.video.persistentTrack
    ensures p.local ==> r.audioTrack.None?
    ensures r.audioTrack.Some? <==> p.tracks.Some? && !p.local && Selectable(p.tracks.value.audio)
    ensures r.audioTrack.Some? ==> r.audioTrack == p.tracks.value.audio.persistentTrack
  {
    match p.tracks
    case None => MediaTracks(None, None)
    case Some(tracks) =>
      var video := if Selectable(tracks.video) then tracks.video.persistentTrack else None;
      var audio := if !p.local && Selectable(tracks.audio) then tracks.audio.persistentTrack else None;
      MediaTracks(video, audio)
  }

  /** `getParticipantEleID`. */
  function ParticipantEleId(sessionId: string): (id: string)
    ensures |id| == |EleIdPrefix| + |sessionId|
    ensures id[..|EleIdPrefix|] == EleIdPrefix && id[|EleIdPrefix|..] == sessionId
  {
    EleIdPrefix + sessionId
  }

  /** Different sessions get different tiles. */
  lemma ParticipantEleIdInjective(a: string, b: string)
    requires ParticipantEleId(a) == ParticipantEleId(b)
    ensures a == b
  {
  }

  /** `updateMicLabel(isOn)`. */
  function MicLabel(isOn: bool): (text: string)
    ensures text == "Disable Mic" <==> isOn
    ensures text == "Enable Mic" <==> !isOn
  {
    if isOn then "Disable Mic" else "Enable Mic"
  }

  /** `updateCamLabel(isOn)`. */
  function CamLabel(isOn: bool): (text: string)
    ensures text == "Disable Cam" <==> isOn
    ensures text == "Enable Cam" <==> !isOn
  {
    if isOn then "Disable Cam" else "Enable Cam"
  }

  /** A media element that plays nothing or a stream of exactly one track:
      every stream this page creates is of this kind. */
  predicate SingleTrack(m: Dom.MediaEle)
  {
    m.srcObject.None? || |m.srcObject.value| == 1
  }

  predicate SingleTrackTile(e: Dom.ParticipantEle)
  {
    SingleTrack(e.video) && (e.audio.Some? ==> SingleTrack(e.audio.value))
  }

  /** The tile `addParticipantEle` appends: a video child always, an audio
      child only for a remote participant, neither playing anything yet. */
  function NewParticipantEle(p: Daily.Participant): (e: Dom.ParticipantEle)
    ensures e.id == ParticipantEleId(p.sessionId)
    ensures e.video.srcObject.None?
    ensures e.audio.Some? <==> !p.local
    ensures e.audio.Some? ==> e.audio.value.srcObject.None?
    ensures SingleTrackTile(e)
  {
    Dom.ParticipantEle(ParticipantEleId(p.sessionId), Dom.MediaEle(None),
                       if p.local then None else Some(Dom.MediaEle(None)))
  }

  /** `document.getElementById`: the first tile with element id `id`. */
  function FindEle(s: seq<Dom.ParticipantEle>, id: string): (r: Option<nat>)
    ensures r.Some? ==> r.value < |s| && s[r.value].id == id
    ensures r.Some? ==> forall j :: 0 <= j < r.value ==> s[j].id != id
    ensures r.None? ==> forall j :: 0 <= j < |s| ==> s[j].id != id
  {
    if |s| == 0 then None
    else if s[0].id == id then Some(0)
    else match FindEle(s[1..], id)
      case Some(k) => Some(k + 1)
      case None => None
  }

  /** `maybeUpdateTrack` on a media element that exists. With no source the
      element gets a new stream holding only `t`. Otherwise the stream's first
      track is removed and `t` added (`addTrack` ignores a track the stream
      already holds). The guard before the swap compares the old track's id
      with the new track object itself, so it always holds. A stream with no
      tracks makes reading the first track's id throw: the element is left
      as it was. */
  function MaybeUpdateTrack(m: Dom.MediaEle, t: Daily.TrackId): (r: Dom.MediaEle)
    ensures m.srcObject.None? ==> r.srcObject == Some([t])
    ensures m.srcObject == Some([]) ==> r == m
    ensures m.srcObject.Some? && m.srcObject.value != [] ==>
              && r.srcObject.Some?
              && t in r.srcObject.value
              && |r.srcObject.value| <= |m.srcObject.value|
              && (forall x :: x in r.srcObject.value ==> x == t || x in m.srcObject.value[1..])
              && (forall x :: x in m.srcObject.value[1..] ==> x in r.srcObject.value)
    ensures SingleTrack(m) ==> r.srcObject == Some([t])
  {
    match m.srcObject
    case None => Dom.MediaEle(Some([t]))
    case Some(stream) =>
      if |stream| == 0 then m
      else
        var rest := stream[1..];
        assert |stream| == 1 ==> rest == [] && t !in rest && rest + [t] == [t];
        Dom.MediaEle(Some(if t in rest then rest else rest + [t]))
  }

  /** A tile after `updateMedia` with the participant's selected tracks:
      each selected track is bound to the matching child, if the tile has one. */
  function WithTracks(e: Dom.ParticipantEle, tracks: MediaTracks): (r: Dom.ParticipantEle)
    ensures r.id == e.id
    ensures r.audio.Some? <==> e.audio.Some?
    ensures tracks.videoTrack.None? ==> r.video == e.video
    ensures tracks.videoTrack.Some? && SingleTrack(e.video) ==>
              r.video.srcObject == Some([tracks.videoTrack.value])
    ensures e.audio.Some? && tracks.audioTrack.None? ==> r.audio == e.audio
    ensures e.audio.Some? && tracks.audioTrack.Some? && SingleTrack(e.audio.value) ==>
              r.audio.value.srcObject == Some([tracks.audioTrack.value])
    ensures SingleTrackTile(e) ==> SingleTrackTile(r)
  {
    var video := if tracks.videoTrack.Some? then MaybeUpdateTrack(e.video, tracks.videoTrack.value) else e.video;
    var audio := if tracks.audioTrack.Some? && e.audio.Some?
                 then Some(MaybeUpdateTrack(e.audio.value, tracks.audioTrack.value))
                 else e.audio;
    e.(video := video, audio := audio)
  }

  /** `removeMedia`: the tile's media elements stop playing. */
  function RemoveMedia(e: Dom.ParticipantEle): (r: Dom.ParticipantEle)
    ensures r.id == e.id && r.video.srcObject.None?
    ensures r.audio.Some? <==> e.audio.Some?
    ensures r.audio.Some? ==> r.audio.value.srcObject.None?
    ensures SingleTrackTile(r)
  {
    e.(video := Dom.MediaEle(None),
       audio := if e.audio.Some? then Some(Dom.MediaEle(None)) else None)
  }

  // ---------------------------------------------------------------------------
  // The roster of tiles

  /** The roster after `removeParticipantEle(sessionId)`: the first matching
      tile is gone; nothing changes when there is none. */
  function RemoveEle(s: seq<Dom.ParticipantEle>, sessionId: string): (r: seq<Dom.ParticipantEle>)
    ensures FindEle(s, ParticipantEleId(sessionId)).None? ==> r == s
    ensures var i := FindEle(s, ParticipantEleId(sessionId));
      i.Some? ==> |r| == |s| - 1 && multiset(r) + multiset{s[i.value]} == multiset(s)
    ensures forall x :: x in r ==> x in s
  {
    match FindEle(s, ParticipantEleId(sessionId))
    case Some(i) =>
      assert s == s[..i] + [s[i]] + s[i + 1..];
      s[..i] + s[i + 1..]
    case None => s
  }

  ghost predicate DistinctIds(s: seq<Dom.ParticipantEle>)
  {
    forall i, j :: 0 <= i < j < |s| ==> s[i].id != s[j].id
  }

  ghost function Ids(s: seq<Dom.ParticipantEle>): set<string>
  {
    set k | 0 <= k < |s| :: s[k].id
  }

  /** The roster after `updateMedia(p)`: the first tile with the
      participant's id is bound to its selected tracks; nothing changes when
      there is none. */
  function UpdateTile(s: seq<Dom.ParticipantEle>, p: Daily.Participant): (r: seq<Dom.ParticipantEle>)
    ensures |r| == |s|
    ensures forall k :: 0 <= k < |s| ==> r[k].id == s[k].id
    ensures forall k :: 0 <= k < |s| ==> r[k] == s[k] || r[k] == WithTracks(s[k], ParticipantTracks(p))
    ensures FindEle(s, ParticipantEleId(p.sessionId)).None? ==> r == s
    ensures var i := FindEle(s, ParticipantEleId(p.sessionId));
      i.Some? ==> && r[i.value] == WithTracks(s[i.value], ParticipantTracks(p))
                  && forall k :: 0 <= k < |s| && k != i.value ==> r[k] == s[k]
  {
    match FindEle(s, ParticipantEleId(p.sessionId))
    case Some(i) => s[i := WithTracks(s[i], ParticipantTracks(p))]
    case None => s
  }

  /** A participant arriving, leaving, or having a track start. */
  datatype RosterEvent = Joined(p: Daily.Participant) | Left(sessionId: string) | TrackStarted(p: Daily.Participant)

  /** The roster after the events, as the page keeps it. */
  function RosterRun(es: seq<RosterEvent>): seq<Dom.ParticipantEle>
    decreases |es|
  {
    if es == [] then []
    else
      var before := RosterRun(es[..|es| - 1]);
      match es[|es| - 1]
      case Joined(p) => before + [NewParticipantEle(p)]
      case Left(sid) => RemoveEle(before, sid)
      case TrackStarted(p) => UpdateTile(before, p)
  }

  /** Reference definition: the element ids of those who joined and have not left. */
  ghost function Present(es: seq<RosterEvent>): set<string>
    decreases |es|
  {
    if es == [] then {}
    else
      var before := Present(es[..|es| - 1]);
      match es[|es| - 1]
      case Joined(p) => before + {ParticipantEleId(p.sessionId)}
      case Left(sid) => before - {ParticipantEleId(sid)}
      case TrackStarted(_) => before
  }

  /** The SDK never announces a participant that is already present. */
  ghost predicate FreshJoins(es: seq<RosterEvent>)
  {
    forall k :: 0 <= k < |es| && es[k].Joined? ==> ParticipantEleId(es[k].p.sessionId) !in Present(es[..k])
  }

  lemma RemoveEleDistinct(s: seq<Dom.ParticipantEle>, sid: string)
    requires DistinctIds(s)
    ensures DistinctIds(RemoveEle(s, sid))
    ensures Ids(RemoveEle(s, sid)) == Ids(s) - {ParticipantEleId(sid)}
  {
    var id := ParticipantEleId(sid);
    match FindEle(s, id)
    case None =>
      assert id !in Ids(s);
    case Some(i) =>
      RemoveAtIds(s, i);
  }

  /** Dropping the only tile with a given id drops exactly that id. */
  lemma RemoveAtIds(s: seq<Dom.ParticipantEle>, i: nat)
    requires DistinctIds(s) && i < |s|
    ensures DistinctIds(s[..i] + s[i + 1..])
    ensures Ids(s[..i] + s[i + 1..]) == Ids(s) - {s[i].id}
  {
    var r := s[..i] + s[i + 1..];
    assert forall k :: 0 <= k < |r| ==> r[k] == if k < i then s[k] else s[k + 1];
    forall x | x in Ids(s) - {s[i].id} ensures x in Ids(r) {
      var k :| 0 <= k < |s| && s[k].id == x;
      if k < i { assert r[k].id == x; } else { assert r[k - 1].id == x; }
    }
    forall x | x in Ids(r) ensures x in Ids(s) - {s[i].id} {
      var k :| 0 <= k < |r| && r[k].id == x;
      if k < i { assert s[k].id == x; } else { assert s[k + 1].id == x; }
    }
  }

  /** Appending a tile with a new id keeps the ids distinct and adds that id. */
  lemma AppendIds(s: seq<Dom.ParticipantEle>, e: Dom.ParticipantEle)
    requires DistinctIds(s) && e.id !in Ids(s)
    ensures DistinctIds(s + [e])
    ensures Ids(s + [e]) == Ids(s) + {e.id}
  {
    var r := s + [e];
    forall k | 0 <= k < |s| ensures s[k].id != e.id {
      assert s[k].id in Ids(s);
    }
    forall x | x in Ids(s) + {e.id} ensures x in Ids(r) {
      if x == e.id { assert r[|s|].id == x; }
      else { var k :| 0 <= k < |s| && s[k].id == x; assert r[k].id == x; }
    }
    forall x | x in Ids(r) ensures x in Ids(s) + {e.id} {
      var k :| 0 <= k < |r| && r[k].id == x;
      if k < |s| { assert s[k].id == x; }
    }
  }

  /** Roster invariant: after any sequence of fresh joins and leaves, the page
      holds one tile per participant that joined and has not left, and no
      element id twice. */
  lemma {:induction false} RosterRunPresent(es: seq<RosterEvent>)
    requires FreshJoins(es)
    ensures DistinctIds(RosterRun(es))
    ensures Ids(RosterRun(es)) == Present(es)
    decreases |es|
  {
    if es != [] {
      var init := es[..|es| - 1];
      assert FreshJoins(init) by {
        forall k | 0 <= k < |init| && init[k].Joined?
          ensures ParticipantEleId(init[k].p.sessionId) !in Present(init[..k])
        {
          assert init[..k] == es[..k];
        }
      }
      RosterRunPresent(init);
      var before := RosterRun(init);
      match es[|es| - 1]
      case Joined(p) =>
        assert es[..|es| - 1] == init;
        var e := NewParticipantEle(p);
        AppendIds(before, e);
      case Left(sid) =>
        RemoveEleDistinct(before, sid);
      case TrackStarted(p) =>
        SameIds(before, UpdateTile(before, p));
    }
  }

  /** Tiles with the same ids, position by position, have the same id set
      and are distinct when the first are. */
  lemma SameIds(s: seq<Dom.ParticipantEle>, r: seq<Dom.ParticipantEle>)
    requires |r| == |s| && forall k :: 0 <= k < |s| ==> r[k].id == s[k].id
    ensures Ids(r) == Ids(s)
    ensures DistinctIds(s) ==> DistinctIds(r)
  {
  }

  /** Every stream on the page, after any joins, leaves and track starts,
      holds at most one track. */
  lemma {:induction false} RosterRunSingleTrack(es: seq<RosterEvent>)
    ensures forall k :: 0 <= k < |RosterRun(es)| ==> SingleTrackTile(RosterRun(es)[k])
    decreases |es|
  {
    if es != [] {
      var init := es[..|es| - 1];
      RosterRunSingleTrack(init);
      var before := RosterRun(init);
      match es[|es| - 1]
      case Joined(p) =>
        var r := before + [NewParticipantEle(p)];
        assert forall k :: 0 <= k < |r| ==> r[k] == (if k < |before| then before[k] else NewParticipantEle(p));
      case Left(sid) =>
        var r := RemoveEle(before, sid);
        forall k | 0 <= k < |r| ensures SingleTrackTile(r[k]) {
          assert r[k] in before;
        }
      case TrackStarted(p) =>
    }
  }

  /** So a track start always leaves the participant's tile playing exactly
      the selected tracks, one per stream, wherever the tile has the child. */
  lemma TrackStartedPlaysSelected(es: seq<RosterEvent>, p: Daily.Participant)
    ensures var s := RosterRun(es);
      var i := FindEle(s, ParticipantEleId(p.sessionId));
      var tr := ParticipantTracks(p);
      i.Some? ==>
        && (tr.videoTrack.Some? ==> UpdateTile(s, p)[i.value].video.srcObject == Some([tr.videoTrack.value]))
        && (tr.audioTrack.Some? && s[i.value].audio.Some? ==>
              UpdateTile(s, p)[i.value].audio.value.srcObject == Some([tr.audioTrack.value]))
  {
    RosterRunSingleTrack(es);
  }

  // ---------------------------------------------------------------------------
  // Operations on the page

  /** `addParticipantEle`. */
  method AddParticipantEle(page: Dom.Page, p: Daily.Participant)
    modifies page
    ensures page.View() == old(page.View()).(participants := old(page.participants) + [NewParticipantEle(p)])
  {
    page.participants := page.participants + [NewParticipantEle(p)];
  }

  /** `removeParticipantEle`. When there is no tile the lookup yields null and
      `removeMedia` throws before anything changes: `removed` is None. */
  method RemoveParticipantEle(page: Dom.Page, sessionId: string) returns (removed: Option<Dom.ParticipantEle>)
    modifies page
    ensures page.View() == old(page.View()).(participants := RemoveEle(old(page.participants), sessionId))
    ensures removed.Some? <==> FindEle(old(page.participants), ParticipantEleId(sessionId)).Some?
    ensures removed.Some? ==>
              removed.value == RemoveMedia(old(page.participants)[FindEle(old(page.participants), ParticipantEleId(sessionId)).value])
  {
    var found := FindEle(page.participants, ParticipantEleId(sessionId));
    if found.None? {
      removed := None;
      return;
    }
    var i := found.value;
    removed := Some(RemoveMedia(page.participants[i]));
    page.participants := page.participants[..i] + page.participants[i + 1..];
  }

  /** `removeAllParticipantEles`: detach tiles from the front until none is
      left; `removed` are the detached tiles, media released, in page order. */
  method RemoveAllParticipantEles(page: Dom.Page) returns (removed: seq<Dom.ParticipantEle>)
    modifies page
    ensures page.View() == old(page.View()).(participants := [])
    ensures |removed| == |old(page.participants)|
    ensures forall k :: 0 <= k < |removed| ==> removed[k] == RemoveMedia(old(page.participants)[k])
  {
    removed := [];
    while |page.participants| > 0
      invariant |removed| + |page.participants| == |old(page.participants)|
      invariant page.participants == old(page.participants)[|removed|..]
      invariant forall k :: 0 <= k < |removed| ==> removed[k] == RemoveMedia(old(page.participants)[k])
      invariant page.View() == old(page.View()).(participants := page.participants)
      decreases |page.participants|
    {
      var pEle := page.participants[0];
      removed := removed + [RemoveMedia(pEle)];
      page.participants := page.participants[1..];
    }
  }

  /** `updateMedia`: a no-op when the participant has no tile. */
  method UpdateMedia(page: Dom.Page, p: Daily.Participant)
    modifies page
    ensures page.View() == old(page.View()).(participants := UpdateTile(old(page.participants), p))
  {
    var found := FindEle(page.participants, ParticipantEleId(p.sessionId));
    if found.None? {
      return;
    }
    var i := found.value;
    var ele := page.participants[i];
    var playableTracks := ParticipantTracks(p);
    if playableTracks.videoTrack.Some? {
      ele := ele.(video := MaybeUpdateTrack(ele.video, playableTracks.videoTrack.value));
    }
    if playableTracks.audioTrack.Some? && ele.audio.Some? {
      ele := ele.(audio := Some(MaybeUpdateTrack(ele.audio.value, playableTracks.audioTrack.value)));
    }
    page.participants := page.participants[i := ele];
  }

  /** The loop over every button under `#incall`. */
  method SetInCallDisabled(page: Dom.Page, disabled: bool)
    modifies page.incallButtons
    ensures page.View() == old(page.View()).(incall := seq(page.incallButtons.Length, _ => disabled))
  {
    var buttons := page.incallButtons;
    for i := 0 to buttons.Length
      invariant forall j :: 0 <= j < i ==> buttons[j] == disabled
    {
      buttons[i] := disabled;
    }
    assert buttons[..] == seq(buttons.Length, _ => disabled);
  }

  /** `enableControls`: every in-call button is enabled. */
  method EnableControls(page: Dom.Page)
    modifies page.incallButtons
    ensures page.View() == old(page.View()).(incall := seq(page.incallButtons.Length, _ => false))
  {
    SetInCallDisabled(page, false);
  }

  /** `disableCallControls`: every in-call button is disabled. */
  method DisableCallControls(page: Dom.Page)
    modifies page.incallButtons
    ensures page.View() == old(page.View()).(incall := seq(page.incallButtons.Length, _ => true))
  {
    SetInCallDisabled(page, true);
  }

  /** `showLobby`: hide the call, enable the join button, show the lobby. */
  method ShowLobby(page: Dom.Page)
    modifies page
    ensures page.View() == old(page.View()).(inCallHidden := true, joinDisabled := false, lobbyHidden := false)
  {
    page.inCallHidden := true;
    page.joinDisabled := false;
    page.lobbyHidden := false;
  }

  /** `showInCall`: show the call with its buttons disabled, hide the lobby. */
  method ShowInCall(page: Dom.Page)
    modifies page, page.incallButtons
    ensures page.View() == old(page.View()).(inCallHidden := false, lobbyHidden := true,
                                             incall := seq(page.incallButtons.Length, _ => true))
  {
    page.inCallHidden := false;
    DisableCallControls(page);
    page.lobbyHidden := true;
  }

  method UpdateMicLabel(page: Dom.Page, isOn: bool)
    modifies page
    ensures page.View() == old(page.View()).(micLabel := MicLabel(isOn))
  {
    page.micLabel := MicLabel(isOn);
  }

  method UpdateCamLabel(page: Dom.Page, isOn: bool)
    modifies page
    ensures page.View() == old(page.View()).(camLabel := CamLabel(isOn))
  {
    page.camLabel := CamLabel(isOn);
  }
}
