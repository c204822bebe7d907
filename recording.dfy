/**
 * The recording module: the Record toggle of the wired revision, the Record
 * button's label and enabled state, and the projector that turns chat and
 * emoji payloads into VCS overlay updates of the recording.
 *
 * The module-level state (`visibleMessages`, `reactionTimeout`,
 * `recordingState.isRecordingOwner`) is the class `Recorder`; its methods are
 * specified by the pure functions `Update`, `Fire` and `ToggleEffects` over the
 * value `Projector`, and the properties of the projector are lemmas about
 * those functions.
 */
module Recording {
  import opened Util
  import Daily
  import Dom

  /** Capacity of the chat buffer shown in the recording. */
  const MaxDisplayed: nat := 15
  /** Delay, in milliseconds, before a reaction image is cleared. */
  const ReactionClearDelay: int := 1000
  /** What `visibleMessages.join` puts between two lines. */
  const Separator: string := "\r\n"

  const Heart: string := "\U{2764}\U{FE0F}"
  const ThumbsUp: string := "\U{1F44D}"
  const ThumbsDown: string := "\U{1F44E}"
  const Pumpkin: string := "\U{1F383}"

  const AssetsBase: string := "https://raw.githubusercontent.com/daily-demos/vcs-chat-recording/ls/wip/src/assets"

  /** `rand(2, 5)`: the image height in grid units. */
  type ImageHeight = h: int | 2 <= h <= 5 witness 2
  /** `rand(5, 10)`: ten times the image opacity. */
  type OpacityTenths = o: int | 5 <= o <= 10 witness 5

  /** What a handler takes from its surroundings: the clock and the two random draws. */
  datatype Ambient = Ambient(now: int, height: ImageHeight, opacityTenths: OpacityTenths)

  /** The argument of `updateRecording`. */
  datatype RecordingData =
    | ChatUpdate(name: string, msg: string)
    | EmojiUpdate(emoji: string)
    | OtherUpdate(kind: string)

  /** The module state as a value: the chat buffer, the due time of the
      pending reaction clear (None when no clear is pending) and the
      ownership flag. */
  datatype Projector = Projector(visible: seq<string>, clearAt: Option<int>, owner: bool)

  /** A new state and the SDK commands emitted on the way to it, in order. */
  datatype Transition = Transition(next: Projector, emitted: seq<Daily.Command>)

  ghost predicate Bounded(p: Projector)
  {
    |p.visible| <= MaxDisplayed
  }

  // ---------------------------------------------------------------------------
  // Chat buffer and text overlay

  /** The line a chat payload adds to the buffer: the name, `": "`, the message. */
  function OverlayLine(name: string, msg: string): (line: string)
    ensures |line| == |name| + 2 + |msg|
    ensures line[..|name|] == name && line[|name|..|name| + 2] == ": " && line[|name| + 2..] == msg
  {
    name + ": " + msg
  }

  /** The last `MaxDisplayed` elements of `s` (all of `s` when it is shorter). */
  function Window(s: seq<string>): (w: seq<string>)
    ensures |w| == Min(|s|, MaxDisplayed)
    ensures w == s[|s| - |w|..]
  {
    if |s| <= MaxDisplayed then s else s[|s| - MaxDisplayed..]
  }

  /** Trimming before appending one line loses nothing: the buffer kept by
      push-then-shift is always the window of everything pushed so far. */
  lemma {:induction false} WindowAppend(s: seq<string>, x: string)
    ensures Window(Window(s) + [x]) == Window(s + [x])
  {
    if |s| > MaxDisplayed {
      var w := s[|s| - MaxDisplayed..];
      assert Window(s) == w;
      assert (w + [x])[1..] == s[|s| - MaxDisplayed + 1..] + [x];
      assert (s + [x])[|s| + 1 - MaxDisplayed..] == s[|s| - MaxDisplayed + 1..] + [x];
    }
  }

  /** `Array.prototype.join` with `Separator`: the text starts with the
      oldest line. */
  function JoinLines(lines: seq<string>): (text: string)
    ensures lines == [] ==> text == ""
    ensures lines != [] ==> |lines[0]| <= |text| && text[..|lines[0]|] == lines[0]
  {
    if |lines| == 0 then ""
    else if |lines| == 1 then lines[0]
    else lines[0] + Separator + JoinLines(lines[1..])
  }

  /** The newest line is the last line of the overlay text. */
  lemma {:induction false} JoinLinesNewestLast(lines: seq<string>, x: string)
    ensures JoinLines(lines + [x]) == if lines == [] then x else JoinLines(lines) + Separator + x
  {
    if |lines| == 0 {
      assert lines + [x] == [x];
    } else if |lines| == 1 {
      assert lines + [x] == [lines[0], x];
      assert [lines[0], x][1..] == [x];
    } else {
      assert (lines + [x])[1..] == lines[1..] + [x];
      JoinLinesNewestLast(lines[1..], x);
    }
  }

  /** The overlay text ends with the newest line. */
  lemma {:induction false} JoinLinesEndsWithNewest(lines: seq<string>)
    requires lines != []
    ensures var text := JoinLines(lines); var last := lines[|lines| - 1];
      |last| <= |text| && text[|text| - |last|..] == last
    decreases |lines|
  {
    if |lines| > 1 {
      JoinLinesEndsWithNewest(lines[1..]);
      var rest := JoinLines(lines[1..]);
      var last := lines[|lines| - 1];
      assert last == lines[1..][|lines[1..]| - 1];
      var text := lines[0] + Separator + rest;
      assert JoinLines(lines) == text;
      assert text[|text| - |last|..] == rest[|rest| - |last|..];
    }
  }

  /** Index of the first carriage return in `s`, or `|s|` when there is none. */
  function FindCr(s: string): (i: nat)
    ensures i <= |s|
    ensures i < |s| ==> s[i] == '\r'
    ensures forall j :: 0 <= j < i ==> s[j] != '\r'
  {
    if |s| == 0 then 0
    else if s[0] == '\r' then 0
    else 1 + FindCr(s[1..])
  }

  /** Cuts overlay text back into lines: the reader's view of the overlay. */
  function SplitLines(s: string): seq<string>
    decreases |s|
  {
    var i := FindCr(s);
    if i + 2 <= |s| then [s[..i]] + SplitLines(s[i + 2..]) else [s]
  }

  /** The overlay text determines the buffer: reading it back line by line
      gives the lines in arrival order, as long as no line holds a carriage
      return. */
  lemma {:induction false} SplitJoin(lines: seq<string>)
    requires |lines| > 0
    requires forall k :: 0 <= k < |lines| ==> '\r' !in lines[k]
    ensures SplitLines(JoinLines(lines)) == lines
  {
    var s := JoinLines(lines);
    var l0 := lines[0];
    var i := FindCr(s);
    if |lines| > 1 {
      var rest := JoinLines(lines[1..]);
      assert s == l0 + Separator + rest;
      assert s[|l0|] == '\r';
      assert i == |l0|;
      assert s[..i] == l0;
      assert s[i + 2..] == rest;
      SplitJoin(lines[1..]);
    }
  }

  /** The text-overlay layout showing `visible`, bottom right, without
      participant labels. */
  function ChatLayout(visible: seq<string>): (layout: Daily.Layout)
    ensures layout.preset == "custom" && layout.params.TextOverlay?
    ensures layout.params.showTextOverlay && !layout.params.showParticipantLabels
    ensures layout.params.alignHorizontal == "right" && layout.params.alignVertical == "bottom"
    ensures layout.params.offsetXGu == -1.0 && layout.params.offsetYGu == 0.5 && layout.params.fontSizeGu == 1.0
    ensures layout.params.fontFamily == "Exo" && layout.params.color == "rgba(255, 255, 255, 0.95)"
    ensures layout.params.content == JoinLines(visible)
  {
    Daily.Layout("custom", Daily.TextOverlay(
      showTextOverlay := true,
      alignHorizontal := "right",
      alignVertical := "bottom",
      offsetXGu := -1.0,
      offsetYGu := 0.5,
      fontSizeGu := 1.0,
      fontFamily := "Exo",
      color := "rgba(255, 255, 255, 0.95)",
      showParticipantLabels := false,
      content := JoinLines(visible)))
  }

  // ---------------------------------------------------------------------------
  // Reactions

  /** The `layout` passed to `startRecording`: the four reaction images,
      each `images/<name>` served as `<name>.png` from the assets folder. */
  function ImageAssets(): (opts: Daily.RecordingOptions)
    ensures opts.preset == "custom"
    ensures opts.sessionAssets.Keys == {"images/up", "images/down", "images/heart", "images/boo"}
  {
    Daily.RecordingOptions("custom", map[
      "images/up" := AssetsBase + "/up.png",
      "images/down" := AssetsBase + "/down.png",
      "images/heart" := AssetsBase + "/heart.png",
      "images/boo" := AssetsBase + "/boo.png"])
  }

  /** Each reaction image `images/<name>` is served as `<name>.png`. */
  lemma ImageAssetUrls(name: string)
    requires name in {"up", "down", "heart", "boo"}
    ensures "images/" + name in ImageAssets().sessionAssets
    ensures ImageAssets().sessionAssets["images/" + name] == AssetsBase + "/" + name + ".png"
  {
    assert "images/" + "heart" == "images/heart" && "images/" + "up" == "images/up";
    assert "images/" + "down" == "images/down" && "images/" + "boo" == "images/boo";
  }

  /** The emoji lookup table. */
  function ReactionAsset(emoji: string): (asset: Option<string>)
    ensures asset.Some? <==> emoji in {Heart, ThumbsUp, ThumbsDown, Pumpkin}
    ensures asset.Some? ==> asset.value in {"heart", "up", "down", "boo"}
  {
    if emoji == Heart then Some("heart")
    else if emoji == ThumbsUp then Some("up")
    else if emoji == ThumbsDown then Some("down")
    else if emoji == Pumpkin then Some("boo")
    else None
  }

  /** Every image the overlay can name was registered, under `images/`,
      when the recording was started. */
  lemma ReactionAssetsRegistered(emoji: string)
    requires ReactionAsset(emoji).Some?
    ensures "images/" + ReactionAsset(emoji).value in ImageAssets().sessionAssets
  {
    assert "images/" + "heart" == "images/heart" && "images/" + "up" == "images/up";
    assert "images/" + "down" == "images/down" && "images/" + "boo" == "images/boo";
  }

  /** The table itself. */
  lemma ReactionTable()
    ensures ReactionAsset(Heart) == Some("heart")
    ensures ReactionAsset(ThumbsUp) == Some("up")
    ensures ReactionAsset(ThumbsDown) == Some("down")
    ensures ReactionAsset(Pumpkin) == Some("boo")
  {
  }

  /** Different known emoji show different images. */
  lemma ReactionAssetInjective(e1: string, e2: string)
    requires ReactionAsset(e1).Some? && ReactionAsset(e1) == ReactionAsset(e2)
    ensures e1 == e2
  {
  }

  /** The image-overlay layout for one reaction: shown top left, fading,
      with the random height and opacity drawn for it. */
  function ReactionLayout(asset: string, height: ImageHeight, opacityTenths: OpacityTenths): (layout: Daily.Layout)
    ensures layout.preset == "custom" && layout.params.ImageOverlay?
    ensures layout.params.showImageOverlay && layout.params.enableFade && layout.params.position == "top-left"
    ensures layout.params.assetName == asset
    ensures layout.params.heightGu == height && 2 <= layout.params.heightGu <= 5
    ensures layout.params.opacity * 10.0 == opacityTenths as real && 0.5 <= layout.params.opacity <= 1.0
  {
    Daily.Layout("custom", Daily.ImageOverlay(
      showImageOverlay := true,
      position := "top-left",
      enableFade := true,
      assetName := asset,
      opacity := (opacityTenths as real) / 10.0,
      heightGu := height))
  }

  /** `getReactionRecordingLayout`: no layout for an unrecognised emoji. */
  function ReactionRecordingLayout(emoji: string, amb: Ambient): (layout: Option<Daily.Layout>)
    ensures layout.Some? <==> ReactionAsset(emoji).Some?
    ensures layout.Some? ==> layout.value.params.ImageOverlay? && layout.value.params.showImageOverlay
                             && layout.value.params.assetName == ReactionAsset(emoji).value
    ensures layout.Some? ==> 2 <= layout.value.params.heightGu <= 5
                             && 0.5 <= layout.value.params.opacity <= 1.0
  {
    match ReactionAsset(emoji)
    case Some(asset) => Some(ReactionLayout(asset, amb.height, amb.opacityTenths))
    case None => None
  }

  /** Hides the image overlay; it is none of the layouts a payload sends. */
  function ClearReactionLayout(): (layout: Daily.Layout)
    ensures layout.preset == "custom" && layout.params.HideImageOverlay? && !layout.params.showImageOverlay
    ensures forall v :: layout != ChatLayout(v)
    ensures forall a, h, o :: layout != ReactionLayout(a, h, o)
  {
    Daily.Layout("custom", Daily.HideImageOverlay(showImageOverlay := false))
  }

  // ---------------------------------------------------------------------------
  // The projector as a function of its state

  /** `updateRecording(callObject, data)`. */
  function Update(p: Projector, data: RecordingData, amb: Ambient): (t: Transition)
    ensures !p.owner ==> t == Transition(p, [])
    ensures data.OtherUpdate? ==> t == Transition(p, [])
    ensures t.next.owner == p.owner
    ensures Bounded(p) ==> Bounded(t.next)
    ensures |t.emitted| <= 1
    ensures p.owner && data.ChatUpdate? ==>
              && t.next.visible == Window(p.visible + [OverlayLine(data.name, data.msg)])
              && t.next.clearAt == p.clearAt
              && t.emitted == [Daily.UpdateRecording(ChatLayout(t.next.visible))]
    ensures p.owner && data.EmojiUpdate? ==>
              && t.next.visible == p.visible
              && t.next.clearAt == Some(amb.now + ReactionClearDelay)
              && (t.emitted != [] <==> ReactionAsset(data.emoji).Some?)
    ensures p.owner && data.EmojiUpdate? && ReactionAsset(data.emoji).Some? ==>
              t.emitted == [Daily.UpdateRecording(ReactionLayout(ReactionAsset(data.emoji).value, amb.height, amb.opacityTenths))]
  {
    if !p.owner then Transition(p, [])
    else
      match data
      case ChatUpdate(name, msg) =>
        var visible := Window(p.visible + [OverlayLine(name, msg)]);
        Transition(p.(visible := visible), [Daily.UpdateRecording(ChatLayout(visible))])
      case EmojiUpdate(emoji) =>
        var armed := p.(clearAt := Some(amb.now + ReactionClearDelay));
        (match ReactionRecordingLayout(emoji, amb)
         case Some(layout) => Transition(armed, [Daily.UpdateRecording(layout)])
         case None => Transition(armed, []))
      case OtherUpdate(_) => Transition(p, [])
  }

  /** The pending clear timer firing at time `now`. The callback does not look
      at ownership: a clear armed while owner is sent even after ownership is
      gone. */
  function Fire(p: Projector, now: int): (t: Transition)
    ensures t.next.visible == p.visible && t.next.owner == p.owner
    ensures t.emitted != [] <==> p.clearAt.Some? && p.clearAt.value <= now
    ensures t.emitted != [] ==> t.emitted == [Daily.UpdateRecording(ClearReactionLayout())] && t.next.clearAt.None?
    ensures t.emitted == [] ==> t.next == p
  {
    match p.clearAt
    case Some(due) =>
      if due <= now then Transition(p.(clearAt := None), [Daily.UpdateRecording(ClearReactionLayout())])
      else Transition(p, [])
    case None => Transition(p, [])
  }

  // ---------------------------------------------------------------------------
  // Runs of events

  /** One event reaching the projector: a payload handed to `updateRecording`,
      or the clock reaching `now` with the reaction timer pending. */
  datatype Event = Payload(data: RecordingData, at: Ambient) | TimerFires(now: int)

  function Step(p: Projector, e: Event): Transition
  {
    match e
    case Payload(data, at) => Update(p, data, at)
    case TimerFires(now) => Fire(p, now)
  }

  function Run(p: Projector, es: seq<Event>): (t: Transition)
    ensures t.next.owner == p.owner
    decreases |es|
  {
    if es == [] then Transition(p, [])
    else
      var before := Run(p, es[..|es| - 1]);
      var last := Step(before.next, es[|es| - 1]);
      Transition(last.next, before.emitted + last.emitted)
  }

  /** The chat lines the events carry, in order. */
  function ChatLines(es: seq<Event>): seq<string>
    decreases |es|
  {
    if es == [] then []
    else
      ChatLines(es[..|es| - 1]) +
      (match es[|es| - 1]
       case Payload(ChatUpdate(name, msg), _) => [OverlayLine(name, msg)]
       case _ => [])
  }

  /** The time of the last emoji payload among the events. */
  function LastReaction(es: seq<Event>): Option<int>
    decreases |es|
  {
    if es == [] then None
    else
      match es[|es| - 1]
      case Payload(EmojiUpdate(_), at) => Some(at.now)
      case _ => LastReaction(es[..|es| - 1])
  }

  /** The number of emoji payloads among the events. */
  function Reactions(es: seq<Event>): nat
    decreases |es|
  {
    if es == [] then 0
    else
      Reactions(es[..|es| - 1]) +
      (match es[|es| - 1]
       case Payload(EmojiUpdate(_), _) => 1
       case _ => 0)
  }

  /** The number of reaction clears among the commands. */
  function Clears(cs: seq<Daily.Command>): nat
    decreases |cs|
  {
    if cs == [] then 0
    else Clears(cs[..|cs| - 1]) + (if cs[|cs| - 1] == Daily.UpdateRecording(ClearReactionLayout()) then 1 else 0)
  }

  lemma {:induction false} ClearsAppend(a: seq<Daily.Command>, b: seq<Daily.Command>)
    ensures Clears(a + b) == Clears(a) + Clears(b)
    decreases |b|
  {
    if b != [] {
      assert (a + b)[..|a + b| - 1] == a + b[..|b| - 1];
      ClearsAppend(a, b[..|b| - 1]);
    } else {
      assert a + b == a;
    }
  }

  /** After any run as recording owner, the buffer is the last
      `MaxDisplayed` chat lines of everything seen, in arrival order. */
  lemma {:induction false} RunWindow(p: Projector, es: seq<Event>)
    requires p.owner && Bounded(p)
    ensures Run(p, es).next.visible == Window(p.visible + ChatLines(es))
    decreases |es|
  {
    if es == [] {
      assert p.visible + [] == p.visible;
    } else {
      var init := es[..|es| - 1];
      var e := es[|es| - 1];
      RunWindow(p, init);
      var q := Run(p, init).next;
      assert Run(p, es).next == Step(q, e).next;
      if e.Payload? && e.data.ChatUpdate? {
        var line := OverlayLine(e.data.name, e.data.msg);
        assert ChatLines(es) == ChatLines(init) + [line];
        WindowAppend(p.visible + ChatLines(init), line);
        assert p.visible + ChatLines(init) + [line] == p.visible + ChatLines(es);
      } else {
        assert ChatLines(es) == ChatLines(init);
        assert Step(q, e).next.visible == q.visible;
      }
    }
  }

  /** The text overlay after a run of `n` chat payloads from an empty buffer
      shows the last `min(n, MaxDisplayed)` lines in arrival order, newest last. */
  lemma ChatOverlayAfterRun(es: seq<Event>)
    requires ChatLines(es) != []
    ensures var visible := Run(Projector([], None, true), es).next.visible;
      && visible == Window(ChatLines(es))
      && |visible| == Min(|ChatLines(es)|, MaxDisplayed)
      && visible[|visible| - 1] == ChatLines(es)[|ChatLines(es)| - 1]
  {
    RunWindow(Projector([], None, true), es);
    assert [] + ChatLines(es) == ChatLines(es);
  }

  /** A participant that does not own the recording emits nothing over any
      run, except the one clear that was already pending, and its buffer does
      not change. */
  lemma {:induction false} RunNotOwner(p: Projector, es: seq<Event>)
    requires !p.owner
    ensures Run(p, es).next.visible == p.visible
    ensures Run(p, es).next.clearAt.Some? ==> Run(p, es).next.clearAt == p.clearAt
    ensures Run(p, es).emitted == [] || (p.clearAt.Some? && Run(p, es).emitted == [Daily.UpdateRecording(ClearReactionLayout())])
    ensures Run(p, es).emitted != [] ==> Run(p, es).next.clearAt.None?
    ensures p.clearAt.None? ==> Run(p, es) == Transition(p, [])
    decreases |es|
  {
    if es != [] {
      RunNotOwner(p, es[..|es| - 1]);
    }
  }

  /** Debounce: as owner, a pending clear is always due exactly
      `ReactionClearDelay` after the last emoji payload, however many came
      before it. */
  lemma {:induction false} RunDeadline(p: Projector, es: seq<Event>)
    requires p.owner
    ensures var c := Run(p, es).next.clearAt;
      c.Some? ==> if LastReaction(es).Some? then c.value == LastReaction(es).value + ReactionClearDelay
                  else c == p.clearAt
    decreases |es|
  {
    if es != [] {
      RunDeadline(p, es[..|es| - 1]);
    }
  }

  /** There are never more clears than reactions: each clear consumes a
      pending timer and only an emoji payload arms one. */
  lemma {:induction false} RunClearsBounded(p: Projector, es: seq<Event>)
    ensures var t := Run(p, es);
      Clears(t.emitted) + (if t.next.clearAt.Some? then 1 else 0)
        <= Reactions(es) + (if p.clearAt.Some? then 1 else 0)
    decreases |es|
  {
    if es != [] {
      var init := es[..|es| - 1];
      RunClearsBounded(p, init);
      var before := Run(p, init);
      var last := Step(before.next, es[|es| - 1]);
      ClearsAppend(before.emitted, last.emitted);
      assert Clears([]) == 0;
      match es[|es| - 1]
      case Payload(ChatUpdate(_, _), at) =>
        assert last.emitted == [] || last.emitted == [Daily.UpdateRecording(ChatLayout(last.next.visible))];
        assert Clears(last.emitted) == 0;
      case Payload(EmojiUpdate(e), at) =>
        assert Clears(last.emitted) == 0 by {
          if last.emitted != [] {
            assert last.emitted == [Daily.UpdateRecording(ReactionRecordingLayout(e, at).value)];
          }
        }
      case Payload(OtherUpdate(_), _) =>
      case TimerFires(_) =>
    }
  }

  /** Reactions at 0 ms and 500 ms: nothing is cleared at 1000 ms, exactly one
      clear is sent at 1500 ms, and nothing more at 2000 ms. */
  lemma DebounceScenario(h: ImageHeight, o: OpacityTenths)
    ensures var p0 := Projector([], None, true);
      var es := [Payload(EmojiUpdate(Heart), Ambient(0, h, o)),
                 Payload(EmojiUpdate(ThumbsUp), Ambient(500, h, o)),
                 TimerFires(1000), TimerFires(1500), TimerFires(2000)];
      && Run(p0, es[..3]).emitted == [Daily.UpdateRecording(ReactionLayout("heart", h, o)),
                                      Daily.UpdateRecording(ReactionLayout("up", h, o))]
      && Run(p0, es[..4]).emitted == Run(p0, es[..3]).emitted + [Daily.UpdateRecording(ClearReactionLayout())]
      && Run(p0, es).emitted == Run(p0, es[..4]).emitted
  {
    var p0 := Projector([], None, true);
    var es := [Payload(EmojiUpdate(Heart), Ambient(0, h, o)),
               Payload(EmojiUpdate(ThumbsUp), Ambient(500, h, o)),
               TimerFires(1000), TimerFires(1500), TimerFires(2000)];
    assert es[..4][..3] == es[..3] && es[..3][..2] == es[..2] && es[..2][..1] == es[..1] && es[..1][..0] == [];
    assert es[..5] == es;
    var r0 := Run(p0, es[..0]);
    assert r0 == Transition(p0, []);
    var r1 := Run(p0, es[..1]);
    assert r1 == Transition(p0.(clearAt := Some(1000)), [Daily.UpdateRecording(ReactionLayout("heart", h, o))]);
    var r2 := Run(p0, es[..2]);
    assert r2 == Transition(p0.(clearAt := Some(1500)), r1.emitted + [Daily.UpdateRecording(ReactionLayout("up", h, o))]);
    var r3 := Run(p0, es[..3]);
    assert r3 == r2;
    var r4 := Run(p0, es[..4]);
    assert r4 == Transition(p0, r3.emitted + [Daily.UpdateRecording(ClearReactionLayout())]);
    assert Run(p0, es) == Run(p0, es[..5]);
    assert Run(p0, es[..5]) == r4;
  }

  // ---------------------------------------------------------------------------
  // Record toggle and Record button

  /** What one click on the Record button does, given the shared
      `isRecording` read from the meeting session and the local ownership
      flag: the SDK commands, in order, and the new ownership flag. */
  datatype ToggleOutcome = ToggleOutcome(commands: seq<Daily.Command>, owner: bool)

  function ToggleEffects(isRecording: Option<bool>, owner: bool): (r: ToggleOutcome)
    ensures Daily.StartRecording(ImageAssets()) in r.commands <==> !Truthy(isRecording)
    ensures Daily.StopRecording in r.commands <==> Truthy(isRecording) && owner
    ensures |r.commands| == (if Truthy(isRecording) && !owner then 1 else 2)
    ensures r.commands[|r.commands| - 1] == Daily.SetMeetingSessionData(!Truthy(isRecording))
    ensures r.owner == !Truthy(isRecording)
  {
    var recording := Truthy(isRecording);
    var first := if !recording then [Daily.StartRecording(ImageAssets())]
                 else if owner then [Daily.StopRecording]
                 else [];
    ToggleOutcome(first + [Daily.SetMeetingSessionData(!recording)], !recording)
  }

  /** `updateRecordBtn(recordingInProgress)` with the current ownership flag. */
  function RecordButton(inProgress: bool, owner: bool): (b: Dom.Button)
    ensures b.text == if inProgress then "Stop Recording" else "Start Recording"
    ensures b.disabled <==> inProgress && !owner
  {
    if !inProgress then Dom.Button("Start Recording", false)
    else Dom.Button("Stop Recording", !owner)
  }

  /** A local start, a remote chat while recording, and a local stop. */
  lemma OwnerSessionScenario(amb: Ambient)
    ensures var on := ToggleEffects(None, false);
      && on.owner
      && on.commands == [Daily.StartRecording(ImageAssets()), Daily.SetMeetingSessionData(true)]
      && RecordButton(true, on.owner) == Dom.Button("Stop Recording", false)
      && var chat := Update(Projector([], None, on.owner), ChatUpdate("Alice", "hi"), amb);
      && chat.next.visible == ["Alice: hi"]
      && chat.emitted == [Daily.UpdateRecording(ChatLayout(["Alice: hi"]))]
      && ChatLayout(["Alice: hi"]).params.content == "Alice: hi"
      && ToggleEffects(Some(true), chat.next.owner).commands
           == [Daily.StopRecording, Daily.SetMeetingSessionData(false)]
  {
    assert OverlayLine("Alice", "hi") == "Alice: hi";
    assert [] + ["Alice: hi"] == ["Alice: hi"];
  }

  /** A click by a participant that does not own the running recording sends
      no stop, only the optimistic `isRecording: false` write, and the button
      stays disabled while the recording goes on. */
  lemma NonOwnerClickScenario()
    ensures ToggleEffects(Some(true), false) == ToggleOutcome([Daily.SetMeetingSessionData(false)], false)
    ensures RecordButton(true, false).disabled
  {
  }

  /** `startRecording(callObject)`. */
  method StartRecording(call: Daily.CallObject)
    modifies call
    ensures call.log == old(call.log) + [Daily.StartRecording(ImageAssets())]
  {
    call.StartRecording(ImageAssets());
  }

  // ---------------------------------------------------------------------------
  // The module state

  class Recorder {
    var visibleMessages: seq<string>
    /** Due time of the pending reaction clear, if one is pending. */
    var reactionTimeout: Option<int>
    var isRecordingOwner: bool

    function State(): Projector
      reads this
    {
      Projector(visibleMessages, reactionTimeout, isRecordingOwner)
    }

    constructor ()
      ensures State() == Projector([], None, false)
      ensures Bounded(State())
    {
      visibleMessages, reactionTimeout, isRecordingOwner := [], None, false;
    }

    /** The Record button's `onclick`. */
    method ClickRecordToggle(call: Daily.CallObject, page: Dom.Page, isRecording: Option<bool>)
      modifies this, call, page
      ensures var t := ToggleEffects(isRecording, old(isRecordingOwner));
        && call.log == old(call.log) + t.commands
        && State() == old(State()).(owner := t.owner)
      ensures page.View() == old(page.View()).(recordBtn := old(page.recordBtn).(disabled := true))
    {
      page.recordBtn := page.recordBtn.(disabled := true);
      var recording := Truthy(isRecording);
      if !recording {
        StartRecording(call);
      } else if isRecordingOwner {
        call.StopRecording();
      }
      isRecordingOwner := !recording;
      call.SetMeetingSessionData(!recording);
    }

    /** `updateRecordBtn(recordingInProgress)`. */
    method UpdateRecordBtn(page: Dom.Page, inProgress: bool)
      modifies page
      ensures page.View() == old(page.View()).(recordBtn := RecordButton(inProgress, isRecordingOwner))
    {
      if !inProgress {
        page.recordBtn := Dom.Button("Start Recording", false);
        return;
      }
      var disabled := !isRecordingOwner;
      page.recordBtn := Dom.Button("Stop Recording", disabled);
    }

    /** `getChatRecordingLayout`: push the line, shift until at most
        `MaxDisplayed` remain, and lay out the buffer. */
    method GetChatRecordingLayout(name: string, chatMsg: string) returns (layout: Daily.Layout)
      modifies this
      ensures visibleMessages == Window(old(visibleMessages) + [OverlayLine(name, chatMsg)])
      ensures layout == ChatLayout(visibleMessages)
      ensures reactionTimeout == old(reactionTimeout) && isRecordingOwner == old(isRecordingOwner)
      ensures Bounded(State())
    {
      visibleMessages := visibleMessages + [OverlayLine(name, chatMsg)];
      ghost var pushed := visibleMessages;
      while |visibleMessages| > MaxDisplayed
        invariant |visibleMessages| <= |pushed| && visibleMessages == pushed[|pushed| - |visibleMessages|..]
        invariant |visibleMessages| < |pushed| ==> |visibleMessages| >= MaxDisplayed
        invariant reactionTimeout == old(reactionTimeout) && isRecordingOwner == old(isRecordingOwner)
        decreases |visibleMessages|
      {
        visibleMessages := visibleMessages[1..];
      }
      layout := ChatLayout(visibleMessages);
    }

    /** `updateRecording(callObject, data)`. */
    method UpdateRecording(call: Daily.CallObject, data: RecordingData, amb: Ambient)
      modifies this, call
      ensures State() == Update(old(State()), data, amb).next
      ensures call.log == old(call.log) + Update(old(State()), data, amb).emitted
      ensures old(Bounded(State())) ==> Bounded(State())
    {
      if !isRecordingOwner {
        return;
      }
      var layout: Option<Daily.Layout> := None;
      match data {
        case ChatUpdate(name, msg) =>
          var chat := GetChatRecordingLayout(name, msg);
          layout := Some(chat);
        case EmojiUpdate(emoji) =>
          layout := ReactionRecordingLayout(emoji, amb);
          reactionTimeout := Some(amb.now + ReactionClearDelay);
        case OtherUpdate(_) =>
      }
      if layout.Some? {
        call.UpdateRecording(layout.value);
      }
    }

    /** The reaction timer's callback, run when the clock reaches `now`. */
    method FireReactionTimer(call: Daily.CallObject, now: int)
      modifies this, call
      ensures State() == Fire(old(State()), now).next
      ensures call.log == old(call.log) + Fire(old(State()), now).emitted
      ensures old(Bounded(State())) ==> Bounded(State())
    {
      if reactionTimeout.Some? && reactionTimeout.value <= now {
        reactionTimeout := None;
        call.UpdateRecording(ClearReactionLayout());
      }
    }
  }
}
