/**
 * The reel editor (class `Editor`, src/editor.ts).
 *
 * `createReel` is a sequence of awaited stages: name the output, probe the video for its
 * crop, pre-trim the audio, request subtitles, then start the final render, whose `end`
 * event deletes the temporary files and opens the reel. The external collaborators (ffprobe,
 * ffmpeg, the subtitle service, the filesystem, `open`) are not run: their outcomes are a
 * `Collaborators` value, and every call made to them is recorded, in order, as an `Effect`.
 * CreateReelRun states the whole run as a function; the method Editor.CreateReel is proved
 * to perform it.
 */
module ReelEditor {
  import opened Wrappers
  import opened Constants
  import opened Decimal
  import opened CropGeometry
  import opened ReelNaming
  import opened FilterGraph

  datatype TrimTimestamp = TrimTimestamp(start: int, end: int)

  /** The values the editor is constructed from. */
  datatype EditorOptions = EditorOptions(savedReelLocation: string, trimTimestamp: TrimTimestamp)

  /** How an ffmpeg run ends: with its `end` event or its `error` event. */
  datatype EngineEvent = RunEnd | RunError(message: string)

  /**
   * What the subtitle service's `fetch` gives: an ok response, a response that is not ok
   * (`ResponseStatus` stands only for a status outside 200-299), or a rejection.
   */
  datatype SubtitleResponse = ResponseOk | ResponseStatus(status: int) | FetchRejected(error: string)

  /** The outcomes of the external collaborators during one `createReel`. */
  datatype Collaborators = Collaborators(
    probe: ProbeResult,
    audioTrim: EngineEvent,
    subtitles: SubtitleResponse,
    render: EngineEvent,
    unlinksSucceed: bool)

  datatype ReelError = CropRejected(error: CropError) | AudioTrimFailed(message: string)

  /** How the promise returned by `createReel` settles. */
  datatype ReelOutcome = Resolved | Rejected(reason: ReelError)

  /** A call to a collaborator, or a console message. */
  datatype Effect =
    | Probe(path: string)
    | Log(message: string)
    | RunAudioTrim(trimJob: AudioTrimJob)
    | FetchSubtitles(audioPath: string, srtSaveLocation: string)
    | StartRender(renderJob: RenderJob)
    | Unlink(path: string)
    | Open(path: string)

  /** The fields of an Editor. */
  datatype EditorState = EditorState(
    savedReelLocation: string,
    reelFilename: string,
    startTimeSeconds: int,
    endTimeSeconds: int,
    reelDuration: int,
    videoName: Option<string>)

  /** What one `createReel` does: how its promise settles, its effects, the file name it leaves. */
  datatype RunResult = RunResult(outcome: ReelOutcome, effects: seq<Effect>, reelFilename: string)

  const TARGET_PATH_LOG: string := "Target path: "
  const TRIMMING_AUDIO_LOG: string := "Trimming reel audio. Please wait..."
  const AUDIO_ERROR_LOG: string := "Unable to processs audio: "
  const AUDIO_DONE_LOG: string := "Audio trim completed\n"
  const SUBTITLES_START_LOG: string := "Generating AI subtitles. Please wait - this could take some time...\n"
  const SUBTITLES_DONE_LOG: string := "Subtitle generation completed\n"
  const SUBTITLES_STATUS_ERROR: string := "Subtitle generation failed. Error code: "
  const REEL_DONE_LOG: string := "\nReel completed"
  const VIDEO_ERROR_LOG: string := "Unable to process video: "

  /** The temporary files deleted after a successful render, in the order of the source. */
  const TEMPORARY_FILES: seq<string> := [VIDEO_PATH, AUDIO_PATH, TRIMMED_AUDIO_PATH, SUBTITLE_FILE]

  lemma InstagramRatioSteppable()
    ensures ParseRatio(INSTAGRAM_ASPECT_RATIO) == Some((9, 16))
    ensures SteppableRatio(INSTAGRAM_ASPECT_RATIO)
  {
    ParseRatioString(9, 16);
    assert RatioString(9, 16) == "9:16" by {
      assert NatToString(9) == "9";
      assert NatToString(16) == "16" by {
        assert NatToString(1) == "1" && NatToString(6) == "6";
      }
    }
  }

  /**
   * `requestSubtitles`: its errors, a rejected `fetch` or a response that is not ok, are
   * caught and logged, so it always resolves.
   */
  function RequestSubtitles(filePath: string, response: SubtitleResponse): (effects: seq<Effect>)
    ensures |effects| == 3
    ensures effects[1] == FetchSubtitles(filePath, SRT_SAVE_LOCATION)
    ensures effects[0].Log? && effects[2].Log?
    ensures response.ResponseStatus? ==>
      effects[2] == Log(SUBTITLES_STATUS_ERROR + IntToString(response.status))
  {
    [Log(SUBTITLES_START_LOG), FetchSubtitles(filePath, SRT_SAVE_LOCATION)] +
    match response
    case ResponseOk => [Log(SUBTITLES_DONE_LOG)]
    case ResponseStatus(status) => [Log(SUBTITLES_STATUS_ERROR + IntToString(status))]
    case FetchRejected(error) => [Log(error)]
  }

  /**
   * The render's `end` and `error` handlers. On `end` the four temporary files are unlinked;
   * `open` runs only when every unlink succeeded, because a failed unlink rejects the awaited
   * `Promise.all` before it. On `error` the message is logged and nothing is deleted.
   */
  function RenderEventEffects(outputPath: string, event: EngineEvent, unlinksSucceed: bool): seq<Effect> {
    match event
    case RunEnd =>
      [Log(REEL_DONE_LOG)] + UnlinkAll(TEMPORARY_FILES) + (if unlinksSucceed then [Open(outputPath)] else [])
    case RunError(message) => [Log(VIDEO_ERROR_LOG + message)]
  }

  function UnlinkAll(paths: seq<string>): (effects: seq<Effect>)
    ensures |effects| == |paths|
    ensures forall i :: 0 <= i < |paths| ==> effects[i] == Unlink(paths[i])
  {
    if |paths| == 0 then [] else [Unlink(paths[0])] + UnlinkAll(paths[1..])
  }

  /** The effects of `createReel` from the audio pre-trim on, once the crop is known. */
  function RunFromAudioTrim(s: EditorState, c: Collaborators, crop: CropSize, outputPath: string): RunResult {
    var trimmed := [RunAudioTrim(AudioTrimJobFor(s.startTimeSeconds, s.endTimeSeconds))];
    match c.audioTrim
    case RunError(message) =>
      RunResult(Rejected(AudioTrimFailed(message)), trimmed + [Log(AUDIO_ERROR_LOG + message)], s.reelFilename)
    case RunEnd =>
      RunResult(
        Resolved,
        trimmed + [Log(AUDIO_DONE_LOG)] +
        RequestSubtitles(TRIMMED_AUDIO_PATH, c.subtitles) +
        [StartRender(RenderJobFor(crop, s.startTimeSeconds, s.endTimeSeconds, s.reelDuration, outputPath))] +
        RenderEventEffects(outputPath, c.render, c.unlinksSucceed),
        s.reelFilename)
  }

  /** The settled crop promise of a run: the probe outcome under the reel ratio units 9 and 16. */
  function ReelCrop(probe: ProbeResult): Result<CropSize, CropError> {
    CropFromUnits(9, 16, probe)
  }

  /** The crop of a run is the crop computed for the ratio string `9:16`. */
  lemma ReelCropOfRatio(probe: ProbeResult)
    ensures SteppableRatio(INSTAGRAM_ASPECT_RATIO)
    ensures ReelCrop(probe) == CropFromProbe(INSTAGRAM_ASPECT_RATIO, probe)
  {
    InstagramRatioSteppable();
  }

  /** The path the reel is rendered to and opened at: the location followed by the (renamed) file name. */
  function OutputPath(s: EditorState): string {
    s.savedReelLocation + FilenameFor(s.reelFilename, s.videoName)
  }

  /** The run gets past both the crop and the audio pre-trim. */
  predicate ReachesRender(c: Collaborators) {
    HasDimensions(c.probe) && c.audioTrim == RunEnd
  }

  /**
   * One `createReel` on an editor in state `s`. The promise resolves as soon as the final
   * render has been started; its `end`/`error` events are the last effects.
   */
  function CreateReelRun(s: EditorState, c: Collaborators): RunResult {
    var named := s.(reelFilename := FilenameFor(s.reelFilename, s.videoName));
    var outputPath := named.savedReelLocation + named.reelFilename;
    match ReelCrop(c.probe)
    case Failure(e) => RunResult(Rejected(CropRejected(e)), [Probe(VIDEO_PATH)], named.reelFilename)
    case Success(crop) => RunFromCrop(named, c, crop, outputPath)
  }

  /** The effects of `createReel` once the probe has given the crop. */
  function RunFromCrop(s: EditorState, c: Collaborators, crop: CropSize, outputPath: string): RunResult {
    var rest := RunFromAudioTrim(s, c, crop, outputPath);
    rest.(effects := [Probe(VIDEO_PATH), Log(TARGET_PATH_LOG + outputPath), Log(TRIMMING_AUDIO_LOG)] + rest.effects)
  }

  /** The kind of collaborator an effect calls; console messages call none. */
  datatype Call = ProbeCall | AudioTrimCall | SubtitlesCall | RenderCall | UnlinkCall | OpenCall

  function CallOf(e: Effect): seq<Call> {
    match e
    case Probe(_) => [ProbeCall]
    case Log(_) => []
    case RunAudioTrim(_) => [AudioTrimCall]
    case FetchSubtitles(_, _) => [SubtitlesCall]
    case StartRender(_) => [RenderCall]
    case Unlink(_) => [UnlinkCall]
    case Open(_) => [OpenCall]
  }

  /** The collaborator calls of a sequence of effects, in order. */
  function Calls(effects: seq<Effect>): seq<Call> {
    if |effects| == 0 then [] else CallOf(effects[0]) + Calls(effects[1..])
  }

  /** The order of the awaited stages of `createReel` and of the render's end handler. */
  const CALL_ORDER: seq<Call> :=
    [ProbeCall, AudioTrimCall, SubtitlesCall, RenderCall, UnlinkCall, UnlinkCall, UnlinkCall, UnlinkCall, OpenCall]

  lemma {:induction false} CallsConcat(a: seq<Effect>, b: seq<Effect>)
    ensures Calls(a + b) == Calls(a) + Calls(b)
  {
    if a == [] {
      assert a + b == b;
    } else {
      assert (a + b)[1..] == a[1..] + b;
      CallsConcat(a[1..], b);
    }
  }

  lemma {:induction false} CallsOfUnlinks(paths: seq<string>)
    ensures Calls(UnlinkAll(paths)) == seq(|paths|, _ => UnlinkCall)
  {
    if paths != [] {
      CallsOfUnlinks(paths[1..]);
      assert UnlinkAll(paths)[1..] == UnlinkAll(paths[1..]);
    }
  }

  lemma CallsOfOne(e: Effect)
    ensures Calls([e]) == CallOf(e)
  {
    assert [e][1..] == [];
  }

  const CLEANUP_CALLS: seq<Call> := [UnlinkCall, UnlinkCall, UnlinkCall, UnlinkCall]

  /** The calls of the render's event handlers. */
  function RenderEventCalls(event: EngineEvent, unlinksSucceed: bool): seq<Call> {
    if event.RunError? then [] else if unlinksSucceed then CLEANUP_CALLS + [OpenCall] else CLEANUP_CALLS
  }

  lemma CallsOfRenderEvents(outputPath: string, event: EngineEvent, unlinksSucceed: bool)
    ensures Calls(RenderEventEffects(outputPath, event, unlinksSucceed)) == RenderEventCalls(event, unlinksSucceed)
  {
    if event.RunError? {
      CallsOfOne(Log(VIDEO_ERROR_LOG + event.message));
    } else {
      var unlinks := UnlinkAll(TEMPORARY_FILES);
      var opening: seq<Effect> := if unlinksSucceed then [Open(outputPath)] else [];
      CallsOfOne(Log(REEL_DONE_LOG));
      CallsOfUnlinks(TEMPORARY_FILES);
      assert Calls(unlinks) == CLEANUP_CALLS;
      if unlinksSucceed {
        CallsOfOne(Open(outputPath));
      }
      CallsConcat([Log(REEL_DONE_LOG)], unlinks);
      CallsConcat([Log(REEL_DONE_LOG)] + unlinks, opening);
      if !unlinksSucceed {
        assert CLEANUP_CALLS + [] == CLEANUP_CALLS;
      }
    }
  }

  lemma CallsOfSubtitles(filePath: string, response: SubtitleResponse)
    ensures Calls(RequestSubtitles(filePath, response)) == [SubtitlesCall]
  {
    var e := RequestSubtitles(filePath, response);
    assert e == [e[0]] + [e[1]] + [e[2]];
    CallsOfOne(e[0]);
    CallsOfOne(e[1]);
    CallsOfOne(e[2]);
    CallsConcat([e[0]], [e[1]]);
    CallsConcat([e[0]] + [e[1]], [e[2]]);
  }

  lemma CallsOfTrimThenRender(trim: Effect, done: Effect, subtitles: seq<Effect>, render: Effect, events: seq<Effect>)
    requires trim.RunAudioTrim? && done.Log? && render.StartRender?
    requires Calls(subtitles) == [SubtitlesCall]
    ensures Calls([trim] + [done] + subtitles + [render] + events) ==
      [AudioTrimCall, SubtitlesCall, RenderCall] + Calls(events)
  {
    CallsOfOne(trim);
    CallsOfOne(done);
    CallsOfOne(render);
    CallsConcat([trim], [done]);
    CallsConcat([trim] + [done], subtitles);
    CallsConcat([trim] + [done] + subtitles, [render]);
    CallsConcat([trim] + [done] + subtitles + [render], events);
  }

  lemma CallsFromAudioTrim(s: EditorState, c: Collaborators, crop: CropSize, outputPath: string)
    ensures Calls(RunFromAudioTrim(s, c, crop, outputPath).effects) == TrimCalls(c.audioTrim, c.render, c.unlinksSucceed)
  {
    var trim := RunAudioTrim(AudioTrimJobFor(s.startTimeSeconds, s.endTimeSeconds));
    if c.audioTrim.RunError? {
      CallsOfOne(trim);
      CallsOfOne(Log(AUDIO_ERROR_LOG + c.audioTrim.message));
      CallsConcat([trim], [Log(AUDIO_ERROR_LOG + c.audioTrim.message)]);
    } else {
      CallsOfSubtitles(TRIMMED_AUDIO_PATH, c.subtitles);
      CallsOfRenderEvents(outputPath, c.render, c.unlinksSucceed);
      CallsOfTrimThenRender(trim, Log(AUDIO_DONE_LOG), RequestSubtitles(TRIMMED_AUDIO_PATH, c.subtitles),
        StartRender(RenderJobFor(crop, s.startTimeSeconds, s.endTimeSeconds, s.reelDuration, outputPath)),
        RenderEventEffects(outputPath, c.render, c.unlinksSucceed));
    }
  }


  /**
   * The collaborator calls a run makes, by how far it gets: the probe always, then the audio
   * trim once a crop is known; subtitles and the render once the trim ended; the unlinks once
   * the render ended; `open` once every unlink succeeded.
   */
  function ExpectedCalls(c: Collaborators): seq<Call> {
    if !HasDimensions(c.probe) then [ProbeCall]
    else [ProbeCall] + TrimCalls(c.audioTrim, c.render, c.unlinksSucceed)
  }

  /** The calls from the audio trim on: the render and its handlers follow only a trim that ended. */
  function TrimCalls(audioTrim: EngineEvent, render: EngineEvent, unlinksSucceed: bool): seq<Call> {
    if audioTrim.RunError? then [AudioTrimCall]
    else [AudioTrimCall, SubtitlesCall, RenderCall] + RenderEventCalls(render, unlinksSucceed)
  }

  /** The calls of every run are the ones ExpectedCalls lists, in that order. */
  lemma CallsOfRun(s: EditorState, c: Collaborators)
    ensures Calls(CreateReelRun(s, c).effects) == ExpectedCalls(c)
  {
    if ReelCrop(c.probe).Failure? {
      CallsOfOne(Probe(VIDEO_PATH));
    } else {
      var named := s.(reelFilename := FilenameFor(s.reelFilename, s.videoName));
      CallsFromCrop(named, c, ReelCrop(c.probe).value, named.savedReelLocation + named.reelFilename);
    }
  }

  lemma CallsFromCrop(s: EditorState, c: Collaborators, crop: CropSize, outputPath: string)
    requires HasDimensions(c.probe)
    ensures Calls(RunFromCrop(s, c, crop, outputPath).effects) == ExpectedCalls(c)
  {
    var head := [Probe(VIDEO_PATH), Log(TARGET_PATH_LOG + outputPath), Log(TRIMMING_AUDIO_LOG)];
    var rest := RunFromAudioTrim(s, c, crop, outputPath);
    assert RunFromCrop(s, c, crop, outputPath).effects == head + rest.effects;
    CallsOfHead(head[0], head[1], head[2]);
    CallsConcat(head, rest.effects);
    CallsFromAudioTrim(s, c, crop, outputPath);
  }

  /**
   * Every run calls its collaborators in a prefix of the fixed stage order: probe, audio
   * trim, subtitles, render, the four unlinks, open. A stage that fails ends the sequence.
   */
  lemma CollaboratorCallOrder(s: EditorState, c: Collaborators)
    ensures Calls(CreateReelRun(s, c).effects) <= CALL_ORDER
  {
    CallsOfRun(s, c);
    var calls := ExpectedCalls(c);
    if !HasDimensions(c.probe) {
      assert CALL_ORDER == calls + CALL_ORDER[1..];
    } else if c.audioTrim.RunError? {
      assert CALL_ORDER == calls + CALL_ORDER[2..];
    } else if c.render.RunError? {
      assert calls == [ProbeCall] + [AudioTrimCall, SubtitlesCall, RenderCall];
      assert CALL_ORDER == calls + CALL_ORDER[4..];
    } else if !c.unlinksSucceed {
      assert calls == [ProbeCall] + ([AudioTrimCall, SubtitlesCall, RenderCall] + CLEANUP_CALLS);
      assert CALL_ORDER == calls + [OpenCall];
    } else {
      assert calls == [ProbeCall] + ([AudioTrimCall, SubtitlesCall, RenderCall] + (CLEANUP_CALLS + [OpenCall]));
    }
  }

  lemma CallsOfHead(probe: Effect, target: Effect, trimming: Effect)
    requires probe.Probe? && target.Log? && trimming.Log?
    ensures Calls([probe, target, trimming]) == [ProbeCall]
  {
    assert [probe, target, trimming] == [probe] + [target] + [trimming];
    CallsOfOne(probe);
    CallsOfOne(target);
    CallsOfOne(trimming);
    CallsConcat([probe], [target]);
    CallsConcat([probe] + [target], [trimming]);
  }

  lemma {:induction false} CallPresent(effects: seq<Effect>, k: Call)
    ensures k in Calls(effects) <==> exists e :: e in effects && k in CallOf(e)
  {
    if effects != [] {
      CallPresent(effects[1..], k);
      assert forall e :: e in effects <==> e == effects[0] || e in effects[1..];
    }
  }

  /**
   * How far a run gets: the audio is trimmed once a crop is known; subtitles are requested
   * and the render is started exactly when the trim ended; the temporary files are deleted
   * exactly when the render ended; the reel is opened exactly when the deletions succeeded.
   */
  lemma StagesReached(s: EditorState, c: Collaborators)
    ensures var r := CreateReelRun(s, c);
      && (ReelCrop(c.probe).Success? <==> exists e :: e in r.effects && e.RunAudioTrim?)
      && (ReachesRender(c) <==> exists e :: e in r.effects && e.FetchSubtitles?)
      && (ReachesRender(c) <==> exists e :: e in r.effects && e.StartRender?)
      && (ReachesRender(c) && c.render == RunEnd <==> exists e :: e in r.effects && e.Unlink?)
      && (ReachesRender(c) && c.render == RunEnd && c.unlinksSucceed <==> exists e :: e in r.effects && e.Open?)
  {
    var r := CreateReelRun(s, c);
    CallsOfRun(s, c);
    CallKinds(r.effects);
    ExpectedCallKinds(c);
  }

  /** Which calls ExpectedCalls lists. */
  lemma ExpectedCallKinds(c: Collaborators)
    ensures AudioTrimCall in ExpectedCalls(c) <==> ReelCrop(c.probe).Success?
    ensures SubtitlesCall in ExpectedCalls(c) <==> ReachesRender(c)
    ensures RenderCall in ExpectedCalls(c) <==> ReachesRender(c)
    ensures UnlinkCall in ExpectedCalls(c) <==> ReachesRender(c) && c.render == RunEnd
    ensures OpenCall in ExpectedCalls(c) <==> ReachesRender(c) && c.render == RunEnd && c.unlinksSucceed
  {
    assert UnlinkCall in CLEANUP_CALLS;
  }

  /** A call kind occurs among the calls of some effects exactly when an effect of that kind does. */
  lemma CallKinds(effects: seq<Effect>)
    ensures AudioTrimCall in Calls(effects) <==> exists e :: e in effects && e.RunAudioTrim?
    ensures SubtitlesCall in Calls(effects) <==> exists e :: e in effects && e.FetchSubtitles?
    ensures RenderCall in Calls(effects) <==> exists e :: e in effects && e.StartRender?
    ensures UnlinkCall in Calls(effects) <==> exists e :: e in effects && e.Unlink?
    ensures OpenCall in Calls(effects) <==> exists e :: e in effects && e.Open?
  {
    forall e | e in effects
      ensures AudioTrimCall in CallOf(e) <==> e.RunAudioTrim?
      ensures SubtitlesCall in CallOf(e) <==> e.FetchSubtitles?
      ensures RenderCall in CallOf(e) <==> e.StartRender?
      ensures UnlinkCall in CallOf(e) <==> e.Unlink?
      ensures OpenCall in CallOf(e) <==> e.Open?
    {
    }
    CallPresent(effects, AudioTrimCall);
    CallPresent(effects, SubtitlesCall);
    CallPresent(effects, RenderCall);
    CallPresent(effects, UnlinkCall);
    CallPresent(effects, OpenCall);
  }

  /**
   * Which rejection a failed crop gives: a probe error rejects with the probe's error, and a
   * missing or zero width or height with "Video width/height could not be found".
   */
  lemma CropRejection(s: EditorState, c: Collaborators)
    ensures c.probe.ProbeError? ==>
      CreateReelRun(s, c).outcome == Rejected(CropRejected(ProbeFailed(c.probe.message)))
    ensures c.probe.ProbeMetadata? && !HasDimensions(c.probe) ==>
      CreateReelRun(s, c).outcome == Rejected(CropRejected(DimensionsUnavailable)) &&
      CropErrorMessage(DimensionsUnavailable) == "Video width/height could not be found"
  {
    CropErrorMessages("");
  }

  /**
   * How the promise settles: it resolves exactly when the render was started; a probe
   * failure rejects with the crop error before anything else runs; an audio trim failure
   * rejects with the ffmpeg message after logging it. The file name is decided first.
   */
  lemma RunOutcome(s: EditorState, c: Collaborators)
    ensures var r := CreateReelRun(s, c);
      && (r.outcome == Resolved <==> ReachesRender(c))
      && r.reelFilename == FilenameFor(s.reelFilename, s.videoName)
      && (ReelCrop(c.probe).Failure? ==>
            r.outcome == Rejected(CropRejected(ReelCrop(c.probe).error)) && r.effects == [Probe(VIDEO_PATH)])
      && (ReelCrop(c.probe).Success? && c.audioTrim.RunError? ==>
            r.outcome == Rejected(AudioTrimFailed(c.audioTrim.message)) &&
            r.effects[|r.effects| - 1] == Log(AUDIO_ERROR_LOG + c.audioTrim.message))
  {
  }

  /**
   * The outcome does not depend on the subtitle service, the render or the deletions: the
   * promise has settled before any of their results are known.
   */
  lemma OutcomeIgnoresLaterStages(s: EditorState, c: Collaborators, subtitles: SubtitleResponse,
                                  render: EngineEvent, unlinksSucceed: bool)
    ensures var later := c.(subtitles := subtitles, render := render, unlinksSucceed := unlinksSucceed);
      CreateReelRun(s, later).outcome == CreateReelRun(s, c).outcome
  {
  }

  /** No effect of the sequence starts a render, deletes a file or opens one. */
  predicate BeforeRender(effects: seq<Effect>) {
    forall e :: e in effects ==> !e.StartRender? && !e.Unlink? && !e.Open?
  }

  /**
   * Where the render stage's effects sit in a run: the render is the only StartRender, the
   * deletions and the open come from the event handlers only, and the head stays in front.
   */
  lemma RenderStageEffects(all: seq<Effect>, head: seq<Effect>, trim: Effect, done: Effect,
                           subtitles: seq<Effect>, render: Effect, events: seq<Effect>)
    requires all == head + ([trim] + [done] + subtitles + [render] + events)
    requires BeforeRender(head) && BeforeRender(subtitles)
    requires trim.RunAudioTrim? && done.Log? && render.StartRender?
    requires forall e :: e in events ==> !e.StartRender?
    ensures render in all
    ensures forall e :: e in subtitles ==> e in all
    ensures forall e: Effect :: e.StartRender? ==> (e in all <==> e == render)
    ensures forall e: Effect :: e.Unlink? || e.Open? ==> (e in all <==> e in events)
    ensures forall i :: 0 <= i < |head| ==> all[i] == head[i]
    ensures |events| > 0 ==> all[|all| - 1] == events[|events| - 1]
  {
    assert all == (head + [trim] + [done] + subtitles) + [render] + events;
    forall e | e in all
      ensures e in head || e == trim || e == done || e in subtitles || e == render || e in events
    {
    }
  }

  lemma SubtitlesBeforeRender(filePath: string, response: SubtitleResponse)
    ensures BeforeRender(RequestSubtitles(filePath, response))
  {
    var e := RequestSubtitles(filePath, response);
    assert e == [e[0], e[1], e[2]];
  }

  lemma StartedRenderFromCrop(s: EditorState, c: Collaborators, crop: CropSize, outputPath: string)
    ensures var r := RunFromCrop(s, c, crop, outputPath);
      && r.effects[1] == Log(TARGET_PATH_LOG + outputPath)
      && (c.audioTrim == RunEnd ==>
            StartRender(RenderJobFor(crop, s.startTimeSeconds, s.endTimeSeconds, s.reelDuration, outputPath)) in r.effects &&
            FetchSubtitles(TRIMMED_AUDIO_PATH, SRT_SAVE_LOCATION) in r.effects)
      && (forall job :: StartRender(job) in r.effects ==>
            job == RenderJobFor(crop, s.startTimeSeconds, s.endTimeSeconds, s.reelDuration, outputPath))
  {
    if c.audioTrim == RunEnd {
      RenderStageEffectsFromCrop(s, c, crop, outputPath);
    }
  }


  /**
   * The final render is started with the crop of the probe, the editor's trim window and
   * duration, and the output path; a failed subtitle request does not prevent it, and the
   * target path is logged before the audio trim.
   */
  lemma RenderStarted(s: EditorState, c: Collaborators)
    ensures var r := CreateReelRun(s, c);
      && (ReelCrop(c.probe).Success? ==> r.effects[1] == Log(TARGET_PATH_LOG + OutputPath(s)))
      && (ReachesRender(c) ==>
            StartRender(RenderJobFor(ReelCrop(c.probe).value, s.startTimeSeconds, s.endTimeSeconds,
                                     s.reelDuration, OutputPath(s))) in r.effects &&
            FetchSubtitles(TRIMMED_AUDIO_PATH, SRT_SAVE_LOCATION) in r.effects)
      && (forall job :: StartRender(job) in r.effects ==>
            ReelCrop(c.probe).Success? &&
            job == RenderJobFor(ReelCrop(c.probe).value, s.startTimeSeconds, s.endTimeSeconds,
                                s.reelDuration, OutputPath(s)))
  {
    if ReelCrop(c.probe).Success? {
      var named := s.(reelFilename := FilenameFor(s.reelFilename, s.videoName));
      StartedRenderFromCrop(named, c, ReelCrop(c.probe).value, OutputPath(s));
    }
  }

  lemma {:induction false} UnlinkedPaths(paths: seq<string>)
    ensures forall p :: Unlink(p) in UnlinkAll(paths) <==> p in paths
    ensures forall e :: e in UnlinkAll(paths) ==> e.Unlink?
  {
    if paths != [] {
      UnlinkedPaths(paths[1..]);
      assert UnlinkAll(paths) == [Unlink(paths[0])] + UnlinkAll(paths[1..]);
      assert forall p :: p in paths <==> p == paths[0] || p in paths[1..];
    }
  }

  lemma RenderEventsCleanup(outputPath: string, event: EngineEvent, unlinksSucceed: bool)
    ensures var events := RenderEventEffects(outputPath, event, unlinksSucceed);
      && (forall p :: Unlink(p) in events <==> event == RunEnd && p in TEMPORARY_FILES)
      && (forall p :: Open(p) in events <==> event == RunEnd && unlinksSucceed && p == outputPath)
      && (event.RunError? ==> events == [Log(VIDEO_ERROR_LOG + event.message)])
      && (forall e :: e in events ==> !e.StartRender?)
  {
    UnlinkedPaths(TEMPORARY_FILES);
  }

  lemma CleanupFromCrop(s: EditorState, c: Collaborators, crop: CropSize, outputPath: string)
    ensures var r := RunFromCrop(s, c, crop, outputPath);
      && (forall p :: Unlink(p) in r.effects <==> c.audioTrim == RunEnd && c.render == RunEnd && p in TEMPORARY_FILES)
      && (forall p :: Open(p) in r.effects <==>
            c.audioTrim == RunEnd && c.render == RunEnd && c.unlinksSucceed && p == outputPath)
      && (c.audioTrim == RunEnd && c.render.RunError? ==>
            r.effects[|r.effects| - 1] == Log(VIDEO_ERROR_LOG + c.render.message))
  {
    RenderEventsCleanup(outputPath, c.render, c.unlinksSucceed);
    if c.audioTrim == RunEnd {
      RenderStageEffectsFromCrop(s, c, crop, outputPath);
    } else {
      var r := RunFromCrop(s, c, crop, outputPath);
      assert forall e :: e in r.effects ==> !e.Unlink? && !e.Open?;
    }
  }

  /** RenderStageEffects, for the effects of a run whose trim ended. */
  lemma RenderStageEffectsFromCrop(s: EditorState, c: Collaborators, crop: CropSize, outputPath: string)
    requires c.audioTrim == RunEnd
    ensures var r := RunFromCrop(s, c, crop, outputPath);
      var render := StartRender(RenderJobFor(crop, s.startTimeSeconds, s.endTimeSeconds, s.reelDuration, outputPath));
      var events := RenderEventEffects(outputPath, c.render, c.unlinksSucceed);
      && render in r.effects
      && FetchSubtitles(TRIMMED_AUDIO_PATH, SRT_SAVE_LOCATION) in r.effects
      && (forall e: Effect :: e.StartRender? ==> (e in r.effects <==> e == render))
      && (forall e: Effect :: e.Unlink? || e.Open? ==> (e in r.effects <==> e in events))
      && r.effects[1] == Log(TARGET_PATH_LOG + outputPath)
      && (|events| > 0 ==> r.effects[|r.effects| - 1] == events[|events| - 1])
  {
    var head := [Probe(VIDEO_PATH), Log(TARGET_PATH_LOG + outputPath), Log(TRIMMING_AUDIO_LOG)];
    var trim := RunAudioTrim(AudioTrimJobFor(s.startTimeSeconds, s.endTimeSeconds));
    var subtitles := RequestSubtitles(TRIMMED_AUDIO_PATH, c.subtitles);
    var render := StartRender(RenderJobFor(crop, s.startTimeSeconds, s.endTimeSeconds, s.reelDuration, outputPath));
    var events := RenderEventEffects(outputPath, c.render, c.unlinksSucceed);
    var rest := RunFromAudioTrim(s, c, crop, outputPath);
    assert rest.effects == [trim] + [Log(AUDIO_DONE_LOG)] + subtitles + [render] + events;
    var all := RunFromCrop(s, c, crop, outputPath).effects;
    assert all == head + rest.effects;
    SubtitlesBeforeRender(TRIMMED_AUDIO_PATH, c.subtitles);
    RenderEventsCleanup(outputPath, c.render, c.unlinksSucceed);
    RenderStageEffects(all, head, trim, Log(AUDIO_DONE_LOG), subtitles, render, events);
    assert subtitles[1] in subtitles;
    assert all[1] == head[1];
  }


  /**
   * The render's end handler deletes exactly the four temporary files and opens exactly the
   * rendered reel, and only when the render ended (the open also needs every deletion to
   * succeed); a render error only logs its message.
   */
  lemma CleanupAfterRender(s: EditorState, c: Collaborators)
    ensures var r := CreateReelRun(s, c);
      && (forall p :: Unlink(p) in r.effects <==> ReachesRender(c) && c.render == RunEnd && p in TEMPORARY_FILES)
      && (forall p :: Open(p) in r.effects <==>
            ReachesRender(c) && c.render == RunEnd && c.unlinksSucceed && p == OutputPath(s))
      && (ReachesRender(c) && c.render.RunError? ==>
            r.effects[|r.effects| - 1] == Log(VIDEO_ERROR_LOG + c.render.message))
  {
    if ReelCrop(c.probe).Success? {
      var named := s.(reelFilename := FilenameFor(s.reelFilename, s.videoName));
      CleanupFromCrop(named, c, ReelCrop(c.probe).value, OutputPath(s));
    }
  }

  /**
   * For an editor whose duration is its trim window, the render job (the only one a run
   * starts, by RenderStarted) cuts the audio exactly as the pre-trim did, and its darkening
   * layer lasts the window and has the crop's size.
   */
  lemma RenderMatchesTrim(s: EditorState, crop: CropSize, outputPath: string)
    requires s.reelDuration == s.endTimeSeconds - s.startTimeSeconds
    ensures var job := RenderJobFor(crop, s.startTimeSeconds, s.endTimeSeconds, s.reelDuration, outputPath);
      && job.audioFilters == AudioTrimJobFor(s.startTimeSeconds, s.endTimeSeconds).audioFilters
      && OptionValue(job.complexFilter[0].options, "duration") == Some(Num(s.endTimeSeconds - s.startTimeSeconds))
      && OptionValue(job.complexFilter[0].options, "size") == Some(Text(SizeString(crop)))
      && job.output == outputPath
  {
    var g := VideoGraph(crop, s.startTimeSeconds, s.endTimeSeconds, s.reelDuration);
    assert RenderJobFor(crop, s.startTimeSeconds, s.endTimeSeconds, s.reelDuration, outputPath).complexFilter == g;
    OverlayMatchesCrop(crop, s.startTimeSeconds, s.endTimeSeconds, s.reelDuration);
    TrimWindowsAgree(crop, s.startTimeSeconds, s.endTimeSeconds, s.reelDuration, outputPath);
  }

  /** The render cuts the audio as the pre-trim of the window does, and its darkening layer lasts the window. */
  predicate FollowsWindow(job: RenderJob, start: int, end: int) {
    && job.audioFilters == AudioTrimJobFor(start, end).audioFilters
    && |job.complexFilter| > 0
    && OptionValue(job.complexFilter[0].options, "duration") == Some(Num(end - start))
  }

  /** On a state whose duration is its trim window, every render a run starts follows that window. */
  lemma RenderFollowsWindow(s: EditorState, c: Collaborators, effects: seq<Effect>)
    requires s.reelDuration == s.endTimeSeconds - s.startTimeSeconds
    requires effects == CreateReelRun(s, c).effects
    ensures forall job :: StartRender(job) in effects ==> FollowsWindow(job, s.startTimeSeconds, s.endTimeSeconds)
  {
    RenderStarted(s, c);
    forall job | StartRender(job) in effects
      ensures FollowsWindow(job, s.startTimeSeconds, s.endTimeSeconds)
    {
      var crop := ReelCrop(c.probe).value;
      assert job == RenderJobFor(crop, s.startTimeSeconds, s.endTimeSeconds, s.reelDuration, OutputPath(s));
      RenderMatchesTrim(s, crop, OutputPath(s));
    }
  }

  class Editor {
    var savedReelLocation: string
    var reelFilename: string
    var startTimeSeconds: int
    var endTimeSeconds: int
    var reelDuration: int
    var videoName: Option<string>

    /** The duration is fixed at construction from the trim window. */
    ghost predicate Valid()
      reads this
    {
      reelDuration == endTimeSeconds - startTimeSeconds
    }

    function State(): EditorState
      reads this
    {
      EditorState(savedReelLocation, reelFilename, startTimeSeconds, endTimeSeconds, reelDuration, videoName)
    }

    constructor (options: EditorOptions)
      ensures Valid()
      ensures State() == EditorState(options.savedReelLocation, DEFAULT_FILENAME,
        options.trimTimestamp.start, options.trimTimestamp.end,
        options.trimTimestamp.end - options.trimTimestamp.start, None)
    {
      savedReelLocation := options.savedReelLocation;
      reelFilename := DEFAULT_REEL_FILENAME + MP4_EXTENSION;
      startTimeSeconds := options.trimTimestamp.start;
      endTimeSeconds := options.trimTimestamp.end;
      reelDuration := options.trimTimestamp.end - options.trimTimestamp.start;
      videoName := None;
    }

    method SetVideoName(name: string)
      requires Valid()
      modifies this`videoName
      ensures Valid()
      ensures State() == old(State()).(videoName := Some(name))
    {
      videoName := Some(name);
    }

    method SetReelFilename(name: string)
      requires Valid()
      modifies this`reelFilename
      ensures Valid()
      ensures State() == old(State()).(reelFilename := name + MP4_EXTENSION)
    {
      reelFilename := name + MP4_EXTENSION;
    }

    /**
     * `computeCropDimensions`: the probe's rejections, or the crop of the stepping loop
     * GrowToSource for the parsed ratio units.
     */
    method ComputeCropDimensions(aspectRatio: string, probe: ProbeResult) returns (r: Result<CropSize, CropError>)
      requires SteppableRatio(aspectRatio)
      ensures r == CropFromProbe(aspectRatio, probe)
    {
      var ratio := ParseRatio(aspectRatio).value;
      var targetWidth, targetHeight := ratio.0, ratio.1;
      if probe.ProbeError? {
        return Failure(ProbeFailed(probe.message));
      }
      var videoHeight, videoWidth := probe.height, probe.width;
      if !Truthy(videoHeight) || !Truthy(videoWidth) {
        return Failure(DimensionsUnavailable);
      }
      var size := GrowToSource(targetWidth, targetHeight, videoWidth.value, videoHeight.value);
      r := Success(size);
    }

    /**
     * The stepping loop of `computeCropDimensions`: both sides start at 1 and grow by one ratio
     * unit while both are below the source size; then the height is reduced by both units.
     */
    method GrowToSource(targetWidth: nat, targetHeight: nat, srcWidth: int, srcHeight: int)
      returns (size: CropSize)
      requires targetWidth > 0 || targetHeight > 0
      ensures size == CropDimensions(targetWidth, targetHeight, srcWidth, srcHeight)
    {
      ghost var steps := CropSteps(targetWidth, targetHeight, srcWidth, srcHeight);
      CropStepsIsLeast(targetWidth, targetHeight, srcWidth, srcHeight);
      var computedWidth, computedHeight := 1, 1;
      ghost var k: nat := 0;
      while computedWidth < srcWidth && computedHeight < srcHeight
        invariant computedWidth == 1 + k * targetWidth && computedHeight == 1 + k * targetHeight
        invariant k <= steps
        decreases steps - k
      {
        assert StepContinues(targetWidth, targetHeight, srcWidth, srcHeight, k);
        assert (k + 1) * targetWidth == k * targetWidth + targetWidth;
        assert (k + 1) * targetHeight == k * targetHeight + targetHeight;
        computedWidth := computedWidth + targetWidth;
        computedHeight := computedHeight + targetHeight;
        k := k + 1;
      }
      assert !StepContinues(targetWidth, targetHeight, srcWidth, srcHeight, k);
      assert k == steps;
      computedHeight := computedHeight - targetWidth;
      computedHeight := computedHeight - targetHeight;
      size := CropSize(computedWidth, computedHeight);
    }

    /** `createReel`'s naming step: a usable video title replaces the default file name. */
    method ApplyVideoName()
      requires Valid()
      modifies this`reelFilename
      ensures Valid()
      ensures State() == old(State()).(reelFilename := FilenameFor(old(reelFilename), videoName))
    {
      if videoName.Some? && videoName.value != "" {
        var newReelName := SanitisedName(videoName.value);
        if newReelName != "" {
          SetReelFilename(newReelName);
        }
      }
    }

    /** `createReel` from the audio pre-trim on, once the crop is known. */
    method TrimAndRender(c: Collaborators, crop: CropSize, outputPath: string) returns (outcome: ReelOutcome, effects: seq<Effect>)
      ensures RunResult(outcome, effects, reelFilename) == RunFromAudioTrim(State(), c, crop, outputPath)
    {
      effects := [RunAudioTrim(AudioTrimJobFor(startTimeSeconds, endTimeSeconds))];
      if c.audioTrim.RunError? {
        effects := effects + [Log(AUDIO_ERROR_LOG + c.audioTrim.message)];
        return Rejected(AudioTrimFailed(c.audioTrim.message)), effects;
      }
      effects := effects + [Log(AUDIO_DONE_LOG)];
      effects := effects + RequestSubtitles(TRIMMED_AUDIO_PATH, c.subtitles);
      effects := effects + [StartRender(RenderJobFor(crop, startTimeSeconds, endTimeSeconds, reelDuration, outputPath))];
      outcome := Resolved;
      effects := effects + RenderEventEffects(outputPath, c.render, c.unlinksSucceed);
    }

    /**
     * `createReel`, with the collaborators' outcomes given. On an editor whose duration is its
     * trim window, a started render cuts the audio as the pre-trim did and darkens for the window.
     */
    method CreateReel(c: Collaborators) returns (outcome: ReelOutcome, effects: seq<Effect>)
      requires Valid()
      modifies this`reelFilename
      ensures Valid()
      ensures RunResult(outcome, effects, reelFilename) == CreateReelRun(old(State()), c)
      ensures forall job :: StartRender(job) in effects ==> FollowsWindow(job, startTimeSeconds, endTimeSeconds)
    {
      ghost var before := State();
      outcome, effects := RunStages(c);
      assert startTimeSeconds == before.startTimeSeconds && endTimeSeconds == before.endTimeSeconds;
      RenderFollowsWindow(before, c, effects);
    }

    /** The stages of `createReel` in the order the source awaits them. */
    method RunStages(c: Collaborators) returns (outcome: ReelOutcome, effects: seq<Effect>)
      requires Valid()
      modifies this`reelFilename
      ensures Valid()
      ensures RunResult(outcome, effects, reelFilename) == CreateReelRun(old(State()), c)
    {
      ApplyVideoName();
      ReelCropOfRatio(c.probe);
      var dimensions := ComputeCropDimensions(INSTAGRAM_ASPECT_RATIO, c.probe);
      if dimensions.Failure? {
        return Rejected(CropRejected(dimensions.error)), [Probe(VIDEO_PATH)];
      }
      var outputPath := savedReelLocation + reelFilename;
      var rest;
      outcome, rest := TrimAndRender(c, dimensions.value, outputPath);
      effects := [Probe(VIDEO_PATH), Log(TARGET_PATH_LOG + outputPath), Log(TRIMMING_AUDIO_LOG)] + rest;
    }
  }
}
