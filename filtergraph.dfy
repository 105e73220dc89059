/**
 * The ffmpeg jobs `createReel` builds (src/editor.ts), as values: the complex filter graph of
 * the final render, the audio filter chain used by both renders, and each job's inputs,
 * output options and output path.
 *
 * A stage is one `{filter, options, inputs, outputs}` literal; `inputs`/`outputs` written as a
 * single string in the source are one-element sequences here, and absent ones are empty.
 */
module FilterGraph {
  import opened Wrappers
  import opened Constants
  import opened Decimal
  import opened CropGeometry

  /** An option value: the source writes numbers and strings. */
  datatype Value = Num(n: int) | Text(s: string)

  /** Named options (an object literal), or a single option string such as `PTS-STARTPTS`. */
  datatype Options = Named(entries: seq<(string, Value)>) | Raw(text: string)

  datatype Stage = Stage(filter: string, options: Options, inputs: seq<string>, outputs: seq<string>)

  /** `ffmpeg(AUDIO_PATH).audioFilters(...).output(TRIMMED_AUDIO_PATH)`. */
  datatype AudioTrimJob = AudioTrimJob(input: string, audioFilters: seq<Stage>, output: string)

  /** The final render: `ffmpeg(VIDEO_PATH).input(AUDIO_PATH).input(logo)...`. */
  datatype RenderJob = RenderJob(
    inputs: seq<string>,
    complexFilter: seq<Stage>,
    audioFilters: seq<Stage>,
    outputOptions: seq<string>,
    output: string,
    videoBitrate: int)

  const LOGO_PATH: string := "./data/logo.png"
  /** The subtitle file the subtitle service writes. */
  const SUBTITLE_FILE: string := SRT_SAVE_LOCATION + "/subtitles.srt"
  const SUBTITLE_STYLE: string :=
    "Alignment=10,FontName=Avenir Next Bold,Fontsize=8,MarginL=5,MarginV=25,Outline=0"
  const TIMELINE_RESET: string := "PTS-STARTPTS"
  const LOGO_Y: int := 130
  const VIDEO_BITRATE: int := 15000

  /** The ffmpeg stream specifier of stream `kind` of input `index`, such as `0:v`. */
  function StreamRef(index: nat, kind: string): string {
    NatToString(index) + ":" + kind
  }

  /** The stream specifiers the final render uses. */
  lemma InputStreamRefs()
    ensures StreamRef(0, "v") == "0:v" && StreamRef(1, "a") == "1:a" && StreamRef(2, "v") == "2:v"
  {
    assert DigitChar(0) == '0' && DigitChar(1) == '1' && DigitChar(2) == '2';
  }

  /** The value of option `key` of a stage, if it has one. */
  function OptionValue(o: Options, key: string): Option<Value> {
    match o
    case Raw(_) => None
    case Named(entries) => Lookup(entries, key)
  }

  function Lookup(entries: seq<(string, Value)>, key: string): Option<Value> {
    if |entries| == 0 then None
    else if entries[0].0 == key then Some(entries[0].1)
    else Lookup(entries[1..], key)
  }

  /** Lookup finds the first entry with the key. */
  lemma {:induction false} LookupFirst(entries: seq<(string, Value)>, key: string, i: nat)
    requires i < |entries| && entries[i].0 == key
    requires forall j :: 0 <= j < i ==> entries[j].0 != key
    ensures Lookup(entries, key) == Some(entries[i].1)
  {
    if i > 0 {
      LookupFirst(entries[1..], key, i - 1);
    }
  }

  /** Horizontal logo position: further right for crops wider than 500 pixels. */
  function LogoX(cropWidth: int): (x: int)
    ensures x == 220 || x == 100
    ensures x == 220 <==> cropWidth > 500
  {
    if cropWidth > 500 then 220 else 100
  }

  /** `${+width}x${+height}`: the size option of the darkening layer. */
  function SizeString(crop: CropSize): string {
    IntToString(crop.width) + "x" + IntToString(crop.height)
  }

  /** The inverse of SizeString. */
  function ParseSize(s: string): Option<CropSize> {
    match SplitOnce(s, 'x')
    case None => None
    case Some(parts) =>
      match (ParseInt(parts.0), ParseInt(parts.1))
      case (Some(w), Some(h)) => Some(CropSize(w, h))
      case _ => None
  }

  /** The audio filter chain: cut to [start, end], then move the cut's first sample to time 0. */
  function AudioChain(start: int, end: int): (a: seq<Stage>)
    ensures |a| == 2
  {
    [ Stage("atrim", Named([("start", Num(start)), ("end", Num(end))]), [], []),
      Stage("asetpts", Raw(TIMELINE_RESET), [], []) ]
  }

  /** The complex filter graph of the final render. */
  function VideoGraph(crop: CropSize, start: int, end: int, duration: int): (g: seq<Stage>)
    ensures |g| == 8
  {
    [ Stage("color",
            Named([("color", Text("black@.4")), ("size", Text(SizeString(crop))), ("duration", Num(duration))]),
            [], ["overlay"]),
      Stage("crop", Named([("w", Num(crop.width)), ("h", Num(crop.height))]), ["0:v"], ["croppedReel"]),
      Stage("trim", Named([("start", Num(start)), ("end", Num(end))]), ["croppedReel"], ["trimmedReel"]),
      Stage("setpts", Raw(TIMELINE_RESET), ["trimmedReel"], ["newTrimmedReel"]),
      Stage("overlay", Named([("x", Num(0)), ("y", Num(0))]), ["newTrimmedReel", "overlay"], ["darkenedReel"]),
      Stage("scale", Named([("w", Text("157.5")), ("h", Text("118.1"))]), ["2:v"], ["scaledLogo"]),
      Stage("overlay",
            Named([("x", Num(LogoX(crop.width))), ("y", Num(LOGO_Y)), ("format", Text("rgb"))]),
            ["darkenedReel", "scaledLogo"], ["reelWithLogo"]),
      Stage("subtitles",
            Named([("filename", Text(SUBTITLE_FILE)), ("force_style", Text(SUBTITLE_STYLE))]),
            ["reelWithLogo"], []) ]
  }

  /** The audio pre-trim job that runs before subtitles are requested. */
  function AudioTrimJobFor(start: int, end: int): AudioTrimJob {
    AudioTrimJob(AUDIO_PATH, AudioChain(start, end), TRIMMED_AUDIO_PATH)
  }

  /** The final render job. */
  function RenderJobFor(crop: CropSize, start: int, end: int, duration: int, outputPath: string): RenderJob {
    RenderJob([VIDEO_PATH, AUDIO_PATH, LOGO_PATH],
              VideoGraph(crop, start, end, duration),
              AudioChain(start, end),
              ["-map " + StreamRef(1, "a")],
              outputPath,
              VIDEO_BITRATE)
  }

  function Filters(g: seq<Stage>): (names: seq<string>)
    ensures |names| == |g|
    ensures forall i :: 0 <= i < |g| ==> names[i] == g[i].filter
  {
    if |g| == 0 then [] else [g[0].filter] + Filters(g[1..])
  }

  /** Some stage before stage `i` produces `name`. */
  ghost predicate ProducedBefore(g: seq<Stage>, i: int, name: string) {
    exists j :: 0 <= j < i && j < |g| && name in g[j].outputs
  }

  /** Every input of every stage is an external stream or an output of an earlier stage. */
  ghost predicate NoForwardReferences(g: seq<Stage>, external: set<string>) {
    forall i, k :: 0 <= i < |g| && 0 <= k < |g[i].inputs| ==>
      g[i].inputs[k] in external || ProducedBefore(g, i, g[i].inputs[k])
  }

  /** No output name is an external stream or is produced by two stages. */
  ghost predicate FreshOutputs(g: seq<Stage>, external: set<string>) {
    (forall i, k :: 0 <= i < |g| && 0 <= k < |g[i].outputs| ==> g[i].outputs[k] !in external) &&
    (forall i, j :: 0 <= i < j < |g| ==> forall name :: name in g[i].outputs ==> name !in g[j].outputs)
  }

  /** Every output except the graph's final stream is consumed by a later stage. */
  ghost predicate NoDeadOutputs(g: seq<Stage>) {
    forall i, k :: 0 <= i < |g| && 0 <= k < |g[i].outputs| ==>
      exists j :: i < j < |g| && g[i].outputs[k] in g[j].inputs
  }

  /** Parsing a rendered size gives the crop back, negative heights included. */
  lemma ParseSizeString(crop: CropSize)
    ensures ParseSize(SizeString(crop)) == Some(crop)
  {
    var w := IntToString(crop.width);
    assert SizeString(crop) == w + ['x'] + IntToString(crop.height);
    if crop.width < 0 {
      assert w == ['-'] + NatToString(-crop.width);
      NoDigitIsSeparator(NatToString(-crop.width), 'x');
      assert 'x' !in w;
    } else {
      NoDigitIsSeparator(w, 'x');
    }
    SplitOnceJoin(w, 'x', IntToString(crop.height));
    ParseIntToString(crop.width);
    ParseIntToString(crop.height);
  }

  /** The stages run in the fixed order of the source, for every crop and window. */
  lemma VideoGraphStageOrder(crop: CropSize, start: int, end: int, duration: int)
    ensures Filters(VideoGraph(crop, start, end, duration)) ==
      ["color", "crop", "trim", "setpts", "overlay", "scale", "overlay", "subtitles"]
  {
    var g := VideoGraph(crop, start, end, duration);
    var f := Filters(g);
    assert forall i :: 0 <= i < 8 ==> f[i] == g[i].filter;
  }

  /** The stream names each stage of the video graph reads and writes. */
  lemma VideoGraphWiring(crop: CropSize, start: int, end: int, duration: int)
    ensures var g := VideoGraph(crop, start, end, duration);
      |g| == 8 &&
      g[0].inputs == [] && g[0].outputs == ["overlay"] &&
      g[1].inputs == ["0:v"] && g[1].outputs == ["croppedReel"] &&
      g[2].inputs == ["croppedReel"] && g[2].outputs == ["trimmedReel"] &&
      g[3].inputs == ["trimmedReel"] && g[3].outputs == ["newTrimmedReel"] &&
      g[4].inputs == ["newTrimmedReel", "overlay"] && g[4].outputs == ["darkenedReel"] &&
      g[5].inputs == ["2:v"] && g[5].outputs == ["scaledLogo"] &&
      g[6].inputs == ["darkenedReel", "scaledLogo"] && g[6].outputs == ["reelWithLogo"] &&
      g[7].inputs == ["reelWithLogo"] && g[7].outputs == []
  {
  }

  /** Stages are identified by their output: two stages never write the same stream. */
  lemma {:induction false} OutputsIdentifyStage(g: seq<Stage>, external: set<string>, producer: map<string, nat>)
    requires forall i, k :: 0 <= i < |g| && 0 <= k < |g[i].outputs| ==>
      g[i].outputs[k] in producer && producer[g[i].outputs[k]] == i && g[i].outputs[k] !in external
    ensures FreshOutputs(g, external)
  {
    forall i, j | 0 <= i < j < |g| ensures forall name :: name in g[i].outputs ==> name !in g[j].outputs {
      forall name | name in g[i].outputs ensures name !in g[j].outputs {
        var a :| 0 <= a < |g[i].outputs| && g[i].outputs[a] == name;
        forall b | 0 <= b < |g[j].outputs| ensures g[j].outputs[b] != name {
          assert producer[g[j].outputs[b]] == j;
        }
      }
    }
  }

  /**
   * No forward reference: every stage input is the video (`0:v`) or logo (`2:v`) input
   * stream or an output of an earlier stage.
   */
  lemma VideoGraphNoForwardReferences(crop: CropSize, start: int, end: int, duration: int)
    ensures NoForwardReferences(VideoGraph(crop, start, end, duration), {StreamRef(0, "v"), StreamRef(2, "v")})
  {
    var g := VideoGraph(crop, start, end, duration);
    var ext := {StreamRef(0, "v"), StreamRef(2, "v")};
    InputStreamRefs();
    VideoGraphWiring(crop, start, end, duration);
    forall i, k | 0 <= i < |g| && 0 <= k < |g[i].inputs|
      ensures g[i].inputs[k] in ext || ProducedBefore(g, i, g[i].inputs[k])
    {
      if i == 1 || i == 5 {
        assert g[i].inputs[k] in ext;
      } else if i == 2 {
        assert g[i].inputs[k] in g[1].outputs;
      } else if i == 3 {
        assert g[i].inputs[k] in g[2].outputs;
      } else if i == 4 {
        if k == 0 { assert g[i].inputs[k] in g[3].outputs; } else { assert g[i].inputs[k] in g[0].outputs; }
      } else if i == 6 {
        if k == 0 { assert g[i].inputs[k] in g[4].outputs; } else { assert g[i].inputs[k] in g[5].outputs; }
      } else {
        assert i == 7;
        assert g[i].inputs[k] in g[6].outputs;
      }
    }
  }

  /** Each output name is written by one stage only and is not an input stream's name. */
  lemma VideoGraphFreshOutputs(crop: CropSize, start: int, end: int, duration: int)
    ensures FreshOutputs(VideoGraph(crop, start, end, duration), {StreamRef(0, "v"), StreamRef(2, "v")})
  {
    var g := VideoGraph(crop, start, end, duration);
    InputStreamRefs();
    var ext := {"0:v", "2:v"};
    VideoGraphWiring(crop, start, end, duration);
    var producer := map["overlay" := 0, "croppedReel" := 1, "trimmedReel" := 2, "newTrimmedReel" := 3,
                        "darkenedReel" := 4, "scaledLogo" := 5, "reelWithLogo" := 6];
    forall i, k | 0 <= i < |g| && 0 <= k < |g[i].outputs|
      ensures g[i].outputs[k] in producer && producer[g[i].outputs[k]] == i && g[i].outputs[k] !in ext
    {
      var name := g[i].outputs[k];
      if i == 0 { assert name == "overlay"; }
      else if i == 1 { assert name == "croppedReel"; }
      else if i == 2 { assert name == "trimmedReel"; }
      else if i == 3 { assert name == "newTrimmedReel"; }
      else if i == 4 { assert name == "darkenedReel"; }
      else if i == 5 { assert name == "scaledLogo"; }
      else { assert i == 6 && name == "reelWithLogo"; }
    }
    OutputsIdentifyStage(g, ext, producer);
  }

  /** Every output except the subtitled reel, the graph's result, is read by a later stage. */
  lemma VideoGraphNoDeadOutputs(crop: CropSize, start: int, end: int, duration: int)
    ensures NoDeadOutputs(VideoGraph(crop, start, end, duration))
  {
    var g := VideoGraph(crop, start, end, duration);
    VideoGraphWiring(crop, start, end, duration);
    forall i, k | 0 <= i < |g| && 0 <= k < |g[i].outputs|
      ensures exists j :: i < j < |g| && g[i].outputs[k] in g[j].inputs
    {
      if i == 0 || i == 3 {
        assert g[i].outputs[k] in g[4].inputs;
      } else if i == 1 {
        assert g[i].outputs[k] in g[2].inputs;
      } else if i == 2 {
        assert g[i].outputs[k] in g[3].inputs;
      } else if i == 4 || i == 5 {
        assert g[i].outputs[k] in g[6].inputs;
      } else {
        assert i == 6;
        assert g[i].outputs[k] in g[7].inputs;
      }
    }
  }

  /** The darkening layer has exactly the crop's size and lasts the reel's duration. */
  lemma OverlayMatchesCrop(crop: CropSize, start: int, end: int, duration: int)
    ensures var g := VideoGraph(crop, start, end, duration);
      OptionValue(g[1].options, "w") == Some(Num(crop.width)) &&
      OptionValue(g[1].options, "h") == Some(Num(crop.height)) &&
      OptionValue(g[0].options, "duration") == Some(Num(duration)) &&
      OptionValue(g[0].options, "size") == Some(Text(SizeString(crop))) &&
      ParseSize(SizeString(crop)) == Some(crop)
  {
    var g := VideoGraph(crop, start, end, duration);
    LookupFirst(g[0].options.entries, "size", 1);
    LookupFirst(g[0].options.entries, "duration", 2);
    LookupFirst(g[1].options.entries, "w", 0);
    LookupFirst(g[1].options.entries, "h", 1);
    ParseSizeString(crop);
  }

  /** The logo sits at x = 220 when the crop is wider than 500 pixels, else at 100; y is 130. */
  lemma LogoPlacement(crop: CropSize, start: int, end: int, duration: int)
    ensures var g := VideoGraph(crop, start, end, duration);
      g[6].filter == "overlay" && g[6].inputs == ["darkenedReel", "scaledLogo"] &&
      OptionValue(g[6].options, "x") == Some(Num(if crop.width > 500 then 220 else 100)) &&
      OptionValue(g[6].options, "y") == Some(Num(130))
  {
    var g := VideoGraph(crop, start, end, duration);
    LookupFirst(g[6].options.entries, "x", 0);
    LookupFirst(g[6].options.entries, "y", 1);
  }

  /** The subtitle burn-in is the last stage whatever the inputs, reading the fixed subtitle file. */
  lemma SubtitlesAlwaysLast(crop: CropSize, start: int, end: int, duration: int)
    ensures var g := VideoGraph(crop, start, end, duration);
      g[|g| - 1].filter == "subtitles" &&
      OptionValue(g[|g| - 1].options, "filename") == Some(Text(".//subtitles.srt"))
  {
    var g := VideoGraph(crop, start, end, duration);
    LookupFirst(g[7].options.entries, "filename", 0);
    assert SUBTITLE_FILE == ".//subtitles.srt";
  }

  /**
   * Video and audio are cut to the same window and both timelines restart at 0; the audio
   * pre-trim and the final render use the same audio chain.
   */
  lemma TrimWindowsAgree(crop: CropSize, start: int, end: int, duration: int, outputPath: string)
    ensures var g := VideoGraph(crop, start, end, duration);
      var a := AudioChain(start, end);
      Filters(a) == ["atrim", "asetpts"] &&
      OptionValue(a[0].options, "start") == OptionValue(g[2].options, "start") == Some(Num(start)) &&
      OptionValue(a[0].options, "end") == OptionValue(g[2].options, "end") == Some(Num(end)) &&
      a[1].options == g[3].options == Raw("PTS-STARTPTS")
    ensures RenderJobFor(crop, start, end, duration, outputPath).audioFilters ==
      AudioTrimJobFor(start, end).audioFilters
  {
    var g := VideoGraph(crop, start, end, duration);
    var a := AudioChain(start, end);
    assert Filters(a)[0] == "atrim" && Filters(a)[1] == "asetpts";
    LookupFirst(a[0].options.entries, "start", 0);
    LookupFirst(a[0].options.entries, "end", 1);
    LookupFirst(g[2].options.entries, "start", 0);
    LookupFirst(g[2].options.entries, "end", 1);
  }

  /**
   * The final render reads the crop from input 0 (the video) and the logo from input 2, and
   * maps the audio of input 1, which is the downloaded audio file, cut again by the audio chain.
   */
  lemma RenderJobStreams(crop: CropSize, start: int, end: int, duration: int, outputPath: string)
    ensures var job := RenderJobFor(crop, start, end, duration, outputPath);
      |job.inputs| == 3 &&
      job.inputs[0] == VIDEO_PATH && job.inputs[1] == AUDIO_PATH && job.inputs[2] == LOGO_PATH &&
      job.outputOptions == ["-map 1:a"] &&
      job.output == outputPath &&
      job.complexFilter[1].inputs == [StreamRef(0, "v")] &&
      job.complexFilter[5].inputs == [StreamRef(2, "v")]
  {
    InputStreamRefs();
    assert "-map " + "1:a" == "-map 1:a";
  }
}
