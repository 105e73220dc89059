# Instagram reel editor: a Dafny model

This project models the core of a tool that turns a downloaded YouTube video into a vertical
Instagram reel. The core is the `Editor` class of `src/editor.ts` and two input checks of
`src/init.ts`. The reel pipeline does four things:

- it probes the video and steps a 9:16 crop rectangle up to the source size;
- it names the output after the sanitised video title;
- it pre-trims the audio, then requests AI subtitles for the trimmed audio;
- it starts one ffmpeg render. The render's filter graph crops, trims and darkens the video,
  overlays a logo and burns in the subtitles. On the render's `end` event the four temporary
  files are deleted and the reel is opened.

The programs the editor drives are not part of the model: ffprobe, ffmpeg, the subtitle
service, the filesystem and `open`. Their outcomes are an input value (`Collaborators`), and
each call the editor makes to them is recorded, in order, as an `Effect`.

Modules, one per file:

- `Wrappers`: `Option` and `Result`.
- `Constants`: the values of `src/constants.ts`.
- `Decimal`: `${n}` renderings of integers, unary `+` on digit strings, splitting at `:`.
- `CropGeometry`: the closed form of `computeCropDimensions`. The loop runs the least number of
  steps `k` after which one side has reached the source. The result is
  `(1 + k·rw, 1 + k·rh − rw − rh)`.
- `ReelNaming`: the title sanitiser `match(/[\w- ]/g)?.join('').replaceAll(' ', '-')` and the
  choice of file name.
- `FilterGraph`: the audio chain, the eight-stage video filter graph and the two ffmpeg jobs,
  all as values. Lemmas cover stage order, named references, sizes and the stream mapping.
- `ReelEditor`:
  - the class `Editor`, with the source's fields;
  - `ComputeCropDimensions`, a `while` loop proved equal to the closed form;
  - `CreateReel`, proved to perform the run function `CreateReelRun`;
  - lemmas on `CreateReelRun`: the order of collaborator calls, how far a run gets, how its
    promise settles, and the cleanup.
- `Init`: the YouTube URL pattern, as a left-to-right matcher proved equal to the pattern's
  language; the 90-second end-time check; the options the flow builds.

Behaviour of the code worth knowing:

- The crop is not a rectangle of the target ratio, and it can be wider than the source. Only
  the height is corrected. A 1920×1080 source gives 613×1064. A 1080×1920 source gives a width
  of 1081 (`CropGeometry.ReelCropExamples`, `CropGeometry.CropBounds`). A source side of at most
  1 pixel gives a negative height (`CropGeometry.CropOfDegenerateSource`).
- A missing or zero dimension is rejected, but a negative one is not: the check is JavaScript
  truthiness (`CropGeometry.Truthy`).
- The render maps `1:a`, which is the downloaded audio file, cut again by the same audio
  chain. It is not the pre-trimmed intermediate (`FilterGraph.RenderJobStreams`,
  `FilterGraph.TrimWindowsAgree`).
- The subtitles stage is always in the graph, even when the subtitle request failed
  (`FilterGraph.SubtitlesAlwaysLast`, `ReelEditor.RenderStarted`).
- A failed deletion is not just logged. It rejects the awaited `Promise.all`, so `open` is
  skipped (`ReelEditor.CleanupAfterRender`).
- The trim window is not required to be ordered or non-negative. Only `end − start ≤ 90` is
  checked (`Init.AcceptedWindow`).
- The promise of `createReel` resolves as soon as the render has been started. The render's
  `end`/`error` handling happens later, so an error there never reaches the caller
  (`ReelEditor.OutcomeIgnoresLaterStages`).

## Model

| member | source | states |
|---|---|---|
| Decimal.ParseNatToString | src/editor.ts:43-44 | unary `+` on the decimal rendering of a natural number gives that number back |
| Decimal.ParseIntToString | src/editor.ts:127 | `${i}` of an integer, negative ones included, parses back to `i` |
| Decimal.SplitOnceJoin | src/editor.ts:34 | splitting `a:b` at its first `:` gives `a` and `b` back when `a` has no `:` |
| CropGeometry.ParseRatioString | src/editor.ts:34 | the ratio parse of `split(':')` and unary `+` inverts the `${rw}:${rh}` rendering |
| CropGeometry.ParseRatio | src/editor.ts:34 | `split(':')` and unary `+` on a `digits:digits` string; by ParseRatioString it inverts the `${rw}:${rh}` rendering, and `9:16` gives (9, 16) by InstagramRatioSteppable |
| CropGeometry.StepsToReachIsLeast | src/editor.ts:42-45 | the closed-form step count for one side reaches the bound, and no smaller count does |
| CropGeometry.CropStepsIsLeast | src/editor.ts:42-45 | the loop guard holds after every count below CropSteps and fails after CropSteps steps, so the loop runs exactly that many times |
| CropGeometry.CropSteps | src/editor.ts:42-45 | the iteration count of the loop: by CropStepsIsLeast the guard holds after every smaller count and fails after this one |
| CropGeometry.CropDimensions | src/editor.ts:40-48 | the loop's result in closed form; GrowToSource proves the loop equal to it, and CropBounds, CropOfDegenerateSource and ReelCropExamples give its bounds and values |
| CropGeometry.CropBounds | src/editor.ts:40-48 | the final height is below the source height; the width is 1 or exceeds the source width by less than one width unit |
| CropGeometry.CropOfDegenerateSource | src/editor.ts:42-48 | a source side of at most 1 stops the loop at once, giving width 1 and height 1 − rw − rh |
| CropGeometry.ReelCropExamples | src/editor.ts:40-50 | at 9:16, 1920×1080 gives 613×1064 and 1080×1920 gives 1081×1896, wider than the source |
| CropGeometry.CropFromUnits | src/editor.ts:32-38 | a probe error rejects with its own message; otherwise the crop succeeds exactly when both probed dimensions are truthy |
| CropGeometry.CropErrorMessages | src/editor.ts:33-38 | a probe error rejects with the probe's own error; missing dimensions reject with `Video width/height could not be found` |
| ReelEditor.Editor.ComputeCropDimensions | src/editor.ts:30-53 | the stepping loop returns CropFromProbe: the probe error, the dimensions error, or the closed-form crop |
| ReelEditor.Editor.GrowToSource | src/editor.ts:40-50 | the `while` loop and the two height corrections give exactly the closed form CropDimensions |
| ReelEditor.ReelCropOfRatio | src/editor.ts:92 | the crop a run uses is the crop computed for the ratio string `9:16` |
| ReelEditor.InstagramRatioSteppable | src/constants.ts:3 | the reel ratio `9:16` parses to (9, 16), which the loop terminates on |
| ReelNaming.KeepNameChars | src/editor.ts:88 | the matches of `/[\w- ]/g`, joined, are no longer than the title and are all in the class |
| ReelNaming.SpacesToDashes | src/editor.ts:88 | `replaceAll(' ', '-')` keeps the length and changes exactly the spaces, into dashes |
| ReelNaming.SanitisedName | src/editor.ts:88 | the sanitised name is no longer than the title and uses only `[\w-]` |
| ReelNaming.SanitisedNameConcat | src/editor.ts:88 | sanitising works character by character: the name of a concatenation is the concatenation of the names |
| ReelNaming.SanitisedNameOfChar | src/editor.ts:88 | one character is dropped, kept, or turned from a space into a dash, by its class |
| ReelNaming.SanitisedNameEmptyIff | src/editor.ts:88-89 | the sanitised name is empty (so no rename) exactly when the title has no character of `[\w- ]` |
| ReelNaming.SanitisedNameIdempotent | src/editor.ts:88 | sanitising a sanitised name leaves it unchanged |
| ReelNaming.FilenameForTitle | src/editor.ts:23 | a title with a non-empty sanitised form gives that form plus `.mp4`; otherwise, or with no title, the name stays; the default is `convertedReel.mp4` |
| ReelNaming.FilenameFor | src/editor.ts:87-89 | the file name after the naming step is the current one or the non-empty sanitised title plus `.mp4`; FilenameForTitle says which |
| ReelNaming.SanitisedNameExample | src/editor.ts:88 | `Go 2!` gives `Go-2`; `!?` gives the empty name |
| FilterGraph.InputStreamRefs | src/editor.ts:128 | the stream references are `0:v`, `1:a` and `2:v` |
| FilterGraph.AudioChain | src/editor.ts:102-105 | the two-stage audio chain; by TrimWindowsAgree it is atrim(start, end) then `PTS-STARTPTS`, the window of the video trim |
| FilterGraph.VideoGraph | src/editor.ts:126-135 | the eight-stage graph; its order, wiring, fresh and consumed outputs, crop size, logo place and subtitles stage are stated by the lemmas below |
| FilterGraph.AudioTrimJobFor | src/editor.ts:100-106 | the pre-trim job reads the downloaded audio and writes the trimmed file with AudioChain; TrimWindowsAgree ties it to the render |
| FilterGraph.RenderJobFor | src/editor.ts:123-142 | the render job; RenderJobStreams gives its inputs, mapping and output, RenderMatchesTrim its audio chain and darkening layer |
| FilterGraph.LogoX | src/editor.ts:93 | the logo x is 220 exactly when the crop width is above 500, and 100 otherwise |
| FilterGraph.ParseSizeString | src/editor.ts:127 | the `${w}x${h}` size string parses back to the crop |
| FilterGraph.VideoGraphStageOrder | src/editor.ts:126-135 | the filters are color, crop, trim, setpts, overlay, scale, overlay, subtitles, in that order |
| FilterGraph.VideoGraphWiring | src/editor.ts:126-135 | the input and output names of each of the eight stages |
| FilterGraph.OutputsIdentifyStage | src/editor.ts:126-135 | a map from each output name to the one stage producing it makes all outputs distinct and apart from the external streams |
| FilterGraph.VideoGraphNoForwardReferences | src/editor.ts:126-135 | every input is the stream `0:v` or `2:v`, or the output of an earlier stage |
| FilterGraph.VideoGraphFreshOutputs | src/editor.ts:126-135 | no two stages produce the same name, and no stage reuses an external stream name |
| FilterGraph.VideoGraphNoDeadOutputs | src/editor.ts:126-135 | every named output is consumed by a later stage |
| FilterGraph.OverlayMatchesCrop | src/editor.ts:127-128 | the darkening layer has the crop's size and the given duration, and the crop stage uses the crop's width and height |
| FilterGraph.LogoPlacement | src/editor.ts:133 | the logo overlay takes the darkened reel and the scaled logo, at x 220 for a crop wider than 500, else 100, and y 130 |
| FilterGraph.SubtitlesAlwaysLast | src/editor.ts:134 | the last stage always burns in the fixed subtitle file `.//subtitles.srt` |
| FilterGraph.TrimWindowsAgree | src/editor.ts:102-105 | the audio chain is atrim(start, end) then `PTS-STARTPTS`, the same window and reset as the video trim; the render and the pre-trim use the same chain |
| FilterGraph.RenderJobStreams | src/editor.ts:123-141 | the render reads video, audio and logo as inputs 0, 1 and 2, maps `1:a`, writes to the given path, and crops input 0 and scales input 2 |
| ReelEditor.RequestSubtitles | src/editor.ts:68-84 | the request logs, calls the service with the file and save location, then logs; a non-ok status logs its error code; it never fails |
| ReelEditor.RenderEventEffects | src/editor.ts:152-157 | the render's `error` and `end` handlers; RenderEventsCleanup and CallsOfRenderEvents give the logged error, the four unlinks and the open after them |
| ReelEditor.RunFromAudioTrim | src/editor.ts:100-158 | the run from the pre-trim on; CallsFromAudioTrim gives its calls and RenderStageEffectsFromCrop where the render and its handlers sit |
| ReelEditor.RunFromCrop | src/editor.ts:92-158 | the run once the crop is known: the probe, the target-path and trimming logs, then RunFromAudioTrim (CallsFromCrop, StartedRenderFromCrop, CleanupFromCrop) |
| ReelEditor.CreateReelRun | src/editor.ts:86-158 | one whole `createReel` as a function of the state and the collaborators' outcomes; CreateReel performs it and the lemmas below state its order, stages, outcome and cleanup |
| ReelEditor.Editor.constructor | src/editor.ts:21-27 | the fields come from the options, the file name is the default, and the duration is end − start |
| ReelEditor.Editor.SetVideoName | src/editor.ts:161-163 | only the video name changes, to the given name |
| ReelEditor.Editor.SetReelFilename | src/editor.ts:165-167 | only the file name changes, to the name plus `.mp4` |
| ReelEditor.Editor.ApplyVideoName | src/editor.ts:87-90 | the file name becomes FilenameFor of the old name and the video name; nothing else changes |
| ReelEditor.Editor.TrimAndRender | src/editor.ts:98-158 | from the audio pre-trim on, the method performs RunFromAudioTrim |
| ReelEditor.Editor.CreateReel | src/editor.ts:86-159 | on a valid editor, the outcome, the effects and the new file name are those of CreateReelRun on the old state; every render it starts follows the trim window; the editor stays valid |
| ReelEditor.Editor.RunStages | src/editor.ts:86-158 | the awaited stages in source order perform CreateReelRun on the old state, changing only the file name |
| ReelEditor.CallsOfRun | src/editor.ts:86-157 | the calls of every run are the probe, then trim, subtitles and render, then the unlinks, then open, cut where a stage fails |
| ReelEditor.CollaboratorCallOrder | src/editor.ts:86-157 | every run's collaborator calls are a prefix of the fixed stage order, so the trim precedes subtitles and subtitles precede the render |
| ReelEditor.StagesReached | src/editor.ts:92-157 | trim runs iff a crop is known; subtitles and render iff the trim ended; unlinks iff the render ended; open iff the unlinks also succeeded |
| ReelEditor.RunOutcome | src/editor.ts:87-119 | the promise resolves iff the render starts; a probe failure rejects after only the probe; a trim error rejects with its message after logging it; the file name is decided first |
| ReelEditor.CropRejection | src/editor.ts:33-38 | a probe error rejects the run with that error; a missing or zero width or height rejects with DimensionsUnavailable, whose message is `Video width/height could not be found` |
| ReelEditor.OutcomeIgnoresLaterStages | src/editor.ts:121-158 | the outcome is the same whatever the subtitle service, the render and the deletions do |
| ReelEditor.RenderStarted | src/editor.ts:95-141 | the target path is logged; once the trim ended, the render starts with the probed crop, the window and the output path whatever the subtitle response; no other render job is started |
| ReelEditor.CleanupAfterRender | src/editor.ts:152-157 | exactly the four temporary files are unlinked and exactly the output is opened, only after a render `end`; a render error only logs |
| ReelEditor.RenderMatchesTrim | src/editor.ts:100-141 | for an editor whose duration is end − start, the render job re-cuts the audio exactly as the pre-trim did, writes to the output path, and its darkening layer lasts the window and has the crop's size |
| ReelEditor.RenderFollowsWindow | src/editor.ts:26-27 | on a state whose duration is end − start, every render a run starts re-cuts the audio as the pre-trim did and darkens for end − start seconds |
| Init.IsYoutubeUrlIff | src/init.ts:6 | the left-to-right matcher accepts exactly: optional `http://`/`https://`, one of the three hosts, `/`, one or more non-line-terminator characters |
| Init.IsYoutubeUrl | src/init.ts:6 | `youtubeRegex.test`, read left to right; an accepted URL has at least 10 characters (`youtu.be/x`), and IsYoutubeUrlIff proves it equal to the pattern's language |
| Init.AcceptedUrlExamples | src/init.ts:6 | `https://youtu.be/x` and `youtu.be/x` are accepted |
| Init.RejectedHostExamples | src/init.ts:6 | the pattern is anchored and case-sensitive: `m.youtu.be/a`, `xhttp://youtu.be/a` and `HTTP://youtu.be/a` are rejected |
| Init.RejectedPathExamples | src/init.ts:6 | a `/` and a non-empty one-line path are required: `youtube.com`, `youtu.be/` and a path holding a newline are rejected |
| Init.ValidateUrl | src/init.ts:14 | the URL prompt accepts exactly the pattern's language, and otherwise returns its message |
| Init.AcceptedWindow | src/init.ts:29-37 | an end is accepted iff the window in the options is at most 90 seconds, inclusive; a reversed or negative window passes |
| Init.ValidateEnd | src/init.ts:29 | the end is accepted exactly when it is at most 90 seconds after the start; otherwise the duration message is returned |
| Init.ReelOptions | src/init.ts:34-37 | the options save to `./convertedReel.mp4` and carry the answered start and end unchanged |
| Init.FlowOutputPath | src/init.ts:34-37 | with the flow's options and no video name, the render path is `./convertedReel.mp4convertedReel.mp4` |

## Left out

- `src/download.ts` is not part of this model: it is network streaming and terminal output.
- `verifyReelSaveLocation` (filesystem access and `mkdir`) and `REEL_SAVE_DIRECTORY`, which depends on the user's home directory.
- The HTTP request of `requestSubtitles`. The model keeps the file path and save location it is given, but not the `path.resolve` to absolute paths, the URL encoding or the service URL.
- The execution of ffprobe, ffmpeg, the unlinks and `open`. Their results are inputs. `open` is recorded as called, and its own outcome is not modelled.
- The render `progress` handlers. They compute a percentage with floating-point division and `Math.round` and only log it.
- `console.log(error)` in `requestSubtitles` prints an `Error` object. The model logs its message.
- ReelEditor.Editor.ComputeCropDimensions: a probe error is modelled as a rejection. The source's callback goes on to read `metadata.streams[0]`, which throws on a missing `metadata` in the probe's callback.
- A probe result without a first stream is not modelled. The model receives the width and height of `streams[0]` directly.
- A `0:0` ratio would make the stepping loop run forever; it is excluded by `SteppableRatio`, which every crop member requires. Only `9:16` is ever passed.
- CropGeometry.ParseRatio: only `digits:digits` ratio strings are modelled, not unary `+` on other strings (`NaN`, whitespace, signs, decimals). The ratio used is the constant `9:16`.
- Numbers are unbounded integers. The JavaScript float semantics of the times and sizes are not modelled, including fractional seconds from the number prompts.
- The `prompts` flow of `src/init.ts`: the questions, the order of the answers, and the `try`/`catch` around `download` and `createReel`.
- Timing: the un-awaited render is an ordered list of effects, not concurrent work. Log lines from the render that come after the promise resolves are placed after the resolution point.
