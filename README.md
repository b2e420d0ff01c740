# Video generator planning core in Dafny

`v3.py` builds a short vertical video (1080x1440) from a fixed list of seven
captioned segments. Each caption is spoken with text-to-speech. The spoken
clips are laid end to end, giving the narration timeline. Segment 0 is shown
over an intro cut of a source video, fitted to the canvas by a cover-fit
scale. Every later segment is shown over a still image while images last.
Optional background music is looped, trimmed to the narration's length and
lowered to 30% volume. The model covers the planning arithmetic beneath the
moviepy, gTTS and PIL calls:

- `media.dfy` (`Media`) holds the values passed between stages: segments,
  narration triples, visual tracks, background music and the errors that
  abort a run.
- `narration.dfy` (`Narration`) is `generate_audio_segments` as a pure
  definition (`Narrate`), with the prefix-sum, one-triple-per-segment and
  abort-on-failure properties.
- `cover_fit.dfy` (`CoverFit`) holds the scale ratio, the scaled size, the
  floor-divided centring offsets and the paste into the padded frame of
  `resize_and_pad_video`.
- `background.dfy` (`Background`) holds the repeat count, trim and volume of
  `process_bgm`.
- `visuals.dfy` (`Visuals`) holds the choice of the video file and the plan of
  visual tracks built by the loop in `create_video`.
- `mixer.dfy` (`Mixer`) holds the narration mix's duration and the final
  audio mix.
- `generator.dfy` (`Generator`) holds the `VideoGenerator` class. Its
  `GenerateAudioSegments` and `CreateVideo` methods carry the loops of the
  source. Each is proved equal to a pure definition (`Narrate` and `Render`),
  and the properties are proved about those definitions. `Render` is the
  run with the defects under "## Findings" corrected; `RenderAsWritten`
  is the run as the code has it.
- `arith.dfy` (`Arith`) holds two monotonicity facts about real
  multiplication.

Speech synthesis followed by decoding the saved file is the parameter
`tts: string -> Synthesis`. It gives the measured duration of a caption, or
the exception raised. Directory listing, file existence, the source video's
size, the image paths and the background track's length are also parameters
of `CreateVideo`. Durations are exact `real`s.

Two points about the order in which a run fails:

- The narration is synthesised (v3.py:259) before the video folder is
  searched (v3.py:266-268). A missing video file is therefore reported only
  after every caption has been synthesised, and a synthesis failure takes
  precedence (`SynthesisPrecedesVideoLookup`).
- An empty segment list builds an empty timeline. The run then fails at
  `audio_segments[0]` (v3.py:273), which the model calls `NoNarration`. It
  does so after the video-file check.

## Model

| member | source | states |
|---|---|---|
| Narration.Narrate | v3.py:124-160 | The build walks the segments in order. Each segment is placed at the running total of the durations before it, and the first synthesis failure aborts the whole build. A successful build has one triple per segment. |
| Narration.NarrateTrackAt | v3.py:130-153 | Triple i of a successful build carries segment i's measured duration and segment i's voice file, started at the triple's start. |
| Narration.NarrateLast | v3.py:145-154 | In a successful build, the last triple extends the build over the other segments. Its start is the running total of the triples before it. Its duration is the measured one, and its clip is `<name>_voice.mp3` started there. |
| Narration.NarrateTracks | v3.py:130-153 | A successful build has exactly one triple per segment, in order. Triple i carries segment i's measured duration and segment i's voice file, started at the triple's start. |
| Narration.NarratePrefix | v3.py:130-154 | A successful build contains the build over every prefix of the segment list. |
| Narration.NarrateTotal | v3.py:153-154 | A successful timeline lasts the sum of the durations measured for all captions. |
| Narration.NarrateStartAt | v3.py:128-154 | The start of triple i is the sum of the durations of triples 0..i-1, which is the sum measured for captions 0..i-1. |
| Narration.NarrateStarts | v3.py:128-154 | The same for every triple at once. The first start is 0, and the nominal `start` field plays no part. |
| Narration.NarrateOutcome | v3.py:130-158 | The build succeeds iff every caption is synthesised. On failure, the error names the first failing segment and carries its reason. |
| Narration.PrefixFailureIsFinal | v3.py:156-158 | Once a prefix has failed, the whole build fails with that same error. Later segments do not matter and no partial list is returned. |
| Narration.NominalFieldsUnused | v3.py:46-54 | Segment lists that agree on names and captions build the same timeline, whatever their nominal `start`/`target_duration`. |
| CoverFit.ScaleRatio | v3.py:86-88 | `max(W/w, H/h)` is non-negative. Scaled by it, the source is at least the canvas in both axes and equal to it in at least one. |
| CoverFit.ScaleRatioIsLeast | v3.py:86-88 | Every uniform scale that covers both axes is at least the chosen ratio. |
| CoverFit.ScaledSize | v3.py:91 | Each side of the scaled frame is the exact product truncated to whole pixels: at most the product and more than the product minus one. |
| CoverFit.ScaledCoversCanvas | v3.py:88-92 | The whole-pixel scaled frame is at least the canvas in both axes and equal to it in one. |
| CoverFit.CenterOffset | v3.py:102-103 | `(target - scaled) // 2` is the greatest r with 2r <= target - scaled. A smaller frame gets an offset in [0, target - scaled] with margins differing by at most 1. A larger frame gets an offset <= 0, and the visible window lies inside it, centred within one pixel. |
| CoverFit.ResizeAndPadAsWritten | v3.py:83-121 | As written, the fit fails on a zero dimension and on any scaled size other than the canvas. It succeeds only with the canvas-sized frame at offset 0. |
| CoverFit.LandscapeSourceAbortsAsWritten | v3.py:95-111 | A 1920x1080 source scales to 2560x1440. As written this aborts. The corrected fit gives offsets (-740, 0). |
| CoverFit.SliceBound | v3.py:106-107 | Python's slice bound, case by case: an index in [0, n] is kept, one above n becomes n, a negative one counts from the end (n + i), and one below -n becomes 0. |
| CoverFit.PasteAxis | v3.py:102-107 | On one axis the paste at the floor-divided offset fits a frame no larger than the canvas. It never fits a frame larger than a non-empty canvas. |
| CoverFit.PasteAsWritten | v3.py:97-109 | As written, the paste into `full_frame` succeeds when the frame fits inside the canvas. It fails to broadcast when the frame overhangs a non-empty canvas axis. |
| CoverFit.PadBranchPasteFails | v3.py:95-109 | Every exact cover-fit frame that reaches the pad branch on a non-empty canvas fails at the paste. So for those frames, repairing the construction at v3.py:111 alone still aborts the run. |
| CoverFit.LandscapePasteFailsAsWritten | v3.py:102-107 | For 2560x1440 on 1080x1440, x = -740 selects only 740 columns, so the 2560-wide frame does not fit. |
| CoverFit.ResizeAndPad | v3.py:83-119 | The fit corrected at v3.py:106-107 and v3.py:111 fails only on a zero dimension. On success the canvas is fully covered, the frame centred and the scaled size is the cover-fit size. |
| CoverFit.ResizeAndPadAgreesWhenExact | v3.py:95-121 | Wherever the code as written succeeds, the corrected fit gives the same result. |
| Background.Ceil | v3.py:235 | `np.ceil` is the least integer not below its argument. |
| Background.RepeatTimes | v3.py:232-235 | When 0 < original < total, the repeat count reaches total (`n·original >= total`), one fewer copy would not, and n >= 2. |
| Background.ProcessBgmAsWritten | v3.py:232-243 | As written, a track shorter than the narration aborts: division by zero when it is empty, the undefined `concatenate_audioclips` otherwise. A long enough track is trimmed to total at gain 0.3. |
| Background.ShortBgmAbortsAsWritten | v3.py:232-243 | 5 s of music under 20.5 s of narration aborts as written. Corrected, it is repeated 5 times and trimmed to 20.5 s at 0.3. |
| Background.ProcessBgm | v3.py:232-243 | The corrected plan fails iff the track is empty and the narration is not. Otherwise the result lasts exactly total at gain 0.3, and it loops iff the track is shorter. The loop count reaches total and one fewer would not. |
| Background.ProcessBgmAgreesWhenLongEnough | v3.py:232-243 | Wherever the code as written succeeds, the corrected plan agrees. |
| Visuals.FirstVideoFile | v3.py:266-269 | None iff no entry ends in `.mp4` or `.MP4`. Otherwise, the first such entry in listing order. |
| Visuals.IntroVisual | v3.py:162-185 | The intro track is the sub-clip [0, d0) of the fitted video, for segment 0, at segment 0's start, for d0, on the canvas. These are the fields of the record it builds. `VisualPlanShape` and `RenderVisuals` tie them to the measured prefix sums. |
| Visuals.StillVisual | v3.py:191-213 | An image track is the image at 24 fps on the canvas, for its segment, at that segment's start and for its duration. These are the fields of the record it builds. `VisualPlanShape` and `RenderVisuals` tie them to the measured prefix sums. |
| Visuals.ImageVisuals | v3.py:284-293 | The guarded loop yields min(n-1, len(images)) image tracks (none for no segments), each for a segment in 1..n-1 and canvas-sized. |
| Visuals.VisualPlan | v3.py:273-293 | The plan has 1 + min(n-1, len(images)) tracks, starts with the intro track, and every track is canvas-sized and belongs to an existing segment. |
| Visuals.ImageVisualsClosedForm | v3.py:284-293 | The guarded loop yields min(n-1, len(images)) image tracks. Track j uses image j for segment j+1, with that segment's start and duration. |
| Visuals.VisualPlanShape | v3.py:273-293 | The plan has 1 + min(n-1, len(images)) tracks. First comes the intro cut [0, d0) at segment 0's start, then image j-1 for segment j. Every track is canvas-sized and lines up with its segment's start and duration. |
| Visuals.SegmentHasVisualIff | v3.py:284-285 | Segment i has a visual track iff i = 0 or i-1 < len(images). Extra segments get none, and that is not an error. |
| Mixer.MixEnd | v3.py:302 | The mix lasts until the latest end among its clips: no clip ends after it, and some clip ends at it. |
| Mixer.BackToBackMixEnd | v3.py:302 | Clips placed back to back end at the sum of their durations. |
| Mixer.TimelineMixEnd | v3.py:302-307 | The narration mix lasts the sum of the measured durations of all captions. This is the length the background music is cut to. |
| Mixer.UsableBgm | v3.py:305 | Music is used when the path is non-empty and a file exists there. |
| Mixer.AudioLength | v3.py:302-312 | The final audio lasts as long as its longest part: the narration mix alone, or the later of the narration mix and the music. |
| Mixer.MixAudioAsWritten | v3.py:302-316 | As written, usable music shorter than the narration aborts the mix. Otherwise the final audio lasts as long as the narration mix and keeps it. |
| Mixer.MixAudioAgreesWhenLongEnough | v3.py:305-316 | Wherever the mix as written succeeds, the corrected mix gives the same final audio. |
| Mixer.MixAudio | v3.py:305-316 | The mix with `process_bgm` corrected. Without usable music (empty path or missing file), the final audio is the narration mix alone. With it, the final mix fails iff the music is empty and the narration is not. A successful mix keeps the voice at 1.0 and adds music at 0.3 trimmed to the narration's length. Either way, the final audio lasts as long as the narration. |
| Generator.Render | v3.py:252-323 | The run with the intro fit and the music plan corrected, stages in the source's order. A run that gets through rests on a complete narration of a non-empty segment list and a found video file, and is exported to the fixed path. |
| Generator.RenderAsWritten | v3.py:252-323 | The run as written, same stages. It makes the same promises about a run that gets through. |
| Generator.RenderAsWrittenFailsIff | v3.py:252-316 | A run as written fails iff one of these holds: a caption fails, no entry is a video file, there are no segments, the source has a zero dimension, its cover-fit size is not the canvas (v3.py:111), or usable music is shorter than the narration (v3.py:237). |
| Generator.RenderAgreesWhenAsWrittenSucceeds | v3.py:252-323 | Wherever the run as written gets through, the corrected run hands the exporter the same composition. |
| Generator.ScenariosAbortAsWritten | v3.py:252-316 | As written, the stub run aborts with 5 s of usable music (undefined name) and with a 1920x1080 source (rejected clip construction). |
| Generator.PlanFollowsNarration | v3.py:273-293 | Over a successful narration, every planned track sits at the sum of the measured durations before its segment, for that segment's measured duration. |
| Generator.RenderFailsIff | v3.py:252-316 | A corrected run fails iff one of these holds: a caption fails to synthesise, no entry is a video file, there are no segments, the source has a zero dimension, or usable music of length 0 meets non-empty narration. |
| Generator.SynthesisPrecedesVideoLookup | v3.py:259-268 | When a caption fails, the run reports that synthesis error for the first failing segment, whether or not a video file exists. |
| Generator.RenderVisuals | v3.py:266-293 | A successful (corrected) run composes 1 + min(n-1, len(images)) canvas-sized visual tracks. Each starts at the sum of the measured durations before its segment and lasts its segment's measured duration. The intro is cut [0, d0) from the first `.mp4`/`.MP4` entry of the listing, with the corrected fit of that source to the canvas, and image j-1 is used for segment j. |
| Generator.RenderAudio | v3.py:302-323 | A successful (corrected) run's audio lasts the sum of all measured durations. Its voice is exactly the narration timeline `Narrate` builds. Usable music joins at 0.3, trimmed to that sum, with the voice at 1.0. Otherwise the narration is alone. The output path is fixed. |
| Generator.StubStarts | v3.py:128-154 | With durations 3.0, 2.5, 3.2, 2.8, 3.0, 2.9 and 3.1 s, the running sums are 3.0, 5.5, 8.7, 11.5, 14.5, 17.4 and 20.5. |
| Generator.StubNarration | v3.py:124-160 | With those durations, the seven configured segments build seven triples starting at 0, 3.0, 5.5, 8.7, 11.5, 14.5 and 17.4, ending at 20.5. |
| Generator.ScenarioSixImages | v3.py:273-316 | With six images and no music, the run gives seven visual tracks at those starts and 20.5 s of narration-only audio. |
| Generator.ScenarioFourImages | v3.py:284-293 | With four images, segments 5 and 6 get no visual, the run still succeeds, and the audio still lasts 20.5 s. |
| Generator.ScenarioShortBgm | v3.py:305-312 | In the corrected run, 5 s of usable music under 20.5 s of narration becomes 5 loops trimmed to 20.5 s at 0.3, with the voice at 1.0. |
| Generator.VideoGenerator.constructor | v3.py:15-22 | The generator starts with the seven configured segments and the 1080x1440 canvas. |
| Generator.VideoGenerator.GenerateAudioSegments | v3.py:124-160 | The loop returns exactly `Narrate(segments, tts)`. Its invariant keeps the running start equal to the total duration of the triples built so far. |
| Generator.ImageClips | v3.py:284-293 | The guarded loop over segments 1.. returns exactly the image tracks of the plan. |
| Generator.VideoGenerator.CreateVideo | v3.py:252-323 | The method returns exactly the corrected `Render`: the composition handed to the exporter, or the error that aborts the run. |

## Left out

- Generator.Render: models the run with the Findings at v3.py:106-107, v3.py:111 and v3.py:237 corrected. A source whose cover-fit size is not the canvas, and usable music shorter than the narration, do not abort it. The run as written is `Generator.RenderAsWritten`, and `Generator.RenderAgreesWhenAsWrittenSucceeds` relates the two.
- Generator.VideoGenerator.CreateVideo: returns the corrected `Render`, so the two aborts at v3.py:111 and v3.py:237 are not in it.
- Generator.RenderFailsIff: characterises the failures of the corrected run. The as-written aborts are added in `Generator.RenderAsWrittenFailsIff`.
- Generator.ScenarioShortBgm: proves the corrected run. As written, the same input aborts (`Generator.ScenariosAbortAsWritten`).
- Mixer.MixAudio: uses the corrected `process_bgm`. As written, usable music shorter than the narration aborts (`Mixer.MixAudioAsWritten`).
- Narration.NarrateOutcome: the `segment` field of `SynthesisError` stands for the segment name in the log line at v3.py:157. The exception re-raised at v3.py:158 is the original one and does not carry the name, and the log is not modelled.
- Speech synthesis and audio decoding (v3.py:136-142) are the parameter `tts`, keyed by the caption text. Two segments with the same caption therefore get the same duration. The language argument and the saved file's contents are not modelled.
- Directory creation, timestamps, the log file, `log` and `debug_clip_info` (v3.py:25-75) are left out as I/O. So are the log file's closing (v3.py:350-351) and the class's `dirs` field. Because the log file is closed when `create_video` returns, a second call on the same generator raises `ValueError` at its first log line. The model's `CreateVideo` can be called any number of times. The voice file is named relative to the run's audio directory.
- moviepy clip construction, compositing (v3.py:297, 320), the debug export of the intro (v3.py:175-183) and the final encoding parameters (v3.py:327-341) are left out. `Composition` records what the exporter receives.
- `CreateVideo` returns the composition handed to the exporter rather than the output path. The path is `OutputFile`.
- Pixel data is not modelled: the per-pixel copy in `make_frame` (v3.py:97-109) and PIL's resampling and JPEG save (v3.py:197-203). Only sizes and offsets are.
- CoverFit.ResizeAndPadAsWritten and CoverFit.PadBranchPasteFails: the program computes the scale ratio and the products in doubles before truncating, and that rounding can leave the frame one pixel short of the canvas. A 468x624 source, exactly 3:4, gives 1080x1439. The program then takes the pad branch and aborts at v3.py:111, but the model scales it to exactly 1080x1440 and succeeds. With v3.py:111 repaired, such a frame fits at offset (0, 0) and leaves a black row, so the pad branch then pads rather than crops. `CoverFit.ResizeAndPad` does not model that padding.
- Float rounding: the model computes in exact arithmetic, and the scaled size is the exact product truncated to whole pixels. moviepy's own rounding in `resize` is not modelled.
- Failures while opening the video, an image or the music file are not modelled. Neither is a sub-clip `[0, d0)` longer than the source video. The source video's length is not an input.
- The frame rate of the intro clip is not modelled (only the 24 fps of image tracks is). Nor is the 24 fps of the exports.
- `os.path.join(video_folder, …)` (v3.py:269) is not modelled. The model keeps the chosen entry's name.
- Mixer.MixEnd: for an empty list of clips it gives 0. `create_video` never builds such a mix, because it fails at `audio_segments[0]` first.
- `main` and its hard-coded paths (v3.py:353-387) are configuration and are left out.

## Findings

| source | as written | input that shows it | evidently intended | confidence | as-written member | corrected member |
|---|---|---|---|---|---|---|
| v3.py:237 | The loop branch calls `concatenate_audioclips`, but v3.py:1-3 import only `concatenate_videoclips`. Every track shorter than the narration raises `NameError`. | 5.0 s of music, 20.5 s of narration | Repeat the track ceil(20.5/5) = 5 times and trim it to 20.5 s | not executed | Background.ShortBgmAbortsAsWritten | Background.ProcessBgm |
| v3.py:106-107 | The pad branch pastes the scaled frame into `full_frame[y:y+h, x:x+w]`. Cover-fit makes the frame larger than the canvas in one axis, so that offset is negative. A negative slice start counts from the end instead of cropping, and the frame does not fit the slice. This happens even once v3.py:111 is repaired. | a 2560x1440 frame on the 1080x1440 canvas: x = -740 selects columns 340..1079, 740 wide | Show the central window of the frame (a centred crop; the comment at v3.py:94 speaks of black padding, which exact cover-fit never needs, so the crop is a chosen reading) | not executed | CoverFit.PadBranchPasteFails | CoverFit.ResizeAndPad |
| v3.py:111 | When the scaled size differs from the canvas, the code builds `VideoFileClip(None, make_frame=...)`. The clip class takes no such argument. This happens for every source whose truncated cover-fit size is not exactly the canvas, for example every 16:9 or 9:16 source. | a 1920x1080 source on the 1080x1440 canvas | A canvas-sized clip showing the scaled frame centred: offsets (-740, 0), fully covered | not executed | CoverFit.LandscapeSourceAbortsAsWritten | CoverFit.ResizeAndPad |
