/** Values that the planning core of the video generator passes between its
    stages: configured segments, narration tracks, visual tracks, background
    music and the errors that abort a run. */
module Media {

  /** A length or a point of time in seconds. Decoders never report a
      negative duration, and every start offset is a sum of durations. */
  type Seconds = r: real | r >= 0.0

  datatype Option<+T> = None | Some(value: T)

  datatype Result<+T, +E> = Success(value: T) | Failure(error: E)

  /** A frame size in pixels, width first as in `video_size`. */
  datatype Size = Size(width: nat, height: nat)

  /** One configured timeline entry. `start` and `targetDuration` are nominal
      and informational: the planner never reads them. */
  datatype Segment = Segment(name: string, text: string, start: int, targetDuration: int)

  /** What speech synthesis followed by decoding the saved file yields for a
      caption: the measured duration, or the exception it raised. */
  datatype Synthesis = Synthesized(duration: Seconds) | SynthesisFailed(reason: string)

  /** A decoded narration clip: the file it was saved to, its duration and
      the start time set on it. */
  datatype AudioClip = AudioClip(file: string, duration: Seconds, start: Seconds)

  /** The (handle, start, duration) triple the narration builder returns. */
  datatype NarrationTrack = NarrationTrack(audio: AudioClip, start: Seconds, duration: Seconds)

  /** How the intro video is fitted to the canvas: the size of the scaled
      frame and where its top-left corner lands on the canvas. */
  datatype Fit = Fit(scaled: Size, xOffset: int, yOffset: int)

  /** Where a visual track takes its frames from: a sub-clip
      `[clipStart, clipEnd)` of the fitted source video, or a still image
      resized to the canvas and held at a fixed frame rate. */
  datatype VisualSource =
    | IntroVideo(file: string, clipStart: Seconds, clipEnd: Seconds, fit: Fit)
    | StillImage(file: string, fps: nat)

  /** A visual track anchored on the timeline; `segment` is the index of the
      narration segment it belongs to. */
  datatype VisualTrack = VisualTrack(segment: nat, source: VisualSource, start: Seconds, duration: Seconds, size: Size)

  /** The optional background-music argument: its path, whether a file
      exists there, and its decoded duration. */
  datatype BgmInput = BgmInput(path: string, present: bool, duration: Seconds)

  /** The processed background music: how many copies of the file were
      concatenated, the length it was trimmed to, and its volume factor. */
  datatype BgmTrack = BgmTrack(loops: nat, duration: Seconds, gain: real)

  /** The final audio: the narration mix alone, or the narration mix at
      `voiceGain` overlaid with the processed background music. */
  datatype FinalAudio =
    | NarrationOnly(voice: seq<NarrationTrack>)
    | WithBackground(voice: seq<NarrationTrack>, voiceGain: real, music: BgmTrack)

  /** Everything the exporter receives: the visual tracks, the final audio
      and the output path. */
  datatype Composition = Composition(visuals: seq<VisualTrack>, audio: FinalAudio, output: string)

  /** The exceptions that abort a run. */
  datatype Error =
    | SynthesisError(segment: string, reason: string)  // a caption could not be synthesised or loaded
    | NoVideoFile                                      // the input folder holds no .mp4/.MP4 entry
    | NoNarration                                      // `audio_segments[0]` on an empty segment list
    | ZeroDivision                                     // a ratio over a zero width, height or duration
    | UnsupportedClip                                  // `VideoFileClip(None, make_frame=...)` is rejected
    | BroadcastMismatch                                // an array pasted into a slice of another shape
    | UndefinedName(name: string)                      // a name used but never imported
}
