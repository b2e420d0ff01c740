/** The `VideoGenerator` class: its configuration (the fixed segment list
    and the canvas), the narration builder and the planning part of
    `create_video`, each proved against the pure definitions of the other
    modules. */
module Generator {
  import opened Media
  import opened Narration
  import opened CoverFit
  import opened Background
  import opened Visuals
  import opened Mixer

  /** The output canvas, 1080 wide by 1440 high (3:4). */
  const Canvas: Size := Size(1080, 1440)

  /** Where the exported video is written, relative to the working
      directory. */
  const OutputFile: string := "output/final_video.mp4"

  /** The seven configured segments, with their nominal starts and target
      durations. */
  function DefaultSegments(): seq<Segment> {
    [ Segment("intro", "王一博周边定制排行", 0, 3),
      Segment("bronze", "青铜浴巾毛巾", 3, 3),
      Segment("silver", "白银马克杯", 6, 3),
      Segment("gold", "黄金毛巾", 9, 3),
      Segment("platinum", "铂金带帽卫衣", 12, 3),
      Segment("diamond", "钻石陶瓷杯具", 15, 3),
      Segment("king", "王者门帘", 18, 3) ]
  }

  /** What `create_video` hands to the exporter, or the error that aborts
      it, with the intro fit and the music plan corrected (`ResizeAndPad`,
      `ProcessBgm`). The stages run in the source's order: narration first,
      then the video file lookup, the intro segment, the intro fit, the
      image tracks and the audio mix. A run that gets through starts from a
      complete narration of a non-empty segment list, and is exported to
      the fixed output path. */
  function Render(segments: seq<Segment>, canvas: Size, tts: string -> Synthesis, entries: seq<string>,
                  source: Size, images: seq<string>, bgm: Option<BgmInput>): (r: Result<Composition, Error>)
    ensures r.Success? ==> Narrate(segments, tts).Success? && segments != [] && FirstVideoFile(entries).Some?
    ensures r.Success? ==> r.value.output == OutputFile
  {
    match Narrate(segments, tts)
    case Failure(e) => Failure(e)
    case Success(tracks) =>
      match FirstVideoFile(entries)
      case None => Failure(NoVideoFile)
      case Some(file) =>
        if tracks == [] then Failure(NoNarration)
        else
          match ResizeAndPad(canvas, source)
          case Failure(e) => Failure(e)
          case Success(fit) =>
            var visuals := VisualPlan(file, fit, tracks, images, canvas);
            match MixAudio(tracks, bgm)
            case Failure(e) => Failure(e)
            case Success(audio) => Success(Composition(visuals, audio, OutputFile))
  }

  /** A corrected run fails exactly when some caption cannot be
      synthesised, the folder has no .mp4/.MP4 entry, there are no
      segments, the source video has a zero dimension, or usable background
      music of length 0 meets a non-empty narration. */
  lemma {:induction false} RenderFailsIff(segments: seq<Segment>, canvas: Size, tts: string -> Synthesis, entries: seq<string>,
                       source: Size, images: seq<string>, bgm: Option<BgmInput>)
    ensures Render(segments, canvas, tts, entries, source, images, bgm).Failure? <==>
      || (exists i :: 0 <= i < |segments| && tts(segments[i].text).SynthesisFailed?)
      || (forall i :: 0 <= i < |entries| ==> !IsVideoName(entries[i]))
      || segments == []
      || source.width == 0 || source.height == 0
      || (UsableBgm(bgm) && bgm.value.duration == 0.0 && SpokenLength(segments, tts) > 0.0)
  {
    NarrateOutcome(segments, tts);
    var n := Narrate(segments, tts);
    if n.Success? {
      TimelineMixEnd(segments, tts, n.value);
    }
  }

  /** `create_video` as written: the same stages with the intro fit and
      the music plan as the code has them, so a source whose scaled size is
      not the canvas, and usable music shorter than the narration, abort the
      run. */
  function RenderAsWritten(segments: seq<Segment>, canvas: Size, tts: string -> Synthesis, entries: seq<string>,
                           source: Size, images: seq<string>, bgm: Option<BgmInput>): (r: Result<Composition, Error>)
    ensures r.Success? ==> Narrate(segments, tts).Success? && segments != [] && FirstVideoFile(entries).Some?
    ensures r.Success? ==> r.value.output == OutputFile
  {
    match Narrate(segments, tts)
    case Failure(e) => Failure(e)
    case Success(tracks) =>
      match FirstVideoFile(entries)
      case None => Failure(NoVideoFile)
      case Some(file) =>
        if tracks == [] then Failure(NoNarration)
        else
          match ResizeAndPadAsWritten(canvas, source)
          case Failure(e) => Failure(e)
          case Success(fit) =>
            var visuals := VisualPlan(file, fit, tracks, images, canvas);
            match MixAudioAsWritten(tracks, bgm)
            case Failure(e) => Failure(e)
            case Success(audio) => Success(Composition(visuals, audio, OutputFile))
  }

  /** A run as written fails exactly when a corrected run would, or the
      cover-fit size of the source is not the canvas, or usable music is
      shorter than the narration. */
  lemma {:induction false} RenderAsWrittenFailsIff(segments: seq<Segment>, canvas: Size, tts: string -> Synthesis, entries: seq<string>,
                       source: Size, images: seq<string>, bgm: Option<BgmInput>)
    ensures RenderAsWritten(segments, canvas, tts, entries, source, images, bgm).Failure? <==>
      || (exists i :: 0 <= i < |segments| && tts(segments[i].text).SynthesisFailed?)
      || (forall i :: 0 <= i < |entries| ==> !IsVideoName(entries[i]))
      || segments == []
      || source.width == 0 || source.height == 0
      || ScaledSize(source, ScaleRatio(canvas, source)) != canvas
      || (UsableBgm(bgm) && bgm.value.duration < SpokenLength(segments, tts))
  {
    NarrateOutcome(segments, tts);
    var n := Narrate(segments, tts);
    if n.Success? {
      TimelineMixEnd(segments, tts, n.value);
    }
  }

  /** Wherever the run as written gets through, the corrected run hands the
      exporter the same composition. */
  lemma {:induction false} RenderAgreesWhenAsWrittenSucceeds(segments: seq<Segment>, canvas: Size, tts: string -> Synthesis,
                       entries: seq<string>, source: Size, images: seq<string>, bgm: Option<BgmInput>)
    requires RenderAsWritten(segments, canvas, tts, entries, source, images, bgm).Success?
    ensures Render(segments, canvas, tts, entries, source, images, bgm)
         == RenderAsWritten(segments, canvas, tts, entries, source, images, bgm)
  {
    var tracks := Narrate(segments, tts).value;
    ResizeAndPadAgreesWhenExact(canvas, source);
    MixAudioAgreesWhenLongEnough(tracks, bgm);
  }

  /** Narration is synthesised before the video folder is searched: when a
      caption fails, the run reports that synthesis failure (naming the
      first failing segment) even if there is no video file at all. */
  lemma {:induction false} SynthesisPrecedesVideoLookup(segments: seq<Segment>, canvas: Size, tts: string -> Synthesis, entries: seq<string>,
                                     source: Size, images: seq<string>, bgm: Option<BgmInput>, k: nat)
    requires k < |segments| && tts(segments[k].text).SynthesisFailed?
    requires forall j :: 0 <= j < k ==> tts(segments[j].text).Synthesized?
    ensures Render(segments, canvas, tts, entries, source, images, bgm)
            == Failure(SynthesisError(segments[k].name, tts(segments[k].text).reason))
  {
    NarrateOutcome(segments, tts);
    var e := Narrate(segments, tts).error;
    var k' :| 0 <= k' < |segments| && tts(segments[k'].text).SynthesisFailed?
      && (forall j :: 0 <= j < k' ==> tts(segments[j].text).Synthesized?)
      && e == SynthesisError(segments[k'].name, tts(segments[k'].text).reason);
    assert k' == k;
  }

  /** A successful run composes 1 + min(n-1, len(images)) visual tracks,
      each canvas-sized and placed at its segment's start (the sum of the
      measured durations before it) for its segment's measured duration:
      the intro cut [0, d0) of the first video file in the listing, with
      the corrected fit of its frame to the canvas, first, then image j-1
      for segment j. */
  lemma {:induction false} RenderVisuals(segments: seq<Segment>, canvas: Size, tts: string -> Synthesis, entries: seq<string>,
                      source: Size, images: seq<string>, bgm: Option<BgmInput>)
    requires Render(segments, canvas, tts, entries, source, images, bgm).Success?
    ensures var vs := Render(segments, canvas, tts, entries, source, images, bgm).value.visuals;
      && |segments| >= 1
      && |vs| == 1 + Min(|segments| - 1, |images|)
      && vs[0].segment == 0
      && FirstVideoFile(entries).Some? && ResizeAndPad(canvas, source).Success?
      && vs[0].source.IntroVideo?
      && vs[0].source.file == FirstVideoFile(entries).value
      && vs[0].source.fit == ResizeAndPad(canvas, source).value
      && vs[0].source.clipStart == 0.0
      && vs[0].source.clipEnd == vs[0].duration
      && (forall j :: 1 <= j < |vs| ==> vs[j].segment == j && vs[j].source == StillImage(images[j - 1], ImageFps))
      && (forall v :: v in vs ==>
            && v.segment < |segments|
            && v.size == canvas
            && v.start == SpokenLength(segments[..v.segment], tts)
            && tts(segments[v.segment].text) == Synthesized(v.duration))
  {
    var ts := Narrate(segments, tts).value;
    var file := FirstVideoFile(entries).value;
    var fit := ResizeAndPad(canvas, source).value;
    assert Render(segments, canvas, tts, entries, source, images, bgm).value.visuals
        == VisualPlan(file, fit, ts, images, canvas);
    PlanFollowsNarration(segments, tts, ts, file, fit, images, canvas);
  }

  /** The visual plan over a successful narration: each track sits at its
      segment's start, the sum of the durations measured before it, for
      that segment's measured duration. */
  lemma {:induction false} PlanFollowsNarration(segments: seq<Segment>, tts: string -> Synthesis, ts: seq<NarrationTrack>,
                                                file: string, fit: Fit, images: seq<string>, canvas: Size)
    requires Narrate(segments, tts) == Success(ts) && |ts| >= 1
    ensures var vs := VisualPlan(file, fit, ts, images, canvas);
      && |segments| >= 1
      && |vs| == 1 + Min(|segments| - 1, |images|)
      && vs[0].segment == 0
      && vs[0].source.IntroVideo?
      && vs[0].source.file == file
      && vs[0].source.fit == fit
      && vs[0].source.clipStart == 0.0
      && vs[0].source.clipEnd == vs[0].duration
      && (forall j :: 1 <= j < |vs| ==> vs[j].segment == j && vs[j].source == StillImage(images[j - 1], ImageFps))
      && (forall v :: v in vs ==>
            && v.segment < |segments|
            && v.size == canvas
            && v.start == SpokenLength(segments[..v.segment], tts)
            && tts(segments[v.segment].text) == Synthesized(v.duration))
  {
    NarrateTracks(segments, tts, ts);
    NarrateStarts(segments, tts, ts);
    var vs := VisualPlan(file, fit, ts, images, canvas);
    VisualPlanShape(file, fit, ts, images, canvas);
    forall v | v in vs
      ensures v.start == SpokenLength(segments[..v.segment], tts)
      ensures tts(segments[v.segment].text) == Synthesized(v.duration)
    {
      assert v.start == ts[v.segment].start && v.duration == ts[v.segment].duration;
    }
  }

  /** The voice of a successful run's final audio is the narration
      timeline itself, and the final audio lasts the sum of all measured
      durations; usable music joins it at volume 0.3, trimmed to that sum,
      with the narration kept at 1.0, and without usable music the
      narration mix is the final audio. The output path is fixed. */
  lemma {:induction false} RenderAudio(segments: seq<Segment>, canvas: Size, tts: string -> Synthesis, entries: seq<string>,
                    source: Size, images: seq<string>, bgm: Option<BgmInput>)
    requires Render(segments, canvas, tts, entries, source, images, bgm).Success?
    ensures var c := Render(segments, canvas, tts, entries, source, images, bgm).value;
      && c.audio.voice == Narrate(segments, tts).value
      && AudioLength(c.audio) == SpokenLength(segments, tts)
      && (UsableBgm(bgm) ==> c.audio == WithBackground(c.audio.voice, 1.0, c.audio.music)
                               && c.audio.music.gain == 0.3
                               && c.audio.music.duration == SpokenLength(segments, tts))
      && (!UsableBgm(bgm) ==> c.audio.NarrationOnly?)
      && c.output == OutputFile
  {
    TimelineMixEnd(segments, tts, Narrate(segments, tts).value);
  }

  /** A deterministic stand-in for synthesis: the seven configured
      captions last 3.0, 2.5, 3.2, 2.8, 3.0, 2.9 and 3.1 seconds. */
  function StubTts(text: string): Synthesis {
    var segs := DefaultSegments();
    Synthesized(
      if text == segs[0].text then 3.0
      else if text == segs[1].text then 2.5
      else if text == segs[2].text then 3.2
      else if text == segs[3].text then 2.8
      else if text == segs[4].text then 3.0
      else if text == segs[5].text then 2.9
      else 3.1)
  }

  /** The sums of the stub durations before each segment, and of all. */
  lemma StubStarts()
    ensures SpokenLength(DefaultSegments()[..1], StubTts) == 3.0
    ensures SpokenLength(DefaultSegments()[..2], StubTts) == 5.5
    ensures SpokenLength(DefaultSegments()[..3], StubTts) == 8.7
    ensures SpokenLength(DefaultSegments()[..4], StubTts) == 11.5
    ensures SpokenLength(DefaultSegments()[..5], StubTts) == 14.5
    ensures SpokenLength(DefaultSegments()[..6], StubTts) == 17.4
    ensures SpokenLength(DefaultSegments(), StubTts) == 20.5
  {
    var s := DefaultSegments();
    assert s[..1][..0] == [];
    assert s[..2][..1] == s[..1];
    assert s[..3][..2] == s[..2];
    assert s[..4][..3] == s[..3];
    assert s[..5][..4] == s[..4];
    assert s[..6][..5] == s[..5];
    assert s[..6] == s[..|s| - 1];
  }

  /** With the stub durations every caption is synthesised, so the
      configured segments build a seven-entry timeline lasting 20.5 s whose
      triples start at 0, 3.0, 5.5, 8.7, 11.5, 14.5 and 17.4 s. */
  lemma StubNarration()
    ensures Narrate(DefaultSegments(), StubTts).Success?
    ensures var ts := Narrate(DefaultSegments(), StubTts).value;
      && |ts| == 7 && MixEnd(ts) == 20.5
      && ts[0].start == 0.0 && ts[1].start == 3.0 && ts[2].start == 5.5 && ts[3].start == 8.7
      && ts[4].start == 11.5 && ts[5].start == 14.5 && ts[6].start == 17.4
  {
    var segs := DefaultSegments();
    NarrateOutcome(segs, StubTts);
    var ts := Narrate(segs, StubTts).value;
    TimelineMixEnd(segs, StubTts, ts);
    NarrateStarts(segs, StubTts, ts);
    StubStarts();
    assert segs[..0] == [];
    assert ts[0].start == SpokenLength(segs[..0], StubTts);
    assert ts[1].start == SpokenLength(segs[..1], StubTts);
    assert ts[2].start == SpokenLength(segs[..2], StubTts);
    assert ts[3].start == SpokenLength(segs[..3], StubTts);
    assert ts[4].start == SpokenLength(segs[..4], StubTts);
    assert ts[5].start == SpokenLength(segs[..5], StubTts);
    assert ts[6].start == SpokenLength(segs[..6], StubTts);
  }

  /** Seven stub-timed captions, six images, a folder holding a video, a
      3:4 source and no music: seven visual tracks starting at 0, 3.0,
      5.5, 8.7, 11.5, 14.5 and 17.4 s, and 20.5 s of narration-only
      audio. */
  lemma {:induction false} ScenarioSixImages(entries: seq<string>, images: seq<string>)
    requires exists i :: 0 <= i < |entries| && IsVideoName(entries[i])
    requires |images| == 6
    ensures var r := Render(DefaultSegments(), Canvas, StubTts, entries, Canvas, images, None);
      && r.Success?
      && |r.value.visuals| == 7
      && r.value.visuals[0].start == 0.0 && r.value.visuals[1].start == 3.0
      && r.value.visuals[2].start == 5.5 && r.value.visuals[3].start == 8.7
      && r.value.visuals[4].start == 11.5 && r.value.visuals[5].start == 14.5
      && r.value.visuals[6].start == 17.4
      && r.value.audio.NarrationOnly?
      && AudioLength(r.value.audio) == 20.5
  {
    StubNarration();
    var ts := Narrate(DefaultSegments(), StubTts).value;
    var file := FirstVideoFile(entries).value;
    var fit := ResizeAndPad(Canvas, Canvas).value;
    VisualPlanShape(file, fit, ts, images, Canvas);
    assert Render(DefaultSegments(), Canvas, StubTts, entries, Canvas, images, None)
        == Success(Composition(VisualPlan(file, fit, ts, images, Canvas), NarrationOnly(ts), OutputFile));
  }

  /** The same run with only four images: segments 5 and 6 get no visual
      track, the run still succeeds, and the narration still covers all
      seven segments (20.5 s). */
  lemma {:induction false} ScenarioFourImages(entries: seq<string>, images: seq<string>)
    requires exists i :: 0 <= i < |entries| && IsVideoName(entries[i])
    requires |images| == 4
    ensures var r := Render(DefaultSegments(), Canvas, StubTts, entries, Canvas, images, None);
      && r.Success?
      && |r.value.visuals| == 5
      && (forall v :: v in r.value.visuals ==> v.segment != 5 && v.segment != 6)
      && AudioLength(r.value.audio) == 20.5
  {
    StubNarration();
    var ts := Narrate(DefaultSegments(), StubTts).value;
    var file := FirstVideoFile(entries).value;
    var fit := ResizeAndPad(Canvas, Canvas).value;
    VisualPlanShape(file, fit, ts, images, Canvas);
    SegmentHasVisualIff(file, fit, ts, images, Canvas, 5);
    SegmentHasVisualIff(file, fit, ts, images, Canvas, 6);
    assert Render(DefaultSegments(), Canvas, StubTts, entries, Canvas, images, None)
        == Success(Composition(VisualPlan(file, fit, ts, images, Canvas), NarrationOnly(ts), OutputFile));
  }

  /** With 5 s of usable background music the corrected run (the code as
      written aborts, see `ScenariosAbortAsWritten`) loops it
      ceil(20.5 / 5) = 5 times and trims it to exactly 20.5 s at volume
      0.3, the narration staying at 1.0. */
  lemma {:induction false} ScenarioShortBgm(entries: seq<string>, images: seq<string>, path: string)
    requires exists i :: 0 <= i < |entries| && IsVideoName(entries[i])
    requires path != ""
    ensures var r := Render(DefaultSegments(), Canvas, StubTts, entries, Canvas, images, Some(BgmInput(path, true, 5.0)));
      && r.Success?
      && r.value.audio == WithBackground(r.value.audio.voice, 1.0, BgmTrack(5, 20.5, 0.3))
  {
    var segs := DefaultSegments();
    StubNarration();
    ShortBgmAbortsAsWritten();
  }

  /** The same stub run as written: with 5 s of usable music it aborts on
      the undefined `concatenate_audioclips`, and with a 1920x1080 source
      it aborts on the rejected clip construction. */
  lemma {:induction false} ScenariosAbortAsWritten(entries: seq<string>, images: seq<string>, path: string)
    requires exists i :: 0 <= i < |entries| && IsVideoName(entries[i])
    requires path != ""
    ensures RenderAsWritten(DefaultSegments(), Canvas, StubTts, entries, Canvas, images, Some(BgmInput(path, true, 5.0)))
         == Failure(UndefinedName("concatenate_audioclips"))
    ensures RenderAsWritten(DefaultSegments(), Canvas, StubTts, entries, Size(1920, 1080), images, None)
         == Failure(UnsupportedClip)
  {
    StubNarration();
    LandscapeSourceAbortsAsWritten();
    assert ResizeAndPadAsWritten(Canvas, Canvas) == Success(Fit(Canvas, 0, 0)) by {
      assert ScaleRatio(Canvas, Canvas) == 1.0;
    }
  }

  /** The loop of `create_video` over segments 1.. : segment i gets a
      still-image track from `image_paths[i-1]` when that image exists. */
  method ImageClips(audioSegments: seq<NarrationTrack>, images: seq<string>, canvas: Size)
    returns (clips: seq<VisualTrack>)
    ensures clips == ImageVisuals(audioSegments, images, canvas)
  {
    clips := [];
    if |audioSegments| == 0 {
      return;
    }
    var i := 1;
    while i < |audioSegments|
      invariant 1 <= i <= |audioSegments|
      invariant clips == ImageVisuals(audioSegments[..i], images, canvas)
    {
      assert audioSegments[..i + 1][..i] == audioSegments[..i];
      if i - 1 < |images| {
        clips := clips + [StillVisual(images[i - 1], i, audioSegments[i], canvas)];
      }
      i := i + 1;
    }
    assert audioSegments[..i] == audioSegments;
  }

  class VideoGenerator {
    var segments: seq<Segment>
    var videoSize: Size

    /** `__init__`: the fixed segment list and the 1080x1440 canvas. */
    constructor ()
      ensures segments == DefaultSegments() && videoSize == Canvas
    {
      segments := DefaultSegments();
      videoSize := Canvas;
    }

    /** `generate_audio_segments`: walks the segments in order, placing each
        narration clip at the running sum of the measured durations, and
        re-raises the first synthesis failure without returning a partial
        list. */
    method GenerateAudioSegments(tts: string -> Synthesis) returns (r: Result<seq<NarrationTrack>, Error>)
      ensures r == Narrate(segments, tts)
    {
      var audioSegments: seq<NarrationTrack> := [];
      var currentStart: Seconds := 0.0;
      var i := 0;
      while i < |segments|
        invariant 0 <= i <= |segments|
        invariant Narrate(segments[..i], tts) == Success(audioSegments)
        invariant currentStart == TotalDuration(audioSegments)
      {
        var segment := segments[i];
        assert segments[..i + 1][..i] == segments[..i];
        match tts(segment.text)
        case SynthesisFailed(why) =>
          PrefixFailureIsFinal(segments, i + 1, tts);
          return Failure(SynthesisError(segment.name, why));
        case Synthesized(actualDuration) =>
          var audio := AudioClip(VoiceFile(segment.name), actualDuration, currentStart);
          ghost var before := audioSegments;
          audioSegments := audioSegments + [NarrationTrack(audio, currentStart, actualDuration)];
          assert audioSegments[..|audioSegments| - 1] == before;
          currentStart := currentStart + actualDuration;
        i := i + 1;
      }
      assert segments[..i] == segments;
      return Success(audioSegments);
    }

    /** `create_video` up to the export: builds the narration, picks the
        video file, fits and cuts the intro, appends an image track for
        each segment that has an image, and mixes the audio. */
    method CreateVideo(tts: string -> Synthesis, entries: seq<string>, source: Size, images: seq<string>,
                       bgm: Option<BgmInput>) returns (r: Result<Composition, Error>)
      ensures r == Render(segments, videoSize, tts, entries, source, images, bgm)
    {
      var narration := GenerateAudioSegments(tts);
      if narration.Failure? {
        return Failure(narration.error);
      }
      var audioSegments := narration.value;
      var videoFile := FirstVideoFile(entries);
      if videoFile.None? {
        return Failure(NoVideoFile);
      }
      if audioSegments == [] {
        return Failure(NoNarration);
      }
      var fitted := ResizeAndPad(videoSize, source);
      if fitted.Failure? {
        return Failure(fitted.error);
      }
      var imageClips := ImageClips(audioSegments, images, videoSize);
      var videoClips := [IntroVisual(videoFile.value, fitted.value, audioSegments[0], videoSize)] + imageClips;
      var finalAudio := MixAudio(audioSegments, bgm);
      if finalAudio.Failure? {
        return Failure(finalAudio.error);
      }
      return Success(Composition(videoClips, finalAudio.value, OutputFile));
    }
  }
}
