/** The visual side of `create_video`: choosing the source video file, and
    planning one visual track per narration segment (the intro video for
    segment 0, a still image for segment i >= 1 while images last). */
module Visuals {
  import opened Media

  /** Frame rate of the still-image tracks. */
  const ImageFps: nat := 24

  predicate EndsWith(s: string, suffix: string) {
    |suffix| <= |s| && s[|s| - |suffix|..] == suffix
  }

  /** The extensions `create_video` accepts, in the case forms it checks. */
  predicate IsVideoName(f: string) {
    EndsWith(f, ".mp4") || EndsWith(f, ".MP4")
  }

  /** The video file `create_video` selects: the first directory entry, in
      listing order, whose name ends in `.mp4` or `.MP4`; none when no entry
      does. */
  function FirstVideoFile(entries: seq<string>): (r: Option<string>)
    ensures r.None? <==> forall i :: 0 <= i < |entries| ==> !IsVideoName(entries[i])
    ensures r.Some? ==>
      exists k :: 0 <= k < |entries| && entries[k] == r.value && IsVideoName(entries[k])
        && forall j :: 0 <= j < k ==> !IsVideoName(entries[j])
  {
    if entries == [] then None
    else if IsVideoName(entries[0]) then Some(entries[0])
    else
      var r := FirstVideoFile(entries[1..]);
      if r.Some? then
        var k :| 0 <= k < |entries[1..]| && entries[1..][k] == r.value && IsVideoName(entries[1..][k])
          && forall j :: 0 <= j < k ==> !IsVideoName(entries[1..][j]);
        assert entries[k + 1] == r.value && IsVideoName(entries[k + 1]);
        assert forall j :: 0 <= j < k + 1 ==> !IsVideoName(entries[j]) by {
          forall j | 0 <= j < k + 1 ensures !IsVideoName(entries[j]) {
            if j > 0 { assert entries[j] == entries[1..][j - 1]; }
          }
        }
        r
      else
        assert forall i :: 0 <= i < |entries| ==> !IsVideoName(entries[i]) by {
          forall i | 0 <= i < |entries| ensures !IsVideoName(entries[i]) {
            if i > 0 { assert entries[i] == entries[1..][i - 1]; }
          }
        }
        r
  }

  /** The intro track (`process_video_by_duration` with start 0): the
      sub-clip [0, 0 + d0) of the fitted source video, anchored at segment
      0's start and shown on the canvas. */
  function IntroVisual(file: string, fit: Fit, first: NarrationTrack, canvas: Size): (v: VisualTrack)
    ensures v.source.IntroVideo? && v.source.file == file && v.source.fit == fit
    ensures v.source.clipStart == 0.0 && v.source.clipEnd - v.source.clipStart == v.duration
    ensures v.segment == 0 && v.start == first.start && v.duration == first.duration && v.size == canvas
  {
    VisualTrack(0, IntroVideo(file, 0.0, first.duration, fit), first.start, first.duration, canvas)
  }

  /** A still-image track (`create_image_video`): the image resized
      straight to the canvas, aspect ratio not kept, held for the segment's
      duration at 24 fps and anchored at the segment's start. */
  function StillVisual(image: string, segment: nat, track: NarrationTrack, canvas: Size): (v: VisualTrack)
    ensures v.source == StillImage(image, 24) && v.size == canvas
    ensures v.segment == segment && v.start == track.start && v.duration == track.duration
  {
    VisualTrack(segment, StillImage(image, ImageFps), track.start, track.duration, canvas)
  }

  /** The image tracks the loop over segments 1.. appends, following its
      guard: segment i gets `image_paths[i-1]` when `i-1 < len(image_paths)`
      and nothing otherwise. */
  function ImageVisuals(tracks: seq<NarrationTrack>, images: seq<string>, canvas: Size): (vs: seq<VisualTrack>)
    ensures |vs| == if |tracks| == 0 then 0 else Min(|tracks| - 1, |images|)
    ensures forall v :: v in vs ==> 1 <= v.segment < |tracks| && v.size == canvas
  {
    if |tracks| <= 1 then []
    else
      var i := |tracks| - 1;
      ImageVisuals(tracks[..i], images, canvas) +
        if i - 1 < |images| then [StillVisual(images[i - 1], i, tracks[i], canvas)] else []
  }

  /** All visual tracks of a run: the intro first, then the image tracks. */
  function VisualPlan(file: string, fit: Fit, tracks: seq<NarrationTrack>, images: seq<string>, canvas: Size): (plan: seq<VisualTrack>)
    requires |tracks| >= 1
    ensures |plan| == 1 + Min(|tracks| - 1, |images|)
    ensures plan[0] == IntroVisual(file, fit, tracks[0], canvas)
    ensures forall v :: v in plan ==> v.segment < |tracks| && v.size == canvas
  {
    [IntroVisual(file, fit, tracks[0], canvas)] + ImageVisuals(tracks, images, canvas)
  }

  function Min(a: int, b: int): int {
    if a <= b then a else b
  }

  /** The guarded loop yields one image track for each of segments
      1..min(n-1, len(images)), in order, track j using image j-1. */
  lemma {:induction false} ImageVisualsClosedForm(tracks: seq<NarrationTrack>, images: seq<string>, canvas: Size)
    ensures var vs := ImageVisuals(tracks, images, canvas);
      && |vs| == (if |tracks| == 0 then 0 else Min(|tracks| - 1, |images|))
      && forall j :: 0 <= j < |vs| ==> vs[j] == StillVisual(images[j], j + 1, tracks[j + 1], canvas)
  {
    if |tracks| > 1 {
      var i := |tracks| - 1;
      var p := tracks[..i];
      ImageVisualsClosedForm(p, images, canvas);
      assert forall j :: 1 <= j < |p| ==> p[j] == tracks[j];
    }
  }

  /** The visual plan has 1 + min(n-1, len(images)) tracks: the intro video
      cut to [0, d0) at segment 0's start, then for each segment j >= 1 that
      has an image, image j-1 at segment j's start for segment j's
      duration. Every track is canvas-sized and lines up with its
      narration segment. */
  lemma {:induction false} VisualPlanShape(file: string, fit: Fit, tracks: seq<NarrationTrack>, images: seq<string>, canvas: Size)
    requires |tracks| >= 1
    ensures var plan := VisualPlan(file, fit, tracks, images, canvas);
      && |plan| == 1 + Min(|tracks| - 1, |images|)
      && plan[0] == VisualTrack(0, IntroVideo(file, 0.0, tracks[0].duration, fit), tracks[0].start, tracks[0].duration, canvas)
      && (forall j :: 1 <= j < |plan| ==>
            plan[j] == VisualTrack(j, StillImage(images[j - 1], ImageFps), tracks[j].start, tracks[j].duration, canvas))
      && (forall v :: v in plan ==>
            v.segment < |tracks| && v.size == canvas
            && v.start == tracks[v.segment].start && v.duration == tracks[v.segment].duration)
  {
    var plan, vs := VisualPlan(file, fit, tracks, images, canvas), ImageVisuals(tracks, images, canvas);
    ImageVisualsClosedForm(tracks, images, canvas);
    assert plan == [IntroVisual(file, fit, tracks[0], canvas)] + vs;
    forall j | 1 <= j < |plan|
      ensures plan[j] == VisualTrack(j, StillImage(images[j - 1], ImageFps), tracks[j].start, tracks[j].duration, canvas)
    {
      assert plan[j] == vs[j - 1];
    }
    forall v | v in plan
      ensures v.start == tracks[v.segment].start && v.duration == tracks[v.segment].duration
    {
      var j :| 0 <= j < |plan| && plan[j] == v;
      if j > 0 {
        assert plan[j] == vs[j - 1];
      }
    }
  }

  /** Segment i gets a visual track exactly when it is the intro or an
      image is left for it (i-1 < len(images)); the segments beyond the
      images get none, which is not an error. */
  lemma {:induction false} SegmentHasVisualIff(file: string, fit: Fit, tracks: seq<NarrationTrack>, images: seq<string>, canvas: Size, i: nat)
    requires i < |tracks|
    ensures (exists v :: v in VisualPlan(file, fit, tracks, images, canvas) && v.segment == i)
            <==> i == 0 || i - 1 < |images|
  {
    var plan := VisualPlan(file, fit, tracks, images, canvas);
    VisualPlanShape(file, fit, tracks, images, canvas);
    if i == 0 {
      assert plan[0] in plan;
    } else if i - 1 < |images| {
      assert plan[i] in plan && plan[i].segment == i;
    } else {
      forall v | v in plan ensures v.segment != i {
        var j :| 0 <= j < |plan| && plan[j] == v;
      }
    }
  }
}
