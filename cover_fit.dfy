/** The size and offset arithmetic of `resize_and_pad_video`: a uniform
    cover-fit scale, the scaled frame size, and the floor-divided centring
    offsets. Pixel data is not modelled. */
module CoverFit {
  import opened Media
  import opened Arith

  /** The uniform scale `max(W/w, H/h)`. Scaled by it, the source covers
      the canvas in both axes and matches it exactly in at least one. */
  function ScaleRatio(canvas: Size, source: Size): (s: real)
    requires source.width > 0 && source.height > 0
    ensures s >= 0.0
    ensures s * source.width as real >= canvas.width as real
    ensures s * source.height as real >= canvas.height as real
    ensures s * source.width as real == canvas.width as real || s * source.height as real == canvas.height as real
  {
    var w, h := source.width as real, source.height as real;
    var rw, rh := canvas.width as real / w, canvas.height as real / h;
    assert rw * w == canvas.width as real && rh * h == canvas.height as real;
    if rw >= rh then
      assert rw * h >= rh * h by { MulMono(rh, rw, h); }
      rw
    else
      assert rh * w >= rw * w by { MulMono(rw, rh, w); }
      rh
  }

  /** The cover-fit scale is the least uniform scale that covers the
      canvas: any scale that covers both axes is at least as large. */
  lemma ScaleRatioIsLeast(canvas: Size, source: Size, t: real)
    requires source.width > 0 && source.height > 0
    requires t * source.width as real >= canvas.width as real
    requires t * source.height as real >= canvas.height as real
    ensures t >= ScaleRatio(canvas, source)
  {
    var s := ScaleRatio(canvas, source);
    var w, h := source.width as real, source.height as real;
    if t < s {
      if s * w == canvas.width as real {
        MulStrict(t, s, w);
      } else {
        MulStrict(t, s, h);
      }
    }
  }

  /** The frame size after scaling by `s`: the exact products, truncated to
      whole pixels. */
  function ScaledSize(source: Size, s: real): (r: Size)
    requires s >= 0.0
    ensures r.width as real <= s * source.width as real < r.width as real + 1.0
    ensures r.height as real <= s * source.height as real < r.height as real + 1.0
  {
    Size((s * source.width as real).Floor, (s * source.height as real).Floor)
  }

  /** Scaled by the cover-fit ratio, the frame is at least the canvas in
      both axes and equal to it in at least one: cover-fit never leaves a
      part of the canvas unfilled. */
  lemma ScaledCoversCanvas(canvas: Size, source: Size)
    requires source.width > 0 && source.height > 0
    ensures var scaled := ScaledSize(source, ScaleRatio(canvas, source));
      && scaled.width >= canvas.width && scaled.height >= canvas.height
      && (scaled.width == canvas.width || scaled.height == canvas.height)
  {
  }

  /** The centring offset `(target - scaled) // 2`. Dafny's `/` by a
      positive divisor rounds down like Python's `//`, so the offset is the
      greatest r with 2r <= target - scaled. */
  function CenterOffset(target: int, scaled: int): (r: int)
    ensures 2 * r <= target - scaled < 2 * r + 2
    // a frame no larger than the target lies inside it, the two margins
    // differing by at most one pixel (the extra pixel goes after)
    ensures scaled <= target ==> 0 <= r <= target - scaled && r <= (target - scaled) - r <= r + 1
    // a frame at least as large as the target starts at or before the
    // target's origin; the visible window [-r, -r + target) lies inside it,
    // the parts cut off on either side differing by at most one pixel
    ensures scaled >= target ==> r <= 0 && 0 <= -r && -r + target <= scaled && (scaled - target) - (-r) <= -r <= (scaled - target) - (-r) + 1
  {
    (target - scaled) / 2
  }

  /** The placed frame covers the whole canvas: the canvas is a window of
      the scaled frame, so no black padding shows. */
  predicate CoversCanvas(canvas: Size, fit: Fit) {
    && fit.xOffset <= 0 && fit.yOffset <= 0
    && -fit.xOffset + canvas.width <= fit.scaled.width
    && -fit.yOffset + canvas.height <= fit.scaled.height
  }

  /** The placed frame is centred: in each axis the overhang before and
      after the canvas differ by at most one pixel. */
  predicate Centred(canvas: Size, fit: Fit) {
    var left, right := -fit.xOffset, fit.scaled.width - canvas.width + fit.xOffset;
    var top, bottom := -fit.yOffset, fit.scaled.height - canvas.height + fit.yOffset;
    right <= left <= right + 1 && bottom <= top <= bottom + 1
  }

  /** `resize_and_pad_video` as written: a zero source dimension divides
      by zero; a scaled frame of exactly the canvas size is returned as is;
      any other size reaches `VideoFileClip(None, make_frame=...)`, which
      the clip class rejects. */
  function ResizeAndPadAsWritten(canvas: Size, source: Size): (r: Result<Fit, Error>)
    ensures r.Failure? <==> source.width == 0 || source.height == 0
                            || ScaledSize(source, ScaleRatio(canvas, source)) != canvas
    ensures r.Success? ==> r.value == Fit(canvas, 0, 0)
  {
    if source.width == 0 || source.height == 0 then Failure(ZeroDivision)
    else
      var scaled := ScaledSize(source, ScaleRatio(canvas, source));
      if scaled != canvas then Failure(UnsupportedClip)
      else Success(Fit(scaled, 0, 0))
  }

  /** A 16:9 landscape source (1920x1080) scales to 2560x1440 on the
      1080x1440 canvas, so the code as written aborts; the corrected fit
      shows the central 1080 columns. */
  lemma LandscapeSourceAbortsAsWritten()
    ensures ResizeAndPadAsWritten(Size(1080, 1440), Size(1920, 1080)) == Failure(UnsupportedClip)
    ensures ResizeAndPad(Size(1080, 1440), Size(1920, 1080)) == Success(Fit(Size(2560, 1440), -740, 0))
  {
    var s := ScaleRatio(Size(1080, 1440), Size(1920, 1080));
    assert s == 1440.0 / 1080.0;
    assert ScaledSize(Size(1920, 1080), s) == Size(2560, 1440);
  }

  /** Python's normalisation of a slice bound over an axis of length `n`
      (step 1): a negative bound counts from the end, and the result is
      clamped to [0, n]. */
  function SliceBound(i: int, n: nat): (b: nat)
    ensures 0 <= i <= n ==> b == i
    ensures i > n ==> b == n
    ensures i < 0 && 0 <= n + i ==> b == n + i
    ensures n + i < 0 ==> b == 0
  {
    if i < 0 then (if i + n < 0 then 0 else i + n)
    else if i > n then n
    else i
  }

  /** The number of positions `a[start:stop]` selects on an axis of
      length `n`. */
  function SliceLength(start: int, stop: int, n: nat): nat {
    var lo, hi := SliceBound(start, n), SliceBound(stop, n);
    if hi >= lo then hi - lo else 0
  }

  /** Assigning an array into a slice broadcasts along an axis when the
      lengths agree or the source has length 1. */
  predicate Broadcasts(source: nat, target: nat) {
    source == target || source == 1
  }

  /** One axis of the paste `full_frame[o:o+s] = frame` with the centring
      offset o: the paste fits whenever the frame is no larger than the
      canvas, and never when it is larger (the negative offset counts from
      the end instead of cropping). */
  lemma {:induction false} PasteAxis(target: nat, scaled: nat)
    ensures var o := CenterOffset(target, scaled);
      && (scaled <= target ==> SliceLength(o, o + scaled, target) == scaled)
      && (0 < target < scaled ==> !Broadcasts(scaled, SliceLength(o, o + scaled, target)))
  {
    var o := CenterOffset(target, scaled);
    if 0 < target < scaled {
      assert o < 0 && o + scaled >= target;
    }
  }

  /** The paste in `make_frame` as written: the scaled frame is assigned
      into `full_frame[y:y+h, x:x+w]` at the floor-divided centring
      offsets. It fits when the frame is no larger than the canvas, and
      fails to broadcast when the frame overhangs a non-empty canvas axis. */
  function PasteAsWritten(canvas: Size, scaled: Size): (r: Result<Fit, Error>)
    ensures scaled.width <= canvas.width && scaled.height <= canvas.height ==>
      r == Success(Fit(scaled, CenterOffset(canvas.width, scaled.width), CenterOffset(canvas.height, scaled.height)))
    ensures 0 < canvas.width < scaled.width ==> r == Failure(BroadcastMismatch)
    ensures 0 < canvas.height < scaled.height ==> r == Failure(BroadcastMismatch)
  {
    PasteAxis(canvas.width, scaled.width);
    PasteAxis(canvas.height, scaled.height);
    var x, y := CenterOffset(canvas.width, scaled.width), CenterOffset(canvas.height, scaled.height);
    if Broadcasts(scaled.width, SliceLength(x, x + scaled.width, canvas.width))
       && Broadcasts(scaled.height, SliceLength(y, y + scaled.height, canvas.height))
    then Success(Fit(scaled, x, y))
    else Failure(BroadcastMismatch)
  }

  /** Even with the clip construction repaired, the pad branch as written
      cannot succeed: a cover-fit frame that differs from a non-empty canvas
      overhangs it in one axis, and that paste fails to broadcast. */
  lemma PadBranchPasteFails(canvas: Size, source: Size)
    requires canvas.width > 0 && canvas.height > 0
    requires source.width > 0 && source.height > 0
    requires ScaledSize(source, ScaleRatio(canvas, source)) != canvas
    ensures PasteAsWritten(canvas, ScaledSize(source, ScaleRatio(canvas, source))) == Failure(BroadcastMismatch)
  {
    ScaledCoversCanvas(canvas, source);
  }

  /** The 2560x1440 frame of a 1920x1080 source on the 1080x1440 canvas:
      at x = -740 the slice selects columns 340..1079, 740 wide, and the
      2560-wide frame does not fit there. */
  lemma LandscapePasteFailsAsWritten()
    ensures CenterOffset(1080, 2560) == -740
    ensures SliceLength(-740, -740 + 2560, 1080) == 740
    ensures PasteAsWritten(Size(1080, 1440), Size(2560, 1440)) == Failure(BroadcastMismatch)
  {
  }

  /** `resize_and_pad_video` corrected in two places: the pad branch builds
      a canvas-sized clip (in place of the rejected construction), and the
      scaled frame is placed at the centring offsets so that the canvas
      shows its central window (in place of the paste that fails to
      broadcast). Reading the overhang as a centred crop is a choice: the
      code speaks of black padding, which a cover-fit frame computed in
      exact arithmetic never needs.
      The output is canvas-sized whatever the source's aspect ratio, the
      canvas is fully covered and the content centred. */
  function ResizeAndPad(canvas: Size, source: Size): (r: Result<Fit, Error>)
    ensures r.Failure? <==> source.width == 0 || source.height == 0
    ensures r.Failure? ==> r.error == ZeroDivision
    ensures r.Success? ==> CoversCanvas(canvas, r.value) && Centred(canvas, r.value)
    ensures r.Success? ==> r.value.scaled == ScaledSize(source, ScaleRatio(canvas, source))
  {
    if source.width == 0 || source.height == 0 then Failure(ZeroDivision)
    else
      var scaled := ScaledSize(source, ScaleRatio(canvas, source));
      ScaledCoversCanvas(canvas, source);
      Success(Fit(scaled, CenterOffset(canvas.width, scaled.width), CenterOffset(canvas.height, scaled.height)))
  }

  /** Wherever the code as written succeeds, the corrected fit agrees. */
  lemma ResizeAndPadAgreesWhenExact(canvas: Size, source: Size)
    requires ResizeAndPadAsWritten(canvas, source).Success?
    ensures ResizeAndPad(canvas, source) == ResizeAndPadAsWritten(canvas, source)
  {
  }
}
