/** The length and volume arithmetic of `process_bgm`: how often a short
    background track is repeated, the length it is trimmed to, and the
    volume factors of the final mix. */
module Background {
  import opened Media
  import opened Arith

  /** Volume factor applied to the background music. */
  const BgmGain: real := 0.3

  /** Volume factor the narration mix keeps when music is added. */
  const VoiceGain: real := 1.0

  /** `np.ceil`: the least integer not below x. */
  function Ceil(x: real): (c: int)
    ensures c as real >= x && (c - 1) as real < x
  {
    var f := x.Floor;
    if f as real == x then f else f + 1
  }

  /** `ceil(total / original)`, the number of copies concatenated when the
      music is shorter than the narration: enough copies to reach `total`,
      one fewer would not, and at least two. */
  function RepeatTimes(original: Seconds, total: Seconds): (n: nat)
    requires 0.0 < original < total
    ensures n as real * original >= total
    ensures (n - 1) as real * original < total
    ensures n >= 2
  {
    var q := total / original;
    var c := Ceil(q);
    CeilTimes(q, c, original, total);
    c
  }

  /** Multiplying the bounds of a ceiling by the divisor: when q * o is the
      total, ceil(q) copies of o reach it and one fewer stays below it. */
  lemma CeilTimes(q: real, c: int, o: real, total: real)
    requires o > 0.0 && q * o == total && total > o
    requires c as real >= q && (c - 1) as real < q
    ensures c as real * o >= total && (c - 1) as real * o < total && c >= 2
  {
    var cr := c as real;
    MulMono(q, cr, o);
    assert cr * o >= total;
    MulStrict(cr - 1.0, q, o);
    assert (c - 1) as real == cr - 1.0;
    assert q > 1.0 by {
      if q <= 1.0 {
        MulMono(q, 1.0, o);
      }
    }
  }

  /** `process_bgm` as written: the ratio over a zero-length track divides
      by zero, and the loop branch calls `concatenate_audioclips`, a name
      the module never imports, so every track shorter than the narration
      aborts the run. A long enough track is trimmed and attenuated. */
  function ProcessBgmAsWritten(original: Seconds, total: Seconds): (r: Result<BgmTrack, Error>)
    ensures r.Failure? <==> original < total
    ensures original < total && original > 0.0 ==> r == Failure(UndefinedName("concatenate_audioclips"))
    ensures r.Success? ==> r.value == BgmTrack(1, total, BgmGain)
  {
    if original < total then
      if original == 0.0 then Failure(ZeroDivision)
      else Failure(UndefinedName("concatenate_audioclips"))
    else Success(BgmTrack(1, total, BgmGain))
  }

  /** `process_bgm` with the loop branch concatenating the copies it
      evidently intends: a short track is repeated `ceil(total/original)`
      times; every track is then cut to exactly `total` and attenuated to
      0.3. Only a zero-length track shorter than the narration fails. */
  function ProcessBgm(original: Seconds, total: Seconds): (r: Result<BgmTrack, Error>)
    ensures r.Failure? <==> original == 0.0 && total > 0.0
    ensures r.Failure? ==> r.error == ZeroDivision
    ensures r.Success? ==> r.value.duration == total && r.value.gain == 0.3
    ensures r.Success? ==> r.value.loops as real * original >= total
    ensures r.Success? ==> (r.value.loops > 1 <==> original < total)
    ensures r.Success? && r.value.loops > 1 ==> (r.value.loops - 1) as real * original < total
  {
    if original < total then
      if original == 0.0 then Failure(ZeroDivision)
      else Success(BgmTrack(RepeatTimes(original, total), total, BgmGain))
    else Success(BgmTrack(1, total, BgmGain))
  }

  /** Wherever the code as written succeeds, the corrected plan agrees. */
  lemma ProcessBgmAgreesWhenLongEnough(original: Seconds, total: Seconds)
    requires ProcessBgmAsWritten(original, total).Success?
    ensures ProcessBgm(original, total) == ProcessBgmAsWritten(original, total)
  {
  }

  /** A 5 s track under 20.5 s of narration: as written the run aborts on
      the undefined name; corrected, the track is repeated
      ceil(20.5/5) = 5 times (25 s) and trimmed to exactly 20.5 s. */
  lemma ShortBgmAbortsAsWritten()
    ensures ProcessBgmAsWritten(5.0, 20.5) == Failure(UndefinedName("concatenate_audioclips"))
    ensures ProcessBgm(5.0, 20.5) == Success(BgmTrack(5, 20.5, 0.3))
  {
    assert (20.5 / 5.0).Floor == 4;
  }
}
