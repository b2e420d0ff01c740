/** The audio side of `create_video`: the narration mix, its duration
    (which is what the background music must cover) and the final mix with
    or without background music. */
module Mixer {
  import opened Media
  import opened Narration
  import opened Background

  /** The time a narration clip ends on the timeline. */
  function End(t: NarrationTrack): real {
    t.start + t.duration
  }

  /** The duration of a composite of clips: the latest end among them
      (0 for no clips, a case `create_video` never reaches). */
  function MixEnd(ts: seq<NarrationTrack>): (r: Seconds)
    ensures forall i :: 0 <= i < |ts| ==> End(ts[i]) <= r
    ensures ts != [] ==> exists i :: 0 <= i < |ts| && r == End(ts[i])
  {
    if ts == [] then 0.0
    else
      var p := ts[..|ts| - 1];
      var prev, last := MixEnd(p), End(ts[|ts| - 1]);
      assert forall i :: 0 <= i < |p| ==> p[i] == ts[i];
      if prev >= last then prev else last
  }

  /** When each track starts where the tracks before it end, as the
      narration builder places them, the mix ends at the sum of all
      durations. */
  lemma {:induction false} BackToBackMixEnd(ts: seq<NarrationTrack>)
    requires forall i :: 0 <= i < |ts| ==> ts[i].start == TotalDuration(ts[..i])
    ensures MixEnd(ts) == TotalDuration(ts)
  {
    if ts != [] {
      var n := |ts| - 1;
      var p := ts[..n];
      forall i | 0 <= i < |p|
        ensures p[i].start == TotalDuration(p[..i])
      {
        assert p[i] == ts[i] && p[..i] == ts[..i];
      }
      BackToBackMixEnd(p);
    }
  }

  /** The narration mix that `generate_audio_segments` produces ends at
      the sum of the measured durations of all captions: this is the length
      the background music is cut to. */
  lemma {:induction false} TimelineMixEnd(segs: seq<Segment>, tts: string -> Synthesis, ts: seq<NarrationTrack>)
    requires Narrate(segs, tts) == Success(ts)
    ensures |ts| == |segs|
    ensures MixEnd(ts) == SpokenLength(segs, tts)
  {
    NarrateStarts(segs, tts, ts);
    NarrateTotal(segs, tts, ts);
    BackToBackMixEnd(ts);
  }

  /** The background argument is used when it is a non-empty path to an
      existing file (`bgm_path and os.path.exists(bgm_path)`). */
  predicate UsableBgm(bgm: Option<BgmInput>) {
    bgm.Some? && bgm.value.path != "" && bgm.value.present
  }

  /** The duration of the final audio: the latest end among its parts,
      all of which start at 0 or later. */
  function AudioLength(a: FinalAudio): (r: Seconds)
    ensures r >= MixEnd(a.voice)
    ensures a.WithBackground? ==> r >= a.music.duration && (r == MixEnd(a.voice) || r == a.music.duration)
    ensures a.NarrationOnly? ==> r == MixEnd(a.voice)
  {
    match a
    case NarrationOnly(voice) => MixEnd(voice)
    case WithBackground(voice, _, music) =>
      if MixEnd(voice) >= music.duration then MixEnd(voice) else music.duration
  }

  /** The final mix as written: with usable background music shorter than
      the narration, `process_bgm` aborts (division by zero for an empty
      track, the undefined `concatenate_audioclips` otherwise). */
  function MixAudioAsWritten(voice: seq<NarrationTrack>, bgm: Option<BgmInput>): (r: Result<FinalAudio, Error>)
    ensures !UsableBgm(bgm) ==> r == Success(NarrationOnly(voice))
    ensures UsableBgm(bgm) ==> (r.Failure? <==> bgm.value.duration < MixEnd(voice))
    ensures r.Success? ==> r.value.voice == voice && AudioLength(r.value) == MixEnd(voice)
  {
    if UsableBgm(bgm) then
      match ProcessBgmAsWritten(bgm.value.duration, MixEnd(voice))
      case Failure(e) => Failure(e)
      case Success(music) => Success(WithBackground(voice, VoiceGain, music))
    else Success(NarrationOnly(voice))
  }

  /** Wherever the mix as written succeeds, the corrected mix gives the
      same final audio. */
  lemma MixAudioAgreesWhenLongEnough(voice: seq<NarrationTrack>, bgm: Option<BgmInput>)
    requires MixAudioAsWritten(voice, bgm).Success?
    ensures MixAudio(voice, bgm) == MixAudioAsWritten(voice, bgm)
  {
    if UsableBgm(bgm) {
      ProcessBgmAgreesWhenLongEnough(bgm.value.duration, MixEnd(voice));
    }
  }

  /** The final mix with `process_bgm` corrected: without usable background music, the narration mix
      alone; otherwise the narration mix at volume 1.0 over the background
      music processed to the narration mix's duration at volume 0.3. The
      final audio lasts exactly as long as the narration mix either way. */
  function MixAudio(voice: seq<NarrationTrack>, bgm: Option<BgmInput>): (r: Result<FinalAudio, Error>)
    ensures !UsableBgm(bgm) ==> r == Success(NarrationOnly(voice))
    ensures UsableBgm(bgm) ==> (r.Failure? <==> bgm.value.duration == 0.0 && MixEnd(voice) > 0.0)
    ensures r.Success? ==> r.value.voice == voice && AudioLength(r.value) == MixEnd(voice)
    ensures r.Success? && UsableBgm(bgm) ==>
      && r.value.WithBackground?
      && r.value.voiceGain == 1.0
      && r.value.music.gain == 0.3
      && r.value.music.duration == MixEnd(voice)
  {
    if UsableBgm(bgm) then
      match ProcessBgm(bgm.value.duration, MixEnd(voice))
      case Failure(e) => Failure(e)
      case Success(music) => Success(WithBackground(voice, VoiceGain, music))
    else Success(NarrationOnly(voice))
  }
}
