/** The narration timeline builder: one (handle, start, duration) triple per
    configured segment, each start being the sum of the measured durations
    before it. Synthesis and decoding are the oracle `tts`, keyed by the
    caption text. */
module Narration {
  import opened Media

  /** The file a segment's narration is saved to, inside the run's audio
      directory. */
  function VoiceFile(name: string): string {
    name + "_voice.mp3"
  }

  /** Sum of the measured durations of a list of tracks. */
  function TotalDuration(ts: seq<NarrationTrack>): Seconds {
    if ts == [] then 0.0 else TotalDuration(ts[..|ts| - 1]) + ts[|ts| - 1].duration
  }

  /** Sum of the durations synthesis reports for the captions of `segs`,
      computed from the oracle alone (a failed caption adds nothing). */
  function SpokenLength(segs: seq<Segment>, tts: string -> Synthesis): Seconds {
    if segs == [] then 0.0
    else
      SpokenLength(segs[..|segs| - 1], tts) +
      match tts(segs[|segs| - 1].text)
      case Synthesized(d) => d
      case SynthesisFailed(_) => 0.0
  }

  /** What `generate_audio_segments` returns for `segs`: the timeline built
      over all but the last segment, extended by the last one placed at the
      running end of the timeline; the first failure aborts the build. */
  function Narrate(segs: seq<Segment>, tts: string -> Synthesis): (r: Result<seq<NarrationTrack>, Error>)
    ensures r.Success? ==> |r.value| == |segs|
  {
    if segs == [] then Success([])
    else
      var last := segs[|segs| - 1];
      match Narrate(segs[..|segs| - 1], tts)
      case Failure(e) => Failure(e)
      case Success(prev) =>
        match tts(last.text)
        case SynthesisFailed(why) => Failure(SynthesisError(last.name, why))
        case Synthesized(d) =>
          var start := TotalDuration(prev);
          Success(prev + [NarrationTrack(AudioClip(VoiceFile(last.name), d, start), start, d)])
  }

  /** One step of a successful build: the last triple extends the timeline
      built over the other segments and starts where that timeline ends. */
  lemma {:induction false} NarrateLast(segs: seq<Segment>, tts: string -> Synthesis, ts: seq<NarrationTrack>)
    requires segs != [] && Narrate(segs, tts) == Success(ts)
    ensures |ts| > 0
    ensures Narrate(segs[..|segs| - 1], tts) == Success(ts[..|ts| - 1])
    ensures tts(segs[|segs| - 1].text) == Synthesized(ts[|ts| - 1].duration)
    ensures ts[|ts| - 1].start == TotalDuration(ts[..|ts| - 1])
    ensures ts[|ts| - 1].audio == AudioClip(VoiceFile(segs[|segs| - 1].name), ts[|ts| - 1].duration, ts[|ts| - 1].start)
  {
    var prev := Narrate(segs[..|segs| - 1], tts).value;
    assert ts[..|ts| - 1] == prev;
  }

  /** A successful build has one triple per segment, in segment order: its
      duration is the one measured for that segment's caption and its clip
      handle is that segment's voice file, started at the triple's start. */
  lemma {:induction false} NarrateTracks(segs: seq<Segment>, tts: string -> Synthesis, ts: seq<NarrationTrack>)
    requires Narrate(segs, tts) == Success(ts)
    ensures |ts| == |segs|
    ensures forall i :: 0 <= i < |segs| ==> tts(segs[i].text) == Synthesized(ts[i].duration)
    ensures forall i :: 0 <= i < |segs| ==>
      ts[i].audio == AudioClip(VoiceFile(segs[i].name), ts[i].duration, ts[i].start)
  {
    forall i | 0 <= i < |segs|
      ensures tts(segs[i].text) == Synthesized(ts[i].duration)
      ensures ts[i].audio == AudioClip(VoiceFile(segs[i].name), ts[i].duration, ts[i].start)
    {
      NarrateTrackAt(segs, tts, ts, i);
    }
  }

  /** Triple i of a successful build is the one the loop appends for
      segment i. */
  lemma {:induction false} NarrateTrackAt(segs: seq<Segment>, tts: string -> Synthesis, ts: seq<NarrationTrack>, i: nat)
    requires Narrate(segs, tts) == Success(ts)
    requires i < |segs| == |ts|
    ensures tts(segs[i].text) == Synthesized(ts[i].duration)
    ensures ts[i].audio == AudioClip(VoiceFile(segs[i].name), ts[i].duration, ts[i].start)
  {
    NarratePrefix(segs, tts, ts, i + 1);
    var s, t := segs[..i + 1], ts[..i + 1];
    NarrateLast(s, tts, t);
    assert s[i] == segs[i] && t[i] == ts[i];
  }

  /** A successful build over a list of segments contains the build over
      each of its prefixes. */
  lemma {:induction false} NarratePrefix(segs: seq<Segment>, tts: string -> Synthesis, ts: seq<NarrationTrack>, k: nat)
    requires Narrate(segs, tts) == Success(ts)
    requires k <= |segs| == |ts|
    ensures Narrate(segs[..k], tts) == Success(ts[..k])
    decreases |segs|
  {
    if k < |segs| {
      var n := |segs| - 1;
      NarrateLast(segs, tts, ts);
      NarratePrefix(segs[..n], tts, ts[..n], k);
      assert segs[..n][..k] == segs[..k] && ts[..n][..k] == ts[..k];
    } else {
      assert segs[..k] == segs && ts[..k] == ts;
    }
  }

  /** A successful build lasts the sum of the durations measured for all
      captions. */
  lemma {:induction false} NarrateTotal(segs: seq<Segment>, tts: string -> Synthesis, ts: seq<NarrationTrack>)
    requires Narrate(segs, tts) == Success(ts)
    ensures TotalDuration(ts) == SpokenLength(segs, tts)
  {
    if segs != [] {
      NarrateLast(segs, tts, ts);
      NarrateTotal(segs[..|segs| - 1], tts, ts[..|ts| - 1]);
    }
  }

  /** In a successful build the start of triple i is the sum of the actual
      durations of triples 0..i-1, equivalently of the durations measured
      for the captions before it (so the first start is 0, and the nominal
      start field plays no part). */
  lemma {:induction false} NarrateStarts(segs: seq<Segment>, tts: string -> Synthesis, ts: seq<NarrationTrack>)
    requires Narrate(segs, tts) == Success(ts)
    ensures |ts| == |segs|
    ensures forall i :: 0 <= i < |segs| ==> ts[i].start == TotalDuration(ts[..i])
    ensures forall i :: 0 <= i < |segs| ==> ts[i].start == SpokenLength(segs[..i], tts)
  {
    forall i | 0 <= i < |segs|
      ensures ts[i].start == TotalDuration(ts[..i])
      ensures ts[i].start == SpokenLength(segs[..i], tts)
    {
      NarrateStartAt(segs, tts, ts, i);
    }
  }

  lemma {:induction false} NarrateStartAt(segs: seq<Segment>, tts: string -> Synthesis, ts: seq<NarrationTrack>, i: nat)
    requires Narrate(segs, tts) == Success(ts)
    requires i < |segs| == |ts|
    ensures ts[i].start == TotalDuration(ts[..i]) == SpokenLength(segs[..i], tts)
  {
    NarratePrefix(segs, tts, ts, i + 1);
    var s, t := segs[..i + 1], ts[..i + 1];
    NarrateLast(s, tts, t);
    assert s[..i] == segs[..i] && t[..i] == ts[..i] && t[i] == ts[i];
    NarrateTotal(segs[..i], tts, ts[..i]);
  }

  /** The build succeeds exactly when every caption is synthesised; when it
      fails, the error names the first segment whose synthesis failed and
      carries that failure's reason. */
  lemma {:induction false} NarrateOutcome(segs: seq<Segment>, tts: string -> Synthesis)
    ensures Narrate(segs, tts).Success? <==> forall i :: 0 <= i < |segs| ==> tts(segs[i].text).Synthesized?
    ensures Narrate(segs, tts).Failure? ==>
      exists k :: 0 <= k < |segs| && tts(segs[k].text).SynthesisFailed?
        && (forall j :: 0 <= j < k ==> tts(segs[j].text).Synthesized?)
        && Narrate(segs, tts).error == SynthesisError(segs[k].name, tts(segs[k].text).reason)
  {
    if segs != [] {
      var n := |segs| - 1;
      var p := segs[..n];
      NarrateOutcome(p, tts);
      assert forall i :: 0 <= i < n ==> p[i] == segs[i];
      if Narrate(p, tts).Failure? {
        var k :| 0 <= k < |p| && tts(p[k].text).SynthesisFailed?
          && (forall j :: 0 <= j < k ==> tts(p[j].text).Synthesized?)
          && Narrate(p, tts).error == SynthesisError(p[k].name, tts(p[k].text).reason);
        assert segs[k] == p[k];
      } else if tts(segs[n].text).SynthesisFailed? {
        assert forall j :: 0 <= j < n ==> tts(segs[j].text).Synthesized?;
      }
    }
  }

  /** Once the build over a prefix has failed, the later segments are never
      attempted: the whole build fails with the same error. */
  lemma {:induction false} PrefixFailureIsFinal(segs: seq<Segment>, k: nat, tts: string -> Synthesis)
    requires k <= |segs|
    requires Narrate(segs[..k], tts).Failure?
    ensures Narrate(segs, tts) == Narrate(segs[..k], tts)
    decreases |segs| - k
  {
    if k == |segs| {
      assert segs[..k] == segs;
    } else {
      var p := segs[..|segs| - 1];
      assert p[..k] == segs[..k];
      PrefixFailureIsFinal(p, k, tts);
    }
  }

  /** The nominal `start` and `target_duration` fields are never used:
      segment lists that agree on names and captions build the same
      timeline. */
  lemma {:induction false} NominalFieldsUnused(segs: seq<Segment>, other: seq<Segment>, tts: string -> Synthesis)
    requires |segs| == |other|
    requires forall i :: 0 <= i < |segs| ==> segs[i].name == other[i].name && segs[i].text == other[i].text
    ensures Narrate(segs, tts) == Narrate(other, tts)
  {
    if segs != [] {
      var n := |segs| - 1;
      NominalFieldsUnused(segs[..n], other[..n], tts);
      assert segs[n].name == other[n].name && segs[n].text == other[n].text;
    }
  }
}
