/** The per-descriptor rules of SpotifyAudioAnalyzer (audio_analyzer.py):
    each `_estimate_*` / `_calculate_*` helper as a function of the librosa
    results it reads. A helper whose body sits in a `try` returns its own
    fallback constant when one of the calls it makes raises; the others
    have no `try`, and their exceptions abort the whole analysis (see
    AudioAnalyzer). */
module Descriptors {
  import opened Outcomes
  import opened Stats
  import opened Signals

  /** The binary templates of _estimate_mode. They are compared with the
      chroma profile in fixed pitch-class order, without rotating them to
      the detected key, so the mode estimate is not key-relative. */
  const MajorProfile: seq<real> := [1.0, 0.0, 1.0, 0.0, 1.0, 1.0, 0.0, 1.0, 0.0, 1.0, 0.0, 1.0]
  const MinorProfile: seq<real> := [1.0, 0.0, 1.0, 1.0, 0.0, 1.0, 0.0, 1.0, 1.0, 0.0, 1.0, 0.0]

  // ---------------------------------------------------------------- time signature

  /** Always 4/4, whatever the beats and the sample rate. */
  function EstimateTimeSignature(beats: Beats, sampleRate: int): (ts: int)
    ensures ts == 4
  {
    4
  }

  // ---------------------------------------------------------------- key and mode

  /** np.mean(chroma, axis=1): the 12-bin pitch-class profile. */
  function ChromaMean(chroma: Chroma): (m: seq<real>)
    ensures |m| == 12
    ensures forall i :: 0 <= i < 12 ==> m[i] == Mean(chroma[i])
  {
    seq(12, i requires 0 <= i < 12 => Mean(chroma[i]))
  }

  /** The key is the first pitch class of largest mean chroma; 5 (F) only
      when chroma_stft raises. */
  function EstimateKey(chroma: Outcome<Chroma>): (key: int)
    ensures 0 <= key < 12
    ensures chroma.Raised? ==> key == 5
    ensures chroma.Ok? ==>
      var m := ChromaMean(chroma.value);
      (forall i :: 0 <= i < 12 ==> m[i] <= m[key]) &&
      (forall i :: 0 <= i < key ==> m[i] < m[key])
  {
    match chroma
    case Ok(c) => ArgMax(ChromaMean(c))
    case Raised => 5
  }

  /** The mode is major (1) exactly when both correlations are defined and
      the major one is strictly larger: a NaN correlation makes Python's `>`
      false, so it gives minor (0), not the fallback. Major (1) is also the
      fallback when chroma_stft raises. */
  function EstimateMode(chroma: Outcome<Chroma>, sqrt: real -> real): (mode: int)
    requires RootLike(sqrt)
    ensures mode == 0 || mode == 1
    ensures chroma.Raised? ==> mode == 1
    ensures chroma.Ok? ==>
      var major := CorrCoef(ChromaMean(chroma.value), MajorProfile, sqrt);
      var minor := CorrCoef(ChromaMean(chroma.value), MinorProfile, sqrt);
      (mode == 1 <==> major.Some? && minor.Some? && major.value > minor.value)
  {
    match chroma
    case Ok(c) =>
      var m := ChromaMean(c);
      var major := CorrCoef(m, MajorProfile, sqrt);
      var minor := CorrCoef(m, MinorProfile, sqrt);
      if major.Some? && minor.Some? && major.value > minor.value then 1 else 0
    case Raised => 1
  }

  /** Silent chroma gives key 0 (C, the first of twelve equal maxima), not
      the fallback 5. */
  lemma SilentChromaKey(chroma: Chroma)
    requires forall i, f :: 0 <= i < 12 && 0 <= f < |chroma[i]| ==> chroma[i][f] == 0.0
    ensures EstimateKey(Ok(chroma)) == 0
  {
    var m := ChromaMean(chroma);
    forall i | 0 <= i < 12 ensures m[i] == 0.0 {
      MeanOfConstant(chroma[i], 0.0);
    }
    var key := EstimateKey(Ok(chroma));
    assert m[0] == m[key];
  }

  /** A flat profile (all twelve means equal) has no defined correlation
      with either template, so the mode is minor, not the fallback major. */
  lemma FlatChromaMode(chroma: Chroma, sqrt: real -> real, level: real)
    requires RootLike(sqrt)
    requires forall i :: 0 <= i < 12 ==> Mean(chroma[i]) == level
    ensures EstimateMode(Ok(chroma), sqrt) == 0
  {
    VarianceOfConstant(ChromaMean(chroma), level);
  }

  // ---------------------------------------------------------------- energy and loudness

  /** Energy is ten times the mean frame RMS, clipped into [0, 1]. */
  function CalculateEnergy(rms: Frames): (energy: real)
    ensures 0.0 <= energy <= 1.0
    ensures 0.0 <= Mean(rms) <= 0.1 ==> energy == Mean(rms) * 10.0
    ensures Mean(rms) <= 0.0 ==> energy == 0.0
    ensures Mean(rms) >= 0.1 ==> energy == 1.0
  {
    Clip(Mean(rms) * 10.0, 0.0, 1.0)
  }

  /** A silent RMS series has zero energy. */
  lemma SilentEnergy(rms: Frames)
    requires forall f :: 0 <= f < |rms| ==> rms[f] == 0.0
    ensures CalculateEnergy(rms) == 0.0
  {
    MeanOfConstant(rms, 0.0);
  }

  function Squares(y: seq<real>): (q: seq<real>)
    ensures |q| == |y|
    ensures forall i :: 0 <= i < |q| ==> q[i] == y[i] * y[i]
  {
    seq(|y|, i requires 0 <= i < |y| => y[i] * y[i])
  }

  /** np.sqrt(np.mean(y**2)); the mean of an empty buffer is NaN (None). */
  function GlobalRms(y: seq<real>, sqrt: real -> real): (rms: Option<real>)
    ensures rms.None? <==> |y| == 0
    ensures RootLike(sqrt) && rms.Some? ==> rms.value >= 0.0
  {
    if |y| == 0 then None
    else
      var q := Squares(y);
      forall i | 0 <= i < |q| ensures q[i] >= 0.0 {
        SquareNonNegative(y[i]);
      }
      MeanAtLeast(q, 0.0);
      Some(sqrt(Mean(q)))
  }

  /** Loudness is exactly -30 dB unless the global RMS is positive (a NaN
      RMS fails `rms > 0` too); otherwise 20 log10(rms) clipped into
      [-30, 5]. */
  function CalculateLoudness(y: seq<real>, num: Numerics): (db: real)
    ensures -30.0 <= db <= 5.0
    ensures var rms := GlobalRms(y, num.sqrt);
      !(rms.Some? && rms.value > 0.0) ==> db == -30.0
    ensures var rms := GlobalRms(y, num.sqrt);
      rms.Some? && rms.value > 0.0 ==> db == Clip(20.0 * num.log10(rms.value), -30.0, 5.0)
  {
    var rms := GlobalRms(y, num.sqrt);
    if rms.Some? && rms.value > 0.0 then Clip(20.0 * num.log10(rms.value), -30.0, 5.0)
    else -30.0
  }

  /** A silent buffer of any length, the empty one included, is -30 dB. */
  lemma SilentLoudness(y: seq<real>, num: Numerics)
    requires RootLike(num.sqrt)
    requires forall i :: 0 <= i < |y| ==> y[i] == 0.0
    ensures CalculateLoudness(y, num) == -30.0
  {
    if |y| > 0 {
      MeanOfConstant(Squares(y), 0.0);
    }
  }

  // ---------------------------------------------------------------- danceability

  /** Tempo proximity to 120 BPM: max(0, 1 - |tempo - 120| / 120). */
  function TempoFactor(tempo: real): (tf: real)
    ensures 0.0 <= tf <= 1.0
    ensures tf == 1.0 <==> tempo == 120.0
    ensures tf == 0.0 <==> tempo <= 0.0 || tempo >= 240.0
  {
    Max(0.0, 1.0 - Abs(tempo - 120.0) / 120.0)
  }

  /** A tempo closer to 120 BPM never scores lower. */
  lemma TempoFactorPrefersCloser(t1: real, t2: real)
    requires Abs(t1 - 120.0) <= Abs(t2 - 120.0)
    ensures TempoFactor(t1) >= TempoFactor(t2)
  {
  }

  /** Beats are strictly increasing, so every interval is at least one frame. */
  lemma IntervalsAtLeastOne(beats: Beats)
    requires |beats| > 1
    ensures forall i :: 0 <= i < |Diff(beats)| ==> Diff(beats)[i] >= 1.0
    ensures Mean(Diff(beats)) >= 1.0
  {
    var d := Diff(beats);
    forall i | 0 <= i < |d| ensures d[i] >= 1.0 {
      assert beats[i] < beats[i + 1];
    }
    MeanAtLeast(d, 1.0);
  }

  /** Rhythm regularity: max(0, 1 - std/mean of the beat intervals) with two
      or more beats, 0.5 otherwise. */
  function RhythmRegularity(beats: Beats, sqrt: real -> real): (rr: real)
    ensures rr >= 0.0
    ensures |beats| <= 1 ==> rr == 0.5
    ensures RootLike(sqrt) ==> rr <= 1.0
  {
    if |beats| > 1 then
      var intervals := Diff(beats);
      IntervalsAtLeastOne(beats);
      VarianceNonNegative(intervals);
      Max(0.0, 1.0 - sqrt(Variance(intervals)) / Mean(intervals))
    else 0.5
  }

  /** Evenly spaced beats are perfectly regular. */
  lemma EvenBeatsAreRegular(beats: Beats, sqrt: real -> real, gap: real)
    requires RootLike(sqrt)
    requires |beats| > 1
    requires forall i :: 0 <= i < |beats| - 1 ==> (beats[i + 1] - beats[i]) as real == gap
    ensures RhythmRegularity(beats, sqrt) == 1.0
  {
    VarianceOfConstant(Diff(beats), gap);
    IntervalsAtLeastOne(beats);
  }

  /** Danceability fuses the mean onset strength, the tempo factor and the
      rhythm regularity with weights 0.4, 0.3, 0.3 and clips into [0, 1];
      0.5 when onset_strength raises. */
  function CalculateDanceability(onset: Outcome<Frames>, track: BeatTrack, sqrt: real -> real): (d: real)
    ensures 0.0 <= d <= 1.0
    ensures onset.Raised? ==> d == 0.5
    ensures onset.Ok? ==>
      var score := Mean(onset.value) * 0.4 + TempoFactor(track.tempo) * 0.3 + RhythmRegularity(track.beats, sqrt) * 0.3;
      (0.0 <= score <= 1.0 ==> d == score) && (score <= 0.0 ==> d == 0.0) && (score >= 1.0 ==> d == 1.0)
  {
    match onset
    case Ok(env) =>
      var strength := Mean(env);
      Clip(strength * 0.4 + TempoFactor(track.tempo) * 0.3 + RhythmRegularity(track.beats, sqrt) * 0.3, 0.0, 1.0)
    case Raised => 0.5
  }

  /** With a non-negative onset envelope the score never falls below zero,
      so the lower clip is inert. */
  lemma DanceabilityScoreNonNegative(env: Frames, track: BeatTrack, sqrt: real -> real)
    requires forall f :: 0 <= f < |env| ==> env[f] >= 0.0
    ensures Mean(env) * 0.4 + TempoFactor(track.tempo) * 0.3 + RhythmRegularity(track.beats, sqrt) * 0.3 >= 0.0
  {
    MeanAtLeast(env, 0.0);
  }

  // ---------------------------------------------------------------- valence and acousticness

  /** A mean frame frequency as a fraction of the Nyquist rate sr / 2. */
  function NyquistFraction(series: Frames, sampleRate: int): (r: real)
    requires sampleRate != 0
    ensures r * (sampleRate as real / 2.0) == Mean(series)
    ensures sampleRate > 0 && Mean(series) >= 0.0 ==> r >= 0.0
  {
    Mean(series) / (sampleRate as real / 2.0)
  }

  /** np.mean(np.var(chroma, axis=1)): the mean per-pitch-class variance. */
  function HarmonyComplexity(chroma: Chroma): (h: real)
    ensures h >= 0.0
  {
    var variances := seq(12, i requires 0 <= i < 12 => Variance(chroma[i]));
    forall i | 0 <= i < 12 ensures variances[i] >= 0.0 {
      VarianceNonNegative(chroma[i]);
    }
    MeanAtLeast(variances, 0.0);
    Mean(variances)
  }

  /** Valence is 0.6 brightness + 0.4 (1 - harmony complexity), clipped into
      [0, 1]; 0.5 when spectral_centroid or chroma_stft raises. */
  function CalculateValence(centroid: Outcome<Frames>, chroma: Outcome<Chroma>, sampleRate: int): (v: real)
    requires sampleRate != 0
    ensures 0.0 <= v <= 1.0
    ensures centroid.Raised? || chroma.Raised? ==> v == 0.5
    ensures centroid.Ok? && chroma.Ok? ==>
      var score := NyquistFraction(centroid.value, sampleRate) * 0.6 + (1.0 - HarmonyComplexity(chroma.value)) * 0.4;
      (0.0 <= score <= 1.0 ==> v == score) && (score <= 0.0 ==> v == 0.0) && (score >= 1.0 ==> v == 1.0)
  {
    match (centroid, chroma)
    case (Ok(c), Ok(ch)) =>
      var brightness := NyquistFraction(c, sampleRate);
      Clip(brightness * 0.6 + (1.0 - HarmonyComplexity(ch)) * 0.4, 0.0, 1.0)
    case _ => 0.5
  }

  /** Acousticness is 1 minus the mean of the normalised rolloff and
      centroid, clipped into [0, 1]; 0.5 when either call raises. */
  function CalculateAcousticness(rolloff: Outcome<Frames>, centroid: Outcome<Frames>, sampleRate: int): (a: real)
    requires sampleRate != 0
    ensures 0.0 <= a <= 1.0
    ensures rolloff.Raised? || centroid.Raised? ==> a == 0.5
    ensures rolloff.Ok? && centroid.Ok? ==>
      var score := 1.0 - (NyquistFraction(rolloff.value, sampleRate) * 0.5 + NyquistFraction(centroid.value, sampleRate) * 0.5);
      (0.0 <= score <= 1.0 ==> a == score) && (score <= 0.0 ==> a == 0.0) && (score >= 1.0 ==> a == 1.0)
  {
    match (rolloff, centroid)
    case (Ok(r), Ok(c)) =>
      Clip(1.0 - (NyquistFraction(r, sampleRate) * 0.5 + NyquistFraction(c, sampleRate) * 0.5), 0.0, 1.0)
    case _ => 0.5
  }

  // ---------------------------------------------------------------- instrumentalness

  /** np.mean(mfccs[1:4]): the mean over every frame of coefficients 1 to
      3. The rows have equal length, so it is the mean of the three row
      means. */
  function VocalRangeEnergy(mfcc: Mfcc): (e: real)
    ensures e == (Mean(mfcc[1]) + Mean(mfcc[2]) + Mean(mfcc[3])) / 3.0
  {
    var n := |mfcc[0]| as real;
    assert |mfcc[1]| as real == n && |mfcc[2]| as real == n && |mfcc[3]| as real == n;
    SumConcat(mfcc[1] + mfcc[2], mfcc[3]);
    SumConcat(mfcc[1], mfcc[2]);
    Mean(mfcc[1] + mfcc[2] + mfcc[3])
  }

  /** Instrumentalness is 1 - 0.1 |vocal-range energy|, clipped into [0, 1]:
      exactly 1 when that energy is zero, and 0.5 when spectral_centroid or
      mfcc raises. The spectral-stability value the source computes beside
      it is never used. */
  function CalculateInstrumentalness(centroid: Outcome<Frames>, mfcc: Outcome<Mfcc>): (x: real)
    ensures 0.0 <= x <= 1.0
    ensures centroid.Raised? || mfcc.Raised? ==> x == 0.5
    ensures centroid.Ok? && mfcc.Ok? ==>
      var energy := VocalRangeEnergy(mfcc.value);
      (x == 1.0 <==> energy == 0.0) &&
      (Abs(energy) <= 10.0 ==> x == 1.0 - Abs(energy) * 0.1) &&
      (Abs(energy) >= 10.0 ==> x == 0.0)
  {
    match (centroid, mfcc)
    case (Ok(_), Ok(m)) => Clip(1.0 - Abs(VocalRangeEnergy(m)) * 0.1, 0.0, 1.0)
    case _ => 0.5
  }

  // ---------------------------------------------------------------- liveness

  /** Liveness is a tenth of the summed variances of bandwidth and frame
      RMS, clipped into [0, 1]; 0.1 when spectral_bandwidth raises. The
      variances are non-negative, so only the upper clip can bind, and the
      value is 0 exactly when both variances are zero. */
  function CalculateLiveness(bandwidth: Outcome<Frames>, rms: Frames): (l: real)
    ensures 0.0 <= l <= 1.0
    ensures bandwidth.Raised? ==> l == 0.1
    ensures bandwidth.Ok? ==>
      var score := (Variance(bandwidth.value) + Variance(rms)) * 0.1;
      l == Min(score, 1.0) && (l == 0.0 <==> Variance(bandwidth.value) == 0.0 && Variance(rms) == 0.0)
  {
    match bandwidth
    case Ok(bw) =>
      VarianceNonNegative(bw);
      VarianceNonNegative(rms);
      Clip((Variance(bw) + Variance(rms)) * 0.1, 0.0, 1.0)
    case Raised => 0.1
  }

  // ---------------------------------------------------------------- speechiness

  /** np.mean(np.mean(np.abs(mfccs[1:5]), axis=0)): per frame the mean
      magnitude of coefficients 1 to 4, then the mean over frames. It
      averages magnitudes, so it is never negative. */
  function SpeechIndicator(mfcc: Mfcc): (s: real)
    ensures s >= 0.0
  {
    var n := |mfcc[0]|;
    assert |mfcc[1]| == n && |mfcc[2]| == n && |mfcc[3]| == n && |mfcc[4]| == n;
    var perFrame := seq(n, f requires 0 <= f < n =>
      (Abs(mfcc[1][f]) + Abs(mfcc[2][f]) + Abs(mfcc[3][f]) + Abs(mfcc[4][f])) / 4.0);
    MeanAtLeast(perFrame, 0.0);
    Mean(perFrame)
  }

  /** Speechiness is a tenth of the speech indicator, clipped into [0, 1];
      0.05 when mfcc or spectral_rolloff raises (the rolloff is computed and
      never used, but its exception still counts). */
  function CalculateSpeechiness(mfcc: Outcome<Mfcc>, rolloff: Outcome<Frames>): (s: real)
    ensures 0.0 <= s <= 1.0
    ensures mfcc.Raised? || rolloff.Raised? ==> s == 0.05
    ensures mfcc.Ok? && rolloff.Ok? ==> s == Min(SpeechIndicator(mfcc.value) * 0.1, 1.0)
  {
    match (mfcc, rolloff)
    case (Ok(m), Ok(_)) => Clip(SpeechIndicator(m) * 0.1, 0.0, 1.0)
    case _ => 0.05
  }
}
