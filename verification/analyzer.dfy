/** SpotifyAudioAnalyzer.analyze_audio_file (audio_analyzer.py:17-64): the
    features dictionary filled key by key from the descriptor rules, or
    no dictionary at all when an exception escapes the per-descriptor
    fallbacks. */
module AudioAnalyzer {
  import opened Outcomes
  import opened Stats
  import opened Signals
  import opened Descriptors
  import opened Fields

  /** The thirteen keys of a successful analysis. */
  const DescriptorKeys: set<Field> := {
    DurationMin, Tempo, TimeSignature, Key, Mode, Energy, Loudness,
    Danceability, Valence, Acousticness, Instrumentalness, Liveness, Speechiness
  }

  ghost predicate RealWithin(f: map<Field, Value>, name: Field, lo: real, hi: real)
  {
    name in f && f[name].RealVal? && lo <= f[name].r <= hi
  }

  /** What every successful analysis promises its caller: exactly the
      thirteen keys, 4/4 time, a key in 0..11, a mode in {0, 1}, loudness in
      [-30, 5] dB and every other heuristic descriptor in [0, 1]. */
  ghost predicate WellFormedRecord(f: map<Field, Value>)
  {
    && f.Keys == DescriptorKeys
    && f[TimeSignature] == IntVal(4)
    && f[Key].IntVal? && 0 <= f[Key].i <= 11
    && (f[Mode] == IntVal(0) || f[Mode] == IntVal(1))
    && f[DurationMin].RealVal? && f[Tempo].RealVal?
    && RealWithin(f, Energy, 0.0, 1.0)
    && RealWithin(f, Loudness, -30.0, 5.0)
    && RealWithin(f, Danceability, 0.0, 1.0)
    && RealWithin(f, Valence, 0.0, 1.0)
    && RealWithin(f, Acousticness, 0.0, 1.0)
    && RealWithin(f, Instrumentalness, 0.0, 1.0)
    && RealWithin(f, Liveness, 0.0, 1.0)
    && RealWithin(f, Speechiness, 0.0, 1.0)
  }

  /** The thirteen values analyze_audio_file computes, before they are
      stored under their keys. */
  datatype Analysis = Analysis(
    durationMin: real, tempo: real, timeSignature: int, key: int, mode: int,
    energy: real, loudness: real, danceability: real, valence: real,
    acousticness: real, instrumentalness: real, liveness: real, speechiness: real)
  {
    /** The documented ranges of the heuristic descriptors. */
    predicate InRange()
    {
      && timeSignature == 4 && 0 <= key <= 11 && (mode == 0 || mode == 1)
      && 0.0 <= energy <= 1.0 && -30.0 <= loudness <= 5.0 && 0.0 <= danceability <= 1.0
      && 0.0 <= valence <= 1.0 && 0.0 <= acousticness <= 1.0 && 0.0 <= instrumentalness <= 1.0
      && 0.0 <= liveness <= 1.0 && 0.0 <= speechiness <= 1.0
    }

    /** The features dictionary: each value under its key. */
    function ToRecord(): (f: map<Field, Value>)
      ensures f.Keys == DescriptorKeys
      ensures InRange() ==> WellFormedRecord(f)
    {
      map[
        DurationMin := RealVal(durationMin),
        Tempo := RealVal(tempo),
        TimeSignature := IntVal(timeSignature),
        Key := IntVal(key),
        Mode := IntVal(mode),
        Energy := RealVal(energy),
        Loudness := RealVal(loudness),
        Danceability := RealVal(danceability),
        Valence := RealVal(valence),
        Acousticness := RealVal(acousticness),
        Instrumentalness := RealVal(instrumentalness),
        Liveness := RealVal(liveness),
        Speechiness := RealVal(speechiness)
      ]
    }
  }

  /** The descriptor values of one analysis (audio_analyzer.py:35-58), once
      decoding, beat_track and rms have succeeded and the rate is non-zero.
      Whatever the librosa results and whichever fallbacks fired, every
      value lies in its documented range. */
  function Describe(y: seq<real>, sampleRate: int, track: BeatTrack, spectra: Spectra, num: Numerics): (d: Analysis)
    requires RootLike(num.sqrt) && sampleRate != 0 && spectra.rms.Ok?
    ensures d.InRange()
    ensures d.durationMin == |y| as real / sampleRate as real / 60.0 && d.tempo == track.tempo
  {
    Analysis(
      |y| as real / sampleRate as real / 60.0,
      track.tempo,
      EstimateTimeSignature(track.beats, sampleRate),
      EstimateKey(spectra.chroma),
      EstimateMode(spectra.chroma, num.sqrt),
      CalculateEnergy(spectra.rms.value),
      CalculateLoudness(y, num),
      CalculateDanceability(spectra.onset, track, num.sqrt),
      CalculateValence(spectra.centroid, spectra.chroma, sampleRate),
      CalculateAcousticness(spectra.rolloff, spectra.centroid, sampleRate),
      CalculateInstrumentalness(spectra.centroid, spectra.mfcc),
      CalculateLiveness(spectra.bandwidth, spectra.rms.value),
      CalculateSpeechiness(spectra.mfcc, spectra.rolloff))
  }

  /** The dictionary analyze_audio_file fills key by key
      (audio_analyzer.py:32-58). */
  function Record(y: seq<real>, sampleRate: int, track: BeatTrack, spectra: Spectra, num: Numerics): (f: map<Field, Value>)
    requires RootLike(num.sqrt) && sampleRate != 0 && spectra.rms.Ok?
    ensures f.Keys == DescriptorKeys
    ensures WellFormedRecord(f)
  {
    Describe(y, sampleRate, track, spectra, num).ToRecord()
  }

  class SpotifyAudioAnalyzer {
    /** The rate librosa.load resamples to; set once, never changed. */
    const sampleRate: int

    constructor(sampleRate: int := 22050)
      ensures this.sampleRate == sampleRate
    {
      this.sampleRate := sampleRate;
    }

    /** `load` is librosa.load's outcome (the decoded samples, at
        `sampleRate`), `spectra` the librosa results for those samples and
        `num` np.sqrt and np.log10. The analysis yields no record when
        decoding raises, when the duration divides by a zero rate, or when
        beat_track or rms raises (those calls sit outside any per-descriptor
        try); otherwise it yields the full record, in which each rule's
        fallback stands in for that rule's own failures. */
    method AnalyzeAudioFile(load: Outcome<seq<real>>, spectra: Spectra, num: Numerics)
      returns (features: Option<map<Field, Value>>)
      requires RootLike(num.sqrt)
      ensures features.None? <==>
        load.Raised? || sampleRate == 0 || spectra.beatTrack.Raised? || spectra.rms.Raised?
      ensures features.Some? ==>
        && features.value == Record(load.value, sampleRate, spectra.beatTrack.value, spectra, num)
        && WellFormedRecord(features.value)
    {
      if load.Raised? {
        return None;  // librosa.load raised
      }
      var y := load.value;
      if sampleRate == 0 {
        return None;  // ZeroDivisionError in len(y) / sr
      }
      if spectra.beatTrack.Raised? {
        return None;  // beat_track raised before any descriptor rule ran
      }
      var track := spectra.beatTrack.value;
      if spectra.rms.Raised? {
        return None;  // rms raised in _calculate_energy, which has no try
      }
      var f := Record(y, sampleRate, track, spectra, num);
      return Some(f);
    }
  }
}
