/** What the analyzer receives from librosa and numpy, taken as given.
    Each librosa feature call on the decoded buffer is deterministic, so
    one value per feature stands for every call the analyzer makes; a call
    that raises is `Raised`. The shapes below are what librosa guarantees
    of a successful call. */
module Signals {
  import opened Outcomes

  /** A frame-wise series. librosa pads the signal and frames it centred,
      so a series always has at least one frame. */
  type Frames = s: seq<real> | |s| > 0 witness [0.0]

  const SilentFrame: Frames := [0.0]

  /** Beat positions from beat_track: frame indices, strictly increasing. */
  type Beats = b: seq<int> | forall i, j :: 0 <= i < j < |b| ==> b[i] < b[j] witness []

  /** chroma_stft: one row of frames per pitch class, 12 rows. */
  type Chroma = m: seq<Frames> | |m| == 12 witness seq(12, _ => SilentFrame)

  ghost predicate Rectangular(m: seq<Frames>)
  {
    forall i :: 0 <= i < |m| ==> |m[i]| == |m[0]|
  }

  /** mfcc with n_mfcc = 13: 13 coefficient rows over the same frames. */
  type Mfcc = m: seq<Frames> | |m| == 13 && Rectangular(m) witness seq(13, _ => SilentFrame)

  /** beat_track's result: the tempo estimate (BPM) and the beat frames. */
  datatype BeatTrack = BeatTrack(tempo: real, beats: Beats)

  /** The librosa results for one decoded buffer. */
  datatype Spectra = Spectra(
    beatTrack: Outcome<BeatTrack>,
    chroma: Outcome<Chroma>,
    rms: Outcome<Frames>,
    onset: Outcome<Frames>,
    centroid: Outcome<Frames>,
    rolloff: Outcome<Frames>,
    bandwidth: Outcome<Frames>,
    mfcc: Outcome<Mfcc>)

  /** np.sqrt and np.log10, whose numerics are not modelled. */
  datatype Numerics = Numerics(sqrt: real -> real, log10: real -> real)
}
