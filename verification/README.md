# Spotify-like audio descriptors and the prediction service around them

This project models the deterministic part of SpotifyPopularityModel's
audio pipeline in Dafny and proves properties of it.

`SpotifyAudioAnalyzer` takes the results of librosa's signal processing
and turns them into a record of thirteen song descriptors:

- `duration_min`, `tempo` and `time_signature`;
- `key` and `mode`;
- `energy` and `loudness`;
- `danceability`, `valence`, `acousticness`, `instrumentalness`,
  `liveness` and `speechiness`.

Every rule is a short arithmetic expression followed by a clip or by its
own fallback constant. The Flask service in `app_with_audio.py` checks an
upload's file name, adds `year`, `genre` and `genre_encoded` to the record,
lays the record out as the 15-column row the scaler expects, and clamps
the model's prediction into [0, 100].

Modules:

- `Outcomes`: `Option`, and `Outcome`, the result of a library call that
  may raise (`Raised`).
- `Stats`: the numpy reductions over exact reals: sum, mean, population
  variance, covariance, the Pearson coefficient of `np.corrcoef`
  (undefined, i.e. NaN, when a variance is zero), first-maximum `argmax`,
  `diff` and `clip`.
- `Signals`: what librosa hands over, with the shape guarantees librosa
  gives:
  - frame series are non-empty;
  - beat positions are strictly increasing frame indices;
  - chroma has 12 rows;
  - MFCCs have 13 rows of equal length.

  `np.sqrt` and `np.log10` are function parameters. Proofs that need it
  assume only that the root is non-negative and is zero exactly at zero
  (`RootLike`).
- `Descriptors`: one function per `_estimate_*` and `_calculate_*` rule.
  Each takes the outcomes of the librosa calls it makes and returns the
  rule's fallback when one of them raised.
- `Fields`: the dictionary's keys, as an enumeration whose `Name` is the
  JSON spelling, and its values.
- `AudioAnalyzer`:
  - `Describe`, the thirteen values a successful analysis computes;
  - `Record`, the dictionary that stores them under their keys;
  - `WellFormedRecord`, what every such record satisfies;
  - the class `SpotifyAudioAnalyzer`, whose method returns `None` at
    exactly the points where an exception escapes `analyze_audio_file`.
- `WebApp`:
  - `allowed_file`;
  - the 15-column row and the clamp;
  - the three handlers `predict`, `analyze_audio` and `analyze_default`.

  The handlers are methods that extend the dictionary. The scaler and
  the regression model together are one opaque `predictor` that may
  raise.

### Fallbacks and aborts

- **Degenerate chroma.** The key and mode fallbacks, F (5) and major
  (1) at audio_analyzer.py:80 and :97, fire only when an exception
  escapes the rule. A degenerate chroma raises nothing:
  - an all-zero chroma has twelve equal means, and `np.argmax` returns
    the first of them, so the key is 0;
  - a flat profile makes both correlations NaN (the warning is silenced
    at audio_analyzer.py:11), and the strict `>` at audio_analyzer.py:95
    is then false, so the mode is 0.

  `SilentChromaKey` and `FlatChromaMode` state these outcomes.
- **Failures that abort the analysis.** Only the rules wrapped in their
  own `try` have a fallback. Some steps sit outside any per-descriptor
  `try`, and an exception from one of them ends the whole analysis with
  `None`:
  - decoding with `librosa.load` (audio_analyzer.py:29);
  - the division by the sample rate (audio_analyzer.py:35);
  - `beat_track` (audio_analyzer.py:38);
  - the frame RMS in `_calculate_energy` (audio_analyzer.py:101).

  `AnalyzeAudioFile` states exactly these abort conditions.

## Model

| member | source | states |
|---|---|---|
| Stats.CorrCoef | audio_analyzer.py:92-93 | the correlation is undefined (NaN) exactly when either series has zero variance; otherwise it lies in [-1, 1] |
| Stats.ArgMax | audio_analyzer.py:77 | the index is in range, holds a maximum, and every earlier entry is strictly smaller (the first maximum) |
| Stats.VarianceNonNegative | audio_analyzer.py:149 | a population variance is never negative |
| Stats.VarianceOfConstant | audio_analyzer.py:92-93 | a constant series has variance zero, which is what makes a flat chroma profile's correlations undefined |
| Stats.Diff | audio_analyzer.py:127 | np.diff has one entry fewer than a non-empty input, and entry i is b[i+1] - b[i] |
| Stats.Clip | audio_analyzer.py:103 | np.clip(x, lo, hi) lies in [lo, hi], equals x inside it, and is lo at or below it and hi at or above it |
| Descriptors.EstimateTimeSignature | audio_analyzer.py:66-70 | the time signature is 4 whatever the beats and the sample rate |
| Descriptors.ChromaMean | audio_analyzer.py:76 | the profile has 12 entries, entry i being the mean of chroma row i |
| Descriptors.EstimateKey | audio_analyzer.py:72-80 | the key lies in 0..11; it is the first pitch class of largest mean chroma when chroma_stft succeeds, and 5 when chroma_stft raises |
| Descriptors.EstimateMode | audio_analyzer.py:82-97 | the mode is 0 or 1; when chroma_stft succeeds it is 1 if and only if both correlations against the fixed, unrotated templates are defined and the major one is strictly larger; when chroma_stft raises it is 1 |
| Descriptors.SilentChromaKey | audio_analyzer.py:72-80 | an all-zero chroma gives key 0, not the fallback 5 |
| Descriptors.FlatChromaMode | audio_analyzer.py:82-97 | a chroma whose twelve row means are equal gives mode 0, not the fallback 1 |
| Descriptors.CalculateEnergy | audio_analyzer.py:99-103 | energy lies in [0, 1]: 10 times the mean frame RMS inside the clip range, 0 at or below it and 1 at or above it |
| Descriptors.SilentEnergy | audio_analyzer.py:99-103 | an all-zero RMS series has energy 0 |
| Descriptors.GlobalRms | audio_analyzer.py:107 | the global RMS is undefined (NaN) exactly for an empty buffer, and otherwise non-negative |
| Descriptors.CalculateLoudness | audio_analyzer.py:105-111 | loudness lies in [-30, 5]; it is exactly -30 unless the global RMS is defined and positive, and then it is 20 log10(rms) clipped into [-30, 5] |
| Descriptors.SilentLoudness | audio_analyzer.py:105-111 | an all-zero buffer of any length, the empty one included, has loudness -30 |
| Descriptors.TempoFactor | audio_analyzer.py:120-122 | the tempo factor lies in [0, 1]; it is 1 exactly at 120 BPM and 0 exactly at or below 0 BPM or at or above 240 BPM |
| Descriptors.TempoFactorPrefersCloser | audio_analyzer.py:120-122 | a tempo at least as close to 120 BPM never gets a smaller tempo factor |
| Descriptors.IntervalsAtLeastOne | audio_analyzer.py:125-128 | with two or more strictly increasing beats, every interval, and so their mean, is at least one frame; the division at line 128 never divides by zero |
| Descriptors.RhythmRegularity | audio_analyzer.py:124-131 | regularity is never negative and is at most 1; it is 0.5 with fewer than two beats |
| Descriptors.EvenBeatsAreRegular | audio_analyzer.py:124-131 | evenly spaced beats have regularity exactly 1 |
| Descriptors.CalculateDanceability | audio_analyzer.py:113-136 | danceability lies in [0, 1]; it is the 0.4/0.3/0.3 fusion of mean onset strength, tempo factor and regularity, clipped into [0, 1], and 0.5 when onset_strength raises |
| Descriptors.DanceabilityScoreNonNegative | audio_analyzer.py:117-133 | with a non-negative onset envelope the unclipped score is non-negative, so only the upper clip can bind |
| Descriptors.HarmonyComplexity | audio_analyzer.py:149-150 | the mean per-pitch-class chroma variance is non-negative |
| Descriptors.NyquistFraction | audio_analyzer.py:146 | the mean divided by sr / 2: multiplied back by sr / 2 it gives the mean, and it is non-negative for a positive rate and a non-negative mean |
| Descriptors.CalculateValence | audio_analyzer.py:138-155 | valence lies in [0, 1]; it is 0.6 times the centroid over Nyquist plus 0.4 times (1 - harmony complexity), clipped into [0, 1], and 0.5 when spectral_centroid or chroma_stft raises |
| Descriptors.CalculateAcousticness | audio_analyzer.py:157-172 | acousticness lies in [0, 1]; it is 1 minus the mean of the Nyquist-normalised rolloff and centroid, clipped into [0, 1], and 0.5 when either call raises |
| Descriptors.VocalRangeEnergy | audio_analyzer.py:183 | the mean over MFCC rows 1-3 is the mean of the three row means, as the rows have equal length |
| Descriptors.CalculateInstrumentalness | audio_analyzer.py:174-190 | instrumentalness lies in [0, 1]; it is 1 - 0.1 times the absolute mean of MFCC rows 1-3, clipped, and so exactly 1 if and only if that mean is 0; it is 0.5 when spectral_centroid or mfcc raises |
| Descriptors.CalculateLiveness | audio_analyzer.py:192-207 | liveness lies in [0, 1]; it is min(0.1 times the sum of the bandwidth and RMS variances, 1), it is 0 exactly when both variances are zero, and it is 0.1 when spectral_bandwidth raises |
| Descriptors.SpeechIndicator | audio_analyzer.py:217-218 | the speech indicator averages magnitudes, so it is never negative |
| Descriptors.CalculateSpeechiness | audio_analyzer.py:209-223 | speechiness lies in [0, 1]; it is min(0.1 times the speech indicator, 1), and 0.05 when mfcc or spectral_rolloff raises |
| AudioAnalyzer.Describe | audio_analyzer.py:35-58 | the duration is len(y)/sr/60 and the tempo is beat_track's; the time signature is 4, the key is in 0..11, the mode is 0 or 1, loudness is in [-30, 5] and every other heuristic descriptor is in [0, 1], whichever fallbacks fired |
| AudioAnalyzer.Analysis.ToRecord | audio_analyzer.py:32-58 | the dictionary has exactly the thirteen descriptor keys, and it is well formed whenever the values lie in their ranges |
| AudioAnalyzer.Record | audio_analyzer.py:32-58 | every record of a successful analysis has exactly the thirteen descriptor keys, time signature 4, a key in 0..11, a mode in {0, 1}, loudness in [-30, 5] and the other heuristic descriptors in [0, 1] |
| AudioAnalyzer.SpotifyAudioAnalyzer.constructor | audio_analyzer.py:14-15 | the analyzer keeps the sample rate it is given, 22050 by default |
| AudioAnalyzer.SpotifyAudioAnalyzer.AnalyzeAudioFile | audio_analyzer.py:17-64 | the result is None exactly when loading raises, the rate is 0, beat_track raises or rms raises; otherwise it is the full record, with duration len(y)/sr/60, the tempo from beat_track and each descriptor from its rule, and that record is well formed |
| WebApp.AllowedFile | app_with_audio.py:19-20 | an accepted name holds a '.' and its final extension has 3 or 4 characters; FinalExtensionDecides and NoDotRejected characterise the function on every name |
| WebApp.LastDot | app_with_audio.py:20 | the position found holds a '.', no '.' follows it, and there is none exactly when the name has no '.' |
| WebApp.SplitAtLastDot | app_with_audio.py:20 | in stem + "." + ext with no '.' in ext, rsplit('.', 1) splits just before ext |
| WebApp.FinalExtensionDecides | app_with_audio.py:17-20 | a name stem + "." + ext, with no '.' in ext, is accepted if and only if ext lower-cased is wav, mp3, flac, m4a, aac or ogg, whatever the stem holds |
| WebApp.NoDotRejected | app_with_audio.py:19-20 | a name without '.' is rejected, and every name with one has the form stem + "." + ext, so with FinalExtensionDecides this decides every name |
| WebApp.AllowedFileIgnoresCase | app_with_audio.py:20 | upper-casing the ASCII letters of a name never changes whether it is accepted |
| WebApp.MissingExtensionRejected | app_with_audio.py:20 | "song" (no dot) and "song." (empty extension) are rejected |
| WebApp.UpperCaseExtensionAccepted | app_with_audio.py:20 | "A.WAV" is accepted |
| WebApp.FinalAudioExtensionAccepted | app_with_audio.py:20 | "a.txt.mp3" is accepted: only the final extension counts |
| WebApp.InnerAudioExtensionRejected | app_with_audio.py:20 | "a.wav.txt" is rejected: an audio extension before the last dot does not count |
| WebApp.Lookup | app_with_audio.py:63-70 | reading keys in order succeeds exactly when every key is present, and then entry i is the value of key i |
| WebApp.FeatureArray | app_with_audio.py:63-70 | the row exists exactly when all fifteen keys are present, and then has 15 entries, entry i being the value of the i-th key in the scaler's order |
| WebApp.FeatureOrderNames | app_with_audio.py:63-70 | the fifteen columns, by their JSON names, are year, danceability, energy, key, loudness, mode, speechiness, acousticness, instrumentalness, liveness, valence, tempo, duration_min, time_signature and genre_encoded |
| WebApp.FeatureOrderCoversRecord | app_with_audio.py:63-70 | the fifteen columns are the thirteen descriptors plus year and genre_encoded, each exactly once |
| WebApp.ClampPopularity | app_with_audio.py:74 | the returned popularity lies in [0, 100]; it equals the prediction inside that range, 0 below it and 100 above it |
| WebApp.WithDefaults | app_with_audio.py:101-103 | the handler's dictionary gains year 2023, the given genre and genre_encoded, and every other key keeps its value |
| WebApp.DefaultsCompleteRow | app_with_audio.py:101-113 | an analysis record with the defaults added always yields a complete 15-column row |
| WebApp.AnnotatedRecord | app_with_audio.py:101-117 | the annotated record has the analysis keys plus year, genre, genre_encoded and predicted_popularity; year is 2023, the genre and code are the handler's, the popularity lies in [0, 100], and every analysis value is kept |
| WebApp.Annotate | app_with_audio.py:101-117 | annotation succeeds exactly when the row is complete and the predictor does not raise; the result is the record with the defaults and the clamped prediction |
| WebApp.Predict | app_with_audio.py:59-76 | status 200 with the clamped prediction exactly when the request holds every column and the predictor does not raise; otherwise 400 with the exception's text |
| WebApp.AnalyzeAudio | app_with_audio.py:78-126 | a missing part, an empty name, a rejected name and a failed or empty analysis each get their own message and status (400, 400, 400, 500); for an accepted name and a non-empty analysis, the response is 200 with exactly the analysis plus year 2023, genre pop, genre_encoded 0 and the clamped prediction when the row is complete and the predictor does not raise, and 500 otherwise; for a full analysis record the row is always complete |
| WebApp.AnalyzeDefault | app_with_audio.py:128-158 | a missing sample or a failed or empty analysis gives 404; otherwise the response is 200 with exactly the analysis plus year 2023, genre electronic, genre_encoded 3 and the clamped prediction when the row is complete and the predictor does not raise, and 500 otherwise; for a full analysis record the row is always complete |

## Left out

- librosa's signal processing (load, beat_track, chroma_stft, mfcc, rms,
  the spectral features, onset_strength) is foreign floating-point DSP.
  Its results are inputs, together with the shape guarantees listed
  above. Every librosa call is deterministic on the decoded buffer, so
  each call a rule repeats gives the value the first call gave; this
  covers beat_track, chroma_stft, rms, mfcc, spectral_centroid and
  spectral_rolloff.
- np.sqrt and np.log10 are uninterpreted parameters. Only what the proofs
  need is assumed of the root.
- Floats are exact reals:
  - IEEE rounding, infinities and NaN propagation are not modelled, so the
    [0, 1] bounds hold for finite inputs, while `np.clip` of NaN stays NaN;
  - the NaN outcomes that decide a branch are modelled as `None`. These
    are the undefined correlation in `_estimate_mode` and the mean of an
    empty buffer in `_calculate_loudness`.
- Descriptors.EstimateTimeSignature: the beats and the rate are
  parameters that the rule ignores, as the source does.
- Descriptors.CalculateInstrumentalness: the `spectral_stability` value
  computed at audio_analyzer.py:184 is never used. A zero mean centroid
  there yields a NaN with a warning, not an exception, so it cannot change
  the result.
- AudioAnalyzer.SpotifyAudioAnalyzer.AnalyzeAudioFile computes the
  thirteen values first and then stores them, instead of filling the
  dictionary key by key. The early returns stand at
  the same points as the exceptions in the source. The printed error
  message is left out.
- WebApp.ClampPopularity does not model Python's `max`/`min` returning
  the int constant 0 or 100 rather than a float. It also leaves out the
  NaN prediction, which Python's `min(100, nan)` turns into 100.
- WebApp.LowerChar and WebApp.UpperChar lower-case and upper-case ASCII
  letters only; Unicode case mapping is not modelled.
- WebApp.Predict takes the request JSON as a map from the known keys to
  values. A body that is not a JSON object, unknown keys and values the
  scaler rejects all fold into the predictor raising or a key missing,
  and the exception's text is `Error(None)`.
- WebApp.AnalyzeAudio takes the upload's name and the analyzer's result
  as inputs. `secure_filename`, `file.save`, `os.remove`, the upload folder
  and the 16 MB size limit are Flask and filesystem plumbing and are not
  modelled, and neither are their failures (a 500 carrying the
  exception's text).
- WebApp.AnalyzeDefault takes the existence of `skeletononthebeat.wav` as
  a boolean input.
- Loading the model, scaler and encoder with joblib, `scaler.transform`
  and `model.predict` are trained artifacts, so they are one opaque
  predictor. The CSV loading and genre filtering at app_with_audio.py:23-43
  and the routes `/`, `/api/songs` and `/api/song/<artist>/<track>` serve
  the dataset, not the analysis.
- `analyze_default_sample` (audio_analyzer.py:225-244) is a script that
  prints. setup_github_pages.py is deployment scripting. export_model_data.py
  is pickle, CSV and JSON I/O. None of these is part of this model.
