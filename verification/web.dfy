/** The rules app_with_audio.py applies around the analyzer: the upload
    file-name check, the 15-element row handed to the scaler, the clamp on
    the predicted popularity, and the three handlers that use them. The
    scaler and the regression model are one opaque `predictor`. */
module WebApp {
  import opened Outcomes
  import opened Stats
  import opened Fields
  import opened AudioAnalyzer

  // ---------------------------------------------------------------- allowed_file

  const AllowedExtensions: set<string> := {"wav", "mp3", "flac", "m4a", "aac", "ogg"}

  /** str.lower on ASCII letters; every other character is left as it is. */
  function LowerChar(c: char): char
  {
    if 'A' <= c <= 'Z' then (c as int + 32) as char else c
  }

  function UpperChar(c: char): char
  {
    if 'a' <= c <= 'z' then (c as int - 32) as char else c
  }

  function Lower(s: string): (r: string)
    ensures |r| == |s|
    ensures forall i :: 0 <= i < |s| ==> r[i] == LowerChar(s[i])
  {
    seq(|s|, i requires 0 <= i < |s| => LowerChar(s[i]))
  }

  function Upper(s: string): (r: string)
    ensures |r| == |s|
    ensures forall i :: 0 <= i < |s| ==> r[i] == UpperChar(s[i])
  {
    seq(|s|, i requires 0 <= i < |s| => UpperChar(s[i]))
  }

  /** The position of the last '.', if there is one. */
  function LastDot(s: string): (k: Option<nat>)
    ensures k.None? <==> '.' !in s
    ensures k.Some? ==> k.value < |s| && s[k.value] == '.' && '.' !in s[k.value + 1..]
  {
    if |s| == 0 then None
    else if s[|s| - 1] == '.' then Some(|s| - 1)
    else
      var k := LastDot(s[..|s| - 1]);
      assert k.Some? ==> s[k.value + 1..] == s[..|s| - 1][k.value + 1..] + [s[|s| - 1]];
      k
  }

  /** filename.rsplit('.', 1)[1] for a name that has a dot. */
  function Extension(filename: string): string
    requires '.' in filename
  {
    filename[LastDot(filename).value + 1..]
  }

  /** `'.' in filename and filename.rsplit('.', 1)[1].lower() in ALLOWED_EXTENSIONS`. */
  function AllowedFile(filename: string): (ok: bool)
    ensures ok ==> '.' in filename && 3 <= |Extension(filename)| <= 4
  {
    '.' in filename && Lower(Extension(filename)) in AllowedExtensions
  }

  /** In stem '.' ext with no dot in ext, the last dot is the one before ext. */
  lemma {:induction false} SplitAtLastDot(stem: string, ext: string)
    requires '.' !in ext
    ensures LastDot(stem + "." + ext) == Some(|stem|)
  {
    var s := stem + "." + ext;
    if ext != [] {
      var ext' := ext[..|ext| - 1];
      assert s[..|s| - 1] == stem + "." + ext';
      assert s[|s| - 1] == ext[|ext| - 1];
      SplitAtLastDot(stem, ext');
    }
  }

  /** Only the final extension decides: a name stem '.' ext, with no dot
      in ext, is accepted exactly when ext lower-cased is an allowed
      extension, whatever the stem holds. With NoDotRejected this
      characterises AllowedFile on every name. */
  lemma FinalExtensionDecides(stem: string, ext: string)
    requires '.' !in ext
    ensures AllowedFile(stem + "." + ext) <==> Lower(ext) in AllowedExtensions
  {
    SplitAtLastDot(stem, ext);
    assert Extension(stem + "." + ext) == ext;
  }

  /** A name without a dot is rejected, and every name with one splits at
      its last dot. */
  lemma NoDotRejected(filename: string)
    ensures '.' !in filename ==> !AllowedFile(filename)
    ensures '.' in filename ==> exists stem, ext :: filename == stem + "." + ext && '.' !in ext
  {
    if '.' in filename {
      var k := LastDot(filename).value;
      assert filename == filename[..k] + "." + filename[k + 1..];
    }
  }

  lemma UpperKeepsDots(s: string)
    ensures '.' in Upper(s) <==> '.' in s
  {
    assert forall i :: 0 <= i < |s| ==> (Upper(s)[i] == '.' <==> s[i] == '.');
  }

  lemma UpperOfSplit(stem: string, ext: string)
    ensures Upper(stem + "." + ext) == Upper(stem) + "." + Upper(ext)
  {
  }

  lemma LowerOfUpper(s: string)
    ensures Lower(Upper(s)) == Lower(s)
  {
  }

  /** Matching ignores case: upper-casing a name never changes the verdict. */
  lemma AllowedFileIgnoresCase(filename: string)
    ensures AllowedFile(Upper(filename)) == AllowedFile(filename)
  {
    UpperKeepsDots(filename);
    if '.' in filename {
      var k := LastDot(filename).value;
      var stem, ext := filename[..k], filename[k + 1..];
      assert filename == stem + "." + ext;
      UpperOfSplit(stem, ext);
      UpperKeepsDots(ext);
      FinalExtensionDecides(stem, ext);
      FinalExtensionDecides(Upper(stem), Upper(ext));
      LowerOfUpper(ext);
    }
  }

  /** "song" has no dot and "song." has an empty extension: both rejected. */
  lemma MissingExtensionRejected()
    ensures !AllowedFile("song")
    ensures !AllowedFile("song.")
  {
    assert "song." == "song" + "." + "";
    FinalExtensionDecides("song", "");
  }

  /** "A.WAV" is accepted: the extension is lower-cased before the check. */
  lemma UpperCaseExtensionAccepted()
    ensures AllowedFile("A.WAV")
  {
    assert "A.WAV" == "A" + "." + "WAV";
    FinalExtensionDecides("A", "WAV");
    assert Lower("WAV") == "wav";
  }

  /** "a.txt.mp3" is accepted: only the final extension counts. */
  lemma FinalAudioExtensionAccepted()
    ensures AllowedFile("a.txt.mp3")
  {
    assert "a.txt.mp3" == "a.txt" + "." + "mp3";
    FinalExtensionDecides("a.txt", "mp3");
    assert Lower("mp3") == "mp3";
  }

  /** "a.wav.txt" is rejected: an audio extension before the last dot does
      not count. */
  lemma InnerAudioExtensionRejected()
    ensures !AllowedFile("a.wav.txt")
  {
    assert "a.wav.txt" == "a.wav" + "." + "txt";
    FinalExtensionDecides("a.wav", "txt");
    assert Lower("txt") == "txt";
    assert "txt"[0] == 't';
  }

  // ---------------------------------------------------------------- the scaler's row

  /** The column order the scaler and the model were trained on. */
  const FeatureOrder: seq<Field> := [
    Year, Danceability, Energy, Key, Loudness, Mode, Speechiness, Acousticness,
    Instrumentalness, Liveness, Valence, Tempo, DurationMin, TimeSignature, GenreEncoded
  ]

  /** features[k] for each k in turn; a missing key raises KeyError (None). */
  function Lookup(features: map<Field, Value>, keys: seq<Field>): (row: Option<seq<Value>>)
    ensures row.Some? <==> forall i :: 0 <= i < |keys| ==> keys[i] in features
    ensures row.Some? ==>
      |row.value| == |keys| && forall i :: 0 <= i < |keys| ==> row.value[i] == features[keys[i]]
  {
    if |keys| == 0 then Some([])
    else if keys[0] !in features then None
    else
      match Lookup(features, keys[1..])
      case None => None
      case Some(rest) => Some([features[keys[0]]] + rest)
  }

  /** The 15-element row of the three call sites (app_with_audio.py:63-70,
      106-113, 141-148), or None when a key is missing. */
  function FeatureArray(features: map<Field, Value>): (row: Option<seq<Value>>)
    ensures row.Some? <==> forall k :: k in FeatureOrder ==> k in features
    ensures row.Some? ==>
      |row.value| == 15 && forall i :: 0 <= i < 15 ==> row.value[i] == features[FeatureOrder[i]]
  {
    Lookup(features, FeatureOrder)
  }

  /** The row's columns, by the names the handlers look them up under. */
  lemma FeatureOrderNames()
    ensures seq(15, i requires 0 <= i < 15 => FeatureOrder[i].Name()) == [
      "year", "danceability", "energy", "key", "loudness", "mode", "speechiness",
      "acousticness", "instrumentalness", "liveness", "valence", "tempo",
      "duration_min", "time_signature", "genre_encoded"]
  {
  }

  /** The column each key occupies in the row; -1 for the keys it lacks. */
  function Column(k: Field): int
  {
    match k
    case Year => 0
    case Danceability => 1
    case Energy => 2
    case Key => 3
    case Loudness => 4
    case Mode => 5
    case Speechiness => 6
    case Acousticness => 7
    case Instrumentalness => 8
    case Liveness => 9
    case Valence => 10
    case Tempo => 11
    case DurationMin => 12
    case TimeSignature => 13
    case GenreEncoded => 14
    case Genre => -1
    case PredictedPopularity => -1
  }

  /** The row's columns are the thirteen descriptors plus year and
      genre_encoded, each exactly once. */
  lemma FeatureOrderCoversRecord()
    ensures |FeatureOrder| == 15
    ensures forall k :: k in FeatureOrder <==> k in DescriptorKeys || k == Year || k == GenreEncoded
    ensures forall i, j :: 0 <= i < j < 15 ==> FeatureOrder[i] != FeatureOrder[j]
  {
    assert forall i :: 0 <= i < 15 ==> Column(FeatureOrder[i]) == i;
    forall k: Field ensures k in FeatureOrder <==> k in DescriptorKeys || k == Year || k == GenreEncoded {
      if Column(k) >= 0 {
        assert FeatureOrder[Column(k)] == k;
      }
      match k
      case Genre =>
      case PredictedPopularity =>
      case _ =>
    }
  }

  // ---------------------------------------------------------------- the clamp

  /** max(0, min(100, prediction)). */
  function ClampPopularity(prediction: real): (p: real)
    ensures 0.0 <= p <= 100.0
    ensures 0.0 <= prediction <= 100.0 ==> p == prediction
    ensures prediction <= 0.0 ==> p == 0.0
    ensures prediction >= 100.0 ==> p == 100.0
  {
    Max(0.0, Min(100.0, prediction))
  }

  // ---------------------------------------------------------------- the handlers

  datatype Body =
    | Prediction(popularity: real)
    | Features(fields: map<Field, Value>)
    | Error(message: Option<string>)  // None: the text of a caught exception

  datatype Response = Response(body: Body, status: int)

  const DefaultYear := 2023
  const InvalidTypeMessage := "Invalid file type. Supported: WAV, MP3, FLAC, M4A, AAC, OGG"

  /** The defaults a handler adds to an analysis before predicting. */
  function WithDefaults(features: map<Field, Value>, genre: string, genreEncoded: int): (f: map<Field, Value>)
    ensures f.Keys == features.Keys + {Year, Genre, GenreEncoded}
    ensures f[Year] == IntVal(2023) && f[Genre] == StrVal(genre) && f[GenreEncoded] == IntVal(genreEncoded)
    ensures forall k :: k in features && k !in {Year, Genre, GenreEncoded} ==> f[k] == features[k]
  {
    features[Year := IntVal(DefaultYear)][Genre := StrVal(genre)][GenreEncoded := IntVal(genreEncoded)]
  }

  /** An analysis record with its defaults always yields a complete row. */
  lemma DefaultsCompleteRow(features: map<Field, Value>, genre: string, genreEncoded: int)
    requires features.Keys == DescriptorKeys
    ensures FeatureArray(WithDefaults(features, genre, genreEncoded)).Some?
  {
    FeatureOrderCoversRecord();
  }

  /** What a 200 body of either analysis handler holds: the analysis
      keys, year 2023, the handler's genre and genre_encoded, and a
      popularity in [0, 100]; every analysis value is carried over. */
  lemma AnnotatedRecord(features: map<Field, Value>, genre: string, genreEncoded: int, prediction: real)
    ensures var a := WithDefaults(features, genre, genreEncoded)[PredictedPopularity := RealVal(ClampPopularity(prediction))];
      && a.Keys == features.Keys + {Year, Genre, GenreEncoded, PredictedPopularity}
      && a[Year] == IntVal(2023) && a[Genre] == StrVal(genre) && a[GenreEncoded] == IntVal(genreEncoded)
      && a[PredictedPopularity].RealVal? && 0.0 <= a[PredictedPopularity].r <= 100.0
      && (forall k :: k in features && k !in {Year, Genre, GenreEncoded, PredictedPopularity} ==> a[k] == features[k])
  {
  }

  /** Lines 101-117 and 136-152: add year, genre and genre_encoded, predict
      from the row, and store the clamped prediction. Raised when the row
      misses a key or the scaler or the model raises. */
  method Annotate(features: map<Field, Value>, genre: string, genreEncoded: int,
                  predictor: seq<Value> -> Outcome<real>)
    returns (annotated: Outcome<map<Field, Value>>)
    ensures var f := WithDefaults(features, genre, genreEncoded);
      annotated.Ok? <==> FeatureArray(f).Some? && predictor(FeatureArray(f).value).Ok?
    ensures var f := WithDefaults(features, genre, genreEncoded);
      annotated.Ok? ==>
        annotated.value == f[PredictedPopularity := RealVal(ClampPopularity(predictor(FeatureArray(f).value).value))]
  {
    var f := features;
    f := f[Year := IntVal(DefaultYear)];
    f := f[Genre := StrVal(genre)];
    f := f[GenreEncoded := IntVal(genreEncoded)];
    var row := FeatureArray(f);
    if row.None? {
      return Raised;  // KeyError
    }
    var prediction := predictor(row.value);
    if prediction.Raised? {
      return Raised;
    }
    f := f[PredictedPopularity := RealVal(ClampPopularity(prediction.value))];
    return Ok(f);
  }

  /** POST /api/predict: the request's own fields, in the scaler's order. */
  method Predict(request: map<Field, Value>, predictor: seq<Value> -> Outcome<real>)
    returns (response: Response)
    ensures response.status == 200 <==>
      FeatureArray(request).Some? && predictor(FeatureArray(request).value).Ok?
    ensures response.status == 200 ==>
      response.body == Prediction(ClampPopularity(predictor(FeatureArray(request).value).value))
    ensures response.status != 200 ==> response == Response(Error(None), 400)
  {
    var row := FeatureArray(request);
    if row.None? {
      return Response(Error(None), 400);  // KeyError
    }
    var prediction := predictor(row.value);
    if prediction.Raised? {
      return Response(Error(None), 400);
    }
    return Response(Prediction(ClampPopularity(prediction.value)), 200);
  }

  /** POST /api/analyze_audio. `upload` is the uploaded file's name (None
      when the request has no audio_file part) and `analysis` what the
      analyzer made of the saved file; an empty dictionary is falsy and
      counts as a failed analysis. */
  method AnalyzeAudio(upload: Option<string>, analysis: Option<map<Field, Value>>,
                      predictor: seq<Value> -> Outcome<real>)
    returns (response: Response)
    ensures upload.None? ==> response == Response(Error(Some("No audio file provided")), 400)
    ensures upload == Some("") ==> response == Response(Error(Some("No file selected")), 400)
    ensures upload.Some? && upload.value != "" && !AllowedFile(upload.value) ==>
      response == Response(Error(Some(InvalidTypeMessage)), 400)
    ensures upload.Some? && AllowedFile(upload.value) && (analysis.None? || analysis.value == map[]) ==>
      response == Response(Error(Some("Failed to analyze audio file")), 500)
    ensures response.status == 200 ==>
      upload.Some? && AllowedFile(upload.value) && analysis.Some? && analysis.value != map[]
    ensures upload.Some? && AllowedFile(upload.value) && analysis.Some? && analysis.value != map[] ==>
      var f := WithDefaults(analysis.value, "pop", 0);
      var row := FeatureArray(f);
      if row.Some? && predictor(row.value).Ok? then
        response == Response(Features(f[PredictedPopularity := RealVal(ClampPopularity(predictor(row.value).value))]), 200)
      else
        response == Response(Error(None), 500)
    ensures (upload.Some? && AllowedFile(upload.value) && analysis.Some? &&
             analysis.value.Keys == DescriptorKeys) ==>
        (response.status == 200 <==>
          predictor(FeatureArray(WithDefaults(analysis.value, "pop", 0)).value).Ok?)
  {
    if upload.None? {
      return Response(Error(Some("No audio file provided")), 400);
    }
    var filename := upload.value;
    if filename == "" {
      return Response(Error(Some("No file selected")), 400);
    }
    if !AllowedFile(filename) {
      return Response(Error(Some(InvalidTypeMessage)), 400);
    }
    if analysis.None? || analysis.value == map[] {
      return Response(Error(Some("Failed to analyze audio file")), 500);
    }
    if analysis.value.Keys == DescriptorKeys {
      DefaultsCompleteRow(analysis.value, "pop", 0);
    }
    var annotated := Annotate(analysis.value, "pop", 0, predictor);
    if annotated.Raised? {
      return Response(Error(None), 500);
    }
    return Response(Features(annotated.value), 200);
  }

  /** GET /api/analyze_default: the bundled sample, labelled electronic (3).
      A missing sample, or a failed analysis of it, is a 404. */
  method AnalyzeDefault(sampleExists: bool, analysis: Option<map<Field, Value>>,
                        predictor: seq<Value> -> Outcome<real>)
    returns (response: Response)
    ensures !sampleExists || analysis.None? || analysis.value == map[] ==>
      response == Response(Error(Some("Default sample file not found")), 404)
    ensures sampleExists && analysis.Some? && analysis.value != map[] ==>
      var f := WithDefaults(analysis.value, "electronic", 3);
      var row := FeatureArray(f);
      if row.Some? && predictor(row.value).Ok? then
        response == Response(Features(f[PredictedPopularity := RealVal(ClampPopularity(predictor(row.value).value))]), 200)
      else
        response == Response(Error(None), 500)
    ensures sampleExists && analysis.Some? && analysis.value.Keys == DescriptorKeys ==>
      (response.status == 200 <==>
        predictor(FeatureArray(WithDefaults(analysis.value, "electronic", 3)).value).Ok?)
  {
    if sampleExists && analysis.Some? && analysis.value != map[] {
      if analysis.value.Keys == DescriptorKeys {
        DefaultsCompleteRow(analysis.value, "electronic", 3);
      }
      var annotated := Annotate(analysis.value, "electronic", 3, predictor);
      if annotated.Raised? {
        return Response(Error(None), 500);
      }
      return Response(Features(annotated.value), 200);
    }
    return Response(Error(Some("Default sample file not found")), 404);
  }
}
