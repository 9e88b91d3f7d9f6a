/** The keys and values of the features dictionary that the analyzer
    returns and the request handlers extend. A key is one of the names the
    program uses; `Name` gives its spelling in the JSON. */
module Fields {

  datatype Field =
    | DurationMin | Tempo | TimeSignature | Key | Mode | Energy | Loudness
    | Danceability | Valence | Acousticness | Instrumentalness | Liveness | Speechiness
    | Year | Genre | GenreEncoded | PredictedPopularity
  {
    function Name(): string
    {
      match this
      case DurationMin => "duration_min"
      case Tempo => "tempo"
      case TimeSignature => "time_signature"
      case Key => "key"
      case Mode => "mode"
      case Energy => "energy"
      case Loudness => "loudness"
      case Danceability => "danceability"
      case Valence => "valence"
      case Acousticness => "acousticness"
      case Instrumentalness => "instrumentalness"
      case Liveness => "liveness"
      case Speechiness => "speechiness"
      case Year => "year"
      case Genre => "genre"
      case GenreEncoded => "genre_encoded"
      case PredictedPopularity => "predicted_popularity"
    }
  }

  /** A value of the dictionary (a Python int, float or str). */
  datatype Value = IntVal(i: int) | RealVal(r: real) | StrVal(s: string)
}
