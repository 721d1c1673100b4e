/** The two presentation helpers that carry logic: the severity band of a
    numeric rating and the hemisphere letters of a coordinate pair. */
module Utils {

  /** The four bands a numeric severity rating falls into, in increasing order. */
  datatype Severity = Low | Medium | High | Severe

  function SeverityName(s: Severity): string {
    match s
    case Low => "Low"
    case Medium => "Medium"
    case High => "High"
    case Severe => "Severe"
  }

  /** Position of a band in the order Low < Medium < High < Severe. */
  function Rank(s: Severity): nat {
    match s
    case Low => 0
    case Medium => 1
    case High => 2
    case Severe => 3
  }

  /** Upper bounds (inclusive) of the first three bands. */
  const LOW_MAX: real := 3.0
  const MEDIUM_MAX: real := 6.0
  const HIGH_MAX: real := 8.0

  /** The band of a rating: the first band whose upper bound the rating does not exceed. */
  function SeverityLevel(rating: real): (s: Severity)
    ensures s == Low <==> rating <= LOW_MAX
    ensures s == Medium <==> LOW_MAX < rating <= MEDIUM_MAX
    ensures s == High <==> MEDIUM_MAX < rating <= HIGH_MAX
    ensures s == Severe <==> HIGH_MAX < rating
  {
    if rating <= LOW_MAX then Low
    else if rating <= MEDIUM_MAX then Medium
    else if rating <= HIGH_MAX then High
    else Severe
  }

  /** The text `getSeverityLevel` returns for a rating: one of four names,
      each for exactly its band. */
  function GetSeverityLevel(rating: real): (name: string)
    ensures name in {"Low", "Medium", "High", "Severe"}
    ensures name == "Low" <==> rating <= LOW_MAX
    ensures name == "Medium" <==> LOW_MAX < rating <= MEDIUM_MAX
    ensures name == "High" <==> MEDIUM_MAX < rating <= HIGH_MAX
    ensures name == "Severe" <==> HIGH_MAX < rating
  {
    SeverityName(SeverityLevel(rating))
  }

  /** Reference definition: how many of the three thresholds a rating lies above. */
  function ThresholdsExceeded(rating: real): nat {
    (if rating > LOW_MAX then 1 else 0)
    + (if rating > MEDIUM_MAX then 1 else 0)
    + (if rating > HIGH_MAX then 1 else 0)
  }

  /** The band's rank is the number of thresholds the rating exceeds. */
  lemma RankCountsThresholds(rating: real)
    ensures Rank(SeverityLevel(rating)) == ThresholdsExceeded(rating)
  {
  }

  /** A higher rating never gives a lower band. */
  lemma SeverityMonotone(r1: real, r2: real)
    requires r1 <= r2
    ensures Rank(SeverityLevel(r1)) <= Rank(SeverityLevel(r2))
  {
    RankCountsThresholds(r1);
    RankCountsThresholds(r2);
  }

  function Abs(x: real): real {
    if x < 0.0 then -x else x
  }

  /** 'N' for latitudes at or north of the equator, 'S' otherwise. */
  function LatitudeLetter(latitude: real): (c: char)
    ensures c == 'N' <==> latitude >= 0.0
    ensures c == 'S' <==> latitude < 0.0
  {
    if latitude >= 0.0 then 'N' else 'S'
  }

  /** 'E' for longitudes at or east of the prime meridian, 'W' otherwise. */
  function LongitudeLetter(longitude: real): (c: char)
    ensures c == 'E' <==> longitude >= 0.0
    ensures c == 'W' <==> longitude < 0.0
  {
    if longitude >= 0.0 then 'E' else 'W'
  }

  /** Reads a signed coordinate back from a magnitude and its direction letter. */
  function Signed(magnitude: real, letter: char): real {
    if letter == 'N' || letter == 'E' then magnitude else -magnitude
  }

  /** A magnitude together with its letter determines the coordinate. */
  lemma LettersRecoverSign(latitude: real, longitude: real)
    ensures Signed(Abs(latitude), LatitudeLetter(latitude)) == latitude
    ensures Signed(Abs(longitude), LongitudeLetter(longitude)) == longitude
  {
  }

  const DEGREE: char := '°'

  /** "<|lat|>° <N|S>, <|lng|>° <E|W>", where `fixed6` renders a non-negative
      number with six decimals (the float formatting itself is not modelled). */
  function FormatCoordinates(latitude: real, longitude: real, fixed6: real -> string): (r: string)
    ensures var lat, lng := fixed6(Abs(latitude)), fixed6(Abs(longitude));
      && |r| == |lat| + 5 + |lng| + 3
      && r[..|lat|] == lat
      && r[|lat|..|lat| + 5] == [DEGREE, ' ', LatitudeLetter(latitude), ',', ' ']
      && r[|lat| + 5..|r| - 3] == lng
      && r[|r| - 3..] == [DEGREE, ' ', LongitudeLetter(longitude)]
  {
    fixed6(Abs(latitude)) + [DEGREE, ' ', LatitudeLetter(latitude)] + ", "
    + fixed6(Abs(longitude)) + [DEGREE, ' ', LongitudeLetter(longitude)]
  }
}
