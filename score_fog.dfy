/** The heuristic scorer (score_fog.py): a penalty scheme that turns one
    morning reading into a fog score and a castle score in [0, 100]. */
module ScoreFog {
  import opened Common

  /** The Magnus dew-point approximation, a logarithmic formula that stays
      abstract: any function of temperature and humidity. */
  type DewPointFormula = (real, real) -> real

  /** calc_dew_point: defined only for 0 < humidity <= 100. */
  function CalcDewPoint(temp: real, humidity: real, magnus: DewPointFormula): (r: Result<real>)
    ensures r.Ok? <==> 0.0 < humidity <= 100.0
    ensures r.Err? ==> r.error == DomainError
    ensures r.Ok? ==> r.value == magnus(temp, humidity)
  {
    if !(0.0 < humidity <= 100.0) then Err(DomainError)
    else Ok(magnus(temp, humidity))
  }

  function Max(a: real, b: real): real { if a >= b then a else b }
  function Min(a: real, b: real): real { if a <= b then a else b }

  /** clamp(value, low, high) = max(low, min(high, value)). */
  function Clamp(value: real, low: real, high: real): (r: real)
    ensures r >= low
    ensures low <= high ==> r <= high
    ensures low <= value <= high ==> r == value
    ensures value <= low ==> r == low
    ensures low <= high <= value ==> r == high
  {
    Max(low, Min(high, value))
  }

  datatype Scores = Scores(fogScore: real, castleScore: real, dewPoint: real, dewSpread: real)

  /** The three fog penalties: dew spread, wind above 1.5 m/s, rain. */
  function FogScore(dewSpread: real, wind: real, rain: real): real
  {
    var s0 := 100.0;
    var s1 := s0 - Clamp(dewSpread * 12.0, 0.0, 60.0);
    var s2 := s1 - Clamp(Max(wind - 1.5, 0.0) * 10.0, 0.0, 25.0);
    var s3 := s2 - Clamp(rain * 5.0, 0.0, 10.0);
    Clamp(s3, 0.0, 100.0)
  }

  /** The cloud-band penalty: too little cloud (below 40 %) or too much
      (above 90 %). */
  function CloudPenalty(cloud: real): (p: real)
    ensures p >= 0.0
    ensures 40.0 <= cloud <= 90.0 ==> p == 0.0
  {
    if cloud < 40.0 then (40.0 - cloud) * 0.6
    else if cloud > 90.0 then (cloud - 90.0) * 0.8
    else 0.0
  }

  function CastleScore(fogScore: real, dewSpread: real, cloud: real): real
  {
    var c1 := fogScore - CloudPenalty(cloud);
    var c2 := c1 - Clamp(Max(dewSpread - 2.0, 0.0) * 8.0, 0.0, 20.0);
    Clamp(c2, 0.0, 100.0)
  }

  /** calc_scores (before the rounding for display). */
  function CalcScores(temp: real, dewPoint: real, wind: real, cloud: real, rain: real): (s: Scores)
    ensures s.dewSpread == temp - dewPoint && s.dewPoint == dewPoint
    ensures 0.0 <= s.fogScore <= 100.0
    ensures 0.0 <= s.castleScore <= 100.0
    ensures s.castleScore <= s.fogScore
    ensures 40.0 <= cloud <= 90.0 && temp - dewPoint <= 2.0 ==> s.castleScore == s.fogScore
    ensures temp - dewPoint <= 0.0 && wind <= 1.5 && rain <= 0.0 ==> s.fogScore == 100.0
  {
    var spread := temp - dewPoint;
    var fog := FogScore(spread, wind, rain);
    Scores(fog, CastleScore(fog, spread, cloud), dewPoint, spread)
  }

  /** Wind up to 1.5 m/s costs nothing: the scores equal those of a calm morning. */
  lemma CalmWindIsFree(temp: real, dewPoint: real, wind: real, cloud: real, rain: real)
    requires wind <= 1.5
    ensures CalcScores(temp, dewPoint, wind, cloud, rain) == CalcScores(temp, dewPoint, 0.0, cloud, rain)
  {
  }

  /** More wind never raises either score. */
  lemma ScoresNonIncreasingInWind(temp: real, dewPoint: real, w1: real, w2: real, cloud: real, rain: real)
    requires w1 <= w2
    ensures CalcScores(temp, dewPoint, w2, cloud, rain).fogScore <= CalcScores(temp, dewPoint, w1, cloud, rain).fogScore
    ensures CalcScores(temp, dewPoint, w2, cloud, rain).castleScore <= CalcScores(temp, dewPoint, w1, cloud, rain).castleScore
  {
  }

  /** More rain never raises either score. */
  lemma ScoresNonIncreasingInRain(temp: real, dewPoint: real, wind: real, cloud: real, r1: real, r2: real)
    requires r1 <= r2
    ensures CalcScores(temp, dewPoint, wind, cloud, r2).fogScore <= CalcScores(temp, dewPoint, wind, cloud, r1).fogScore
    ensures CalcScores(temp, dewPoint, wind, cloud, r2).castleScore <= CalcScores(temp, dewPoint, wind, cloud, r1).castleScore
  {
  }

  /** A wider dew spread never raises either score. */
  lemma ScoresNonIncreasingInSpread(t1: real, t2: real, dewPoint: real, wind: real, cloud: real, rain: real)
    requires t1 <= t2
    ensures CalcScores(t2, dewPoint, wind, cloud, rain).fogScore <= CalcScores(t1, dewPoint, wind, cloud, rain).fogScore
    ensures CalcScores(t2, dewPoint, wind, cloud, rain).castleScore <= CalcScores(t1, dewPoint, wind, cloud, rain).castleScore
  {
  }

  /** The reading of 2025-10-28 used as a fixture (temp 9.575, dew point
      8.38, wind 6.55, cloud 66, rain 0.175): the wind penalty is at its cap
      of 25, so the fog score is 100 - 14.34 - 25 - 0.875. */
  lemma WindyMorningExample()
    ensures CalcScores(9.575, 8.38, 6.55, 66.0, 0.175).fogScore == 59.785
    ensures CalcScores(9.575, 8.38, 6.55, 66.0, 0.175).castleScore == 59.785
  {
  }

  /** score_fog.main without its file I/O: dew point, then scores. */
  function ScoreReading(temp: real, humidity: real, wind: real, cloud: real, rain: real,
                        magnus: DewPointFormula): (r: Result<Scores>)
    ensures r.Ok? <==> 0.0 < humidity <= 100.0
    ensures r.Err? ==> r.error == DomainError
    ensures r.Ok? ==> r.value.dewPoint == magnus(temp, humidity)
    ensures r.Ok? ==> r.value.dewSpread == temp - magnus(temp, humidity)
    ensures r.Ok? ==> 0.0 <= r.value.castleScore <= r.value.fogScore <= 100.0
  {
    match CalcDewPoint(temp, humidity, magnus)
    case Err(e) => Err(e)
    case Ok(dew) => Ok(CalcScores(temp, dew, wind, cloud, rain))
  }
}
