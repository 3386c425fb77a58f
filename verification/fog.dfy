/**
 The fog probability calculator: one hourly weather sample, and optionally the
 sample of the hour before, yield a radiation-fog score and an advection-fog
 score, their 0.6/0.4 blend, a risk level and a summary of the factors.

 Every factor is a first-match band table: the bands are tried in order and
 the first one the value falls in gives the factor's weight. The tables are
 written as data below; each factor function states its bands explicitly.
 */
module FogModel {
  import opened Common

  /** One hourly observation (temperatures in °C, wind in m/s, covers in %). */
  datatype Weather = Weather(
    temperature: real,
    relativeHumidity: real,
    dewPoint: real,
    windSpeed: real,
    weatherCode: int,
    cloudCover: real,
    lowCloudCover: real,
    midCloudCover: real,
    highCloudCover: real)

  datatype RiskLevel = Low | Medium | High

  /** The five sky descriptions, in order of increasing cloud cover. */
  datatype CloudCondition = Clear | MostlyClear | PartlyCloudy | Cloudy | Overcast

  datatype Factors = Factors(
    highHumidity: bool,
    lowWind: bool,
    temperatureDewPointGap: real,
    temperatureTrend: Trend,
    cloudCondition: CloudCondition)

  datatype FogProbability = FogProbability(
    radiationFogProbability: int,
    advectionFogProbability: int,
    overallFogProbability: int,
    riskLevel: RiskLevel,
    factors: Factors)

  /** One row of a band table: values on the matching side of `bound` earn `weight`. */
  datatype Band = Band(bound: real, weight: int)

  // ---------------------------------------------------------------- tables

  /** Relative humidity, matched with `humidity >= bound` (both scores use it). */
  const HumidityBands: seq<Band> := [Band(90.0, 40), Band(80.0, 30), Band(70.0, 15)]
  /** Radiation fog wants calm air: matched with `wind <= bound`. */
  const RadiationWindBands: seq<Band> := [Band(1.0, 30), Band(2.0, 25), Band(3.0, 15), Band(5.0, 5)]
  /** Radiation fog, temperature–dew-point gap: matched with `gap <= bound`. */
  const RadiationGapBands: seq<Band> := [Band(1.0, 20), Band(2.0, 15), Band(3.0, 10), Band(5.0, 5)]
  /** Advection fog, temperature–dew-point gap: matched with `gap <= bound`. */
  const AdvectionGapBands: seq<Band> := [Band(1.0, 15), Band(2.0, 12), Band(3.0, 8), Band(5.0, 3)]

  const RadiationWeight: real := 0.6
  const AdvectionWeight: real := 0.4
  const ScoreCap: int := 100

  /** Weight of the first band with `x <= bound`; 0 when no band matches. */
  function FirstAtMost(bands: seq<Band>, x: real): (w: int)
    ensures w == 0 || exists i :: 0 <= i < |bands| && bands[i].weight == w
    ensures (forall i :: 0 <= i < |bands| ==> bands[i].bound < x) ==> w == 0
    decreases |bands|
  {
    if |bands| == 0 then 0
    else if x <= bands[0].bound then bands[0].weight
    else
      var w := FirstAtMost(bands[1..], x);
      assert w != 0 ==> exists i :: 0 <= i < |bands| && bands[i].weight == w by {
        if w != 0 {
          var j :| 0 <= j < |bands[1..]| && bands[1..][j].weight == w;
          assert bands[j + 1].weight == w;
        }
      }
      w
  }

  /** Weight of the first band with `x >= bound`; 0 when no band matches. */
  function FirstAtLeast(bands: seq<Band>, x: real): (w: int)
    ensures w == 0 || exists i :: 0 <= i < |bands| && bands[i].weight == w
    ensures (forall i :: 0 <= i < |bands| ==> x < bands[i].bound) ==> w == 0
    decreases |bands|
  {
    if |bands| == 0 then 0
    else if x >= bands[0].bound then bands[0].weight
    else
      var w := FirstAtLeast(bands[1..], x);
      assert w != 0 ==> exists i :: 0 <= i < |bands| && bands[i].weight == w by {
        if w != 0 {
          var j :| 0 <= j < |bands[1..]| && bands[1..][j].weight == w;
          assert bands[j + 1].weight == w;
        }
      }
      w
  }

  /** Bounds rise and weights fall along the table: the shape of a `<=` table. */
  ghost predicate RisingBounds(bands: seq<Band>)
  {
    && (forall i :: 0 <= i < |bands| ==> 0 <= bands[i].weight)
    && (forall i, j :: 0 <= i < j < |bands| ==> bands[i].bound <= bands[j].bound)
    && (forall i, j :: 0 <= i < j < |bands| ==> bands[j].weight <= bands[i].weight)
  }

  /** Bounds and weights both fall along the table: the shape of a `>=` table. */
  ghost predicate FallingBounds(bands: seq<Band>)
  {
    && (forall i :: 0 <= i < |bands| ==> 0 <= bands[i].weight)
    && (forall i, j :: 0 <= i < j < |bands| ==> bands[j].bound <= bands[i].bound)
    && (forall i, j :: 0 <= i < j < |bands| ==> bands[j].weight <= bands[i].weight)
  }

  /** In a `<=` table, a larger value never earns a larger weight. */
  lemma {:induction false} FirstAtMostAntitone(bands: seq<Band>, x: real, y: real)
    requires RisingBounds(bands)
    requires x <= y
    ensures 0 <= FirstAtMost(bands, y) <= FirstAtMost(bands, x)
    decreases |bands|
  {
    if |bands| == 0 {
    } else if y <= bands[0].bound {
    } else if x <= bands[0].bound {
      var w := FirstAtMost(bands[1..], y);
      if w != 0 {
        var j :| 0 <= j < |bands[1..]| && bands[1..][j].weight == w;
        assert bands[j + 1].weight == w;
      }
    } else {
      assert RisingBounds(bands[1..]) by {
        forall i | 0 <= i < |bands[1..]| ensures 0 <= bands[1..][i].weight {
          assert bands[1..][i] == bands[i + 1];
        }
      }
      FirstAtMostAntitone(bands[1..], x, y);
    }
  }

  /** In a `>=` table, a larger value never earns a smaller weight. */
  lemma {:induction false} FirstAtLeastMonotone(bands: seq<Band>, x: real, y: real)
    requires FallingBounds(bands)
    requires x <= y
    ensures 0 <= FirstAtLeast(bands, x) <= FirstAtLeast(bands, y)
    decreases |bands|
  {
    if |bands| == 0 {
    } else if x >= bands[0].bound {
    } else if y >= bands[0].bound {
      var w := FirstAtLeast(bands[1..], x);
      if w != 0 {
        var j :| 0 <= j < |bands[1..]| && bands[1..][j].weight == w;
        assert bands[j + 1].weight == w;
      }
    } else {
      assert FallingBounds(bands[1..]) by {
        forall i | 0 <= i < |bands[1..]| ensures 0 <= bands[1..][i].weight {
          assert bands[1..][i] == bands[i + 1];
        }
      }
      FirstAtLeastMonotone(bands[1..], x, y);
    }
  }

  // --------------------------------------------------------------- factors

  function HumidityWeight(humidity: real): (w: int)
    ensures humidity >= 90.0 ==> w == 40
    ensures 80.0 <= humidity < 90.0 ==> w == 30
    ensures 70.0 <= humidity < 80.0 ==> w == 15
    ensures humidity < 70.0 ==> w == 0
  {
    FirstAtLeast(HumidityBands, humidity)
  }

  function RadiationWindWeight(wind: real): (w: int)
    ensures wind <= 1.0 ==> w == 30
    ensures 1.0 < wind <= 2.0 ==> w == 25
    ensures 2.0 < wind <= 3.0 ==> w == 15
    ensures 3.0 < wind <= 5.0 ==> w == 5
    ensures 5.0 < wind ==> w == 0
  {
    FirstAtMost(RadiationWindBands, wind)
  }

  function RadiationGapWeight(gap: real): (w: int)
    ensures gap <= 1.0 ==> w == 20
    ensures 1.0 < gap <= 2.0 ==> w == 15
    ensures 2.0 < gap <= 3.0 ==> w == 10
    ensures 3.0 < gap <= 5.0 ==> w == 5
    ensures 5.0 < gap ==> w == 0
  {
    FirstAtMost(RadiationGapBands, gap)
  }

  function AdvectionGapWeight(gap: real): (w: int)
    ensures gap <= 1.0 ==> w == 15
    ensures 1.0 < gap <= 2.0 ==> w == 12
    ensures 2.0 < gap <= 3.0 ==> w == 8
    ensures 3.0 < gap <= 5.0 ==> w == 3
    ensures 5.0 < gap ==> w == 0
  {
    FirstAtMost(AdvectionGapBands, gap)
  }

  /**
   The advection wind bands, in the order the source tries them:
   0: [2, 6]   1: [1, 2)   2: (6, 8]   3: above 8   4: below 1 (no band).
   */
  predicate InAdvectionWindBand(band: int, wind: real)
  {
    match band
    case 0 => 2.0 <= wind <= 6.0
    case 1 => 1.0 <= wind < 2.0
    case 2 => 6.0 < wind <= 8.0
    case 3 => wind > 8.0
    case 4 => wind < 1.0
    case _ => false
  }

  const AdvectionWindWeights: seq<int> := [35, 20, 20, 5, 0]

  function AdvectionWindWeight(wind: real): (w: int)
    ensures w in AdvectionWindWeights
  {
    if 2.0 <= wind <= 6.0 then 35
    else if 1.0 <= wind < 2.0 then 20
    else if 6.0 < wind <= 8.0 then 20
    else if wind > 8.0 then 5
    else 0
  }

  /** The advection wind bands partition the reals, and each speed gets its band's weight. */
  lemma AdvectionWindPartition(wind: real)
    ensures exists band :: 0 <= band < 5 && InAdvectionWindBand(band, wind)
    ensures forall b1, b2 :: InAdvectionWindBand(b1, wind) && InAdvectionWindBand(b2, wind) ==> b1 == b2
    ensures forall band :: InAdvectionWindBand(band, wind) ==>
      0 <= band < 5 && AdvectionWindWeight(wind) == AdvectionWindWeights[band]
  {
    if 2.0 <= wind <= 6.0 {
      assert InAdvectionWindBand(0, wind);
    } else if 1.0 <= wind < 2.0 {
      assert InAdvectionWindBand(1, wind);
    } else if 6.0 < wind <= 8.0 {
      assert InAdvectionWindBand(2, wind);
    } else if wind > 8.0 {
      assert InAdvectionWindBand(3, wind);
    } else {
      assert InAdvectionWindBand(4, wind);
    }
  }

  function RadiationCloudWeight(cloudCover: real): (w: int)
    ensures w == 5 <==> cloudCover <= 20.0
    ensures w == 0 <==> cloudCover > 20.0
  {
    if cloudCover <= 20.0 then 5 else 0
  }

  function AdvectionCloudWeight(cloudCover: real): (w: int)
    ensures w == 10 <==> 30.0 <= cloudCover <= 70.0
    ensures w == 5 <==> cloudCover > 70.0
    ensures w == 0 <==> cloudCover < 30.0
  {
    if 30.0 <= cloudCover <= 70.0 then 10
    else if cloudCover > 70.0 then 5
    else 0
  }

  function TrendWeight(trend: Trend): (w: int)
    ensures w == 10 <==> trend == Decreasing
    ensures w == 0 <==> trend != Decreasing
  {
    if trend == Decreasing then 10 else 0
  }

  // ---------------------------------------------------------------- scores

  /** The uncapped radiation sum; its largest value is 40+30+20+10+5 = 105. */
  function RadiationRawSum(weather: Weather, gap: real, trend: Trend): (s: int)
    ensures 0 <= s <= 105
  {
    HumidityWeight(weather.relativeHumidity)
      + RadiationWindWeight(weather.windSpeed)
      + RadiationGapWeight(gap)
      + TrendWeight(trend)
      + RadiationCloudWeight(weather.cloudCover)
  }

  function RadiationFogProbability(weather: Weather, gap: real, trend: Trend): (p: int)
    ensures 0 <= p <= ScoreCap
    ensures p <= RadiationRawSum(weather, gap, trend)
    ensures RadiationRawSum(weather, gap, trend) <= ScoreCap ==> p == RadiationRawSum(weather, gap, trend)
    ensures ScoreCap < RadiationRawSum(weather, gap, trend) ==> p == ScoreCap
  {
    MinInt(ScoreCap, RadiationRawSum(weather, gap, trend))
  }

  /** The uncapped advection sum; its largest value is 40+35+15+10 = 100. */
  function AdvectionRawSum(weather: Weather, gap: real): (s: int)
    ensures 0 <= s <= 100
  {
    HumidityWeight(weather.relativeHumidity)
      + AdvectionWindWeight(weather.windSpeed)
      + AdvectionGapWeight(gap)
      + AdvectionCloudWeight(weather.cloudCover)
  }

  function AdvectionFogProbability(weather: Weather, gap: real): (p: int)
    ensures 0 <= p <= ScoreCap
    ensures p == AdvectionRawSum(weather, gap)
  {
    MinInt(ScoreCap, AdvectionRawSum(weather, gap))
  }

  /** The radiation cap is reachable: calm, saturated, clear and cooling gives 105 before the cap. */
  lemma RadiationCapExercised()
    ensures var w := Weather(10.0, 95.0, 9.5, 0.5, 0, 10.0, 0.0, 0.0, 0.0);
      RadiationRawSum(w, 0.5, Decreasing) == 105 && RadiationFogProbability(w, 0.5, Decreasing) == 100
  {
  }

  lemma RadiationMonotoneInHumidity(weather: Weather, gap: real, trend: Trend, lower: real, higher: real)
    requires lower <= higher
    ensures RadiationFogProbability(weather.(relativeHumidity := lower), gap, trend)
         <= RadiationFogProbability(weather.(relativeHumidity := higher), gap, trend)
  {
  }

  lemma RadiationAntitoneInWind(weather: Weather, gap: real, trend: Trend, lower: real, higher: real)
    requires lower <= higher
    ensures RadiationFogProbability(weather.(windSpeed := higher), gap, trend)
         <= RadiationFogProbability(weather.(windSpeed := lower), gap, trend)
  {
  }

  lemma RadiationAntitoneInGap(weather: Weather, trend: Trend, lower: real, higher: real)
    requires lower <= higher
    ensures RadiationFogProbability(weather, higher, trend) <= RadiationFogProbability(weather, lower, trend)
  {
  }

  lemma AdvectionAntitoneInGap(weather: Weather, lower: real, higher: real)
    requires lower <= higher
    ensures AdvectionFogProbability(weather, higher) <= AdvectionFogProbability(weather, lower)
  {
  }

  lemma AdvectionMonotoneInHumidity(weather: Weather, gap: real, lower: real, higher: real)
    requires lower <= higher
    ensures AdvectionFogProbability(weather.(relativeHumidity := lower), gap)
         <= AdvectionFogProbability(weather.(relativeHumidity := higher), gap)
  {
  }

  // ------------------------------------------------------------ derivation

  /** Temperature trend from the previous hour: a change of more than half a degree either way. */
  function TemperatureTrend(current: Weather, previous: Option<Weather>): (t: Trend)
    ensures t == Stable <==>
      previous.None? || -0.5 <= current.temperature - previous.value.temperature <= 0.5
    ensures t == Decreasing <==>
      previous.Some? && current.temperature - previous.value.temperature < -0.5
    ensures t == Increasing <==>
      previous.Some? && current.temperature - previous.value.temperature > 0.5
  {
    match previous
    case None => Stable
    case Some(prev) =>
      var change := current.temperature - prev.temperature;
      if change < -0.5 then Decreasing
      else if change > 0.5 then Increasing
      else Stable
  }

  /** Sky description by first match over the bands ≤10, ≤25, ≤50, ≤75, above. */
  function GetCloudCondition(cloudCover: real): (c: CloudCondition)
    ensures c == Clear <==> cloudCover <= 10.0
    ensures c == MostlyClear <==> 10.0 < cloudCover <= 25.0
    ensures c == PartlyCloudy <==> 25.0 < cloudCover <= 50.0
    ensures c == Cloudy <==> 50.0 < cloudCover <= 75.0
    ensures c == Overcast <==> 75.0 < cloudCover
  {
    if cloudCover <= 10.0 then Clear
    else if cloudCover <= 25.0 then MostlyClear
    else if cloudCover <= 50.0 then PartlyCloudy
    else if cloudCover <= 75.0 then Cloudy
    else Overcast
  }

  /** Position of a sky description in the order of increasing cover. */
  function CloudRank(c: CloudCondition): nat
  {
    match c
    case Clear => 0
    case MostlyClear => 1
    case PartlyCloudy => 2
    case Cloudy => 3
    case Overcast => 4
  }

  /** More cloud never gives a clearer description. */
  lemma CloudConditionMonotone(lower: real, higher: real)
    requires lower <= higher
    ensures CloudRank(GetCloudCondition(lower)) <= CloudRank(GetCloudCondition(higher))
  {
  }

  /** The sky description a displayed label stands for, if any. */
  function ConditionOfLabel(text: string): (c: Option<CloudCondition>)
  {
    if text == "晴朗" then Some(Clear)
    else if text == "少云" then Some(MostlyClear)
    else if text == "晴间多云" then Some(PartlyCloudy)
    else if text == "多云" then Some(Cloudy)
    else if text == "阴天" then Some(Overcast)
    else None
  }

  /** The strings the application displays for each sky description; each label reads back as its description. */
  function CloudConditionLabel(c: CloudCondition): (text: string)
    ensures ConditionOfLabel(text) == Some(c)
  {
    match c
    case Clear => "晴朗"
    case MostlyClear => "少云"
    case PartlyCloudy => "晴间多云"
    case Cloudy => "多云"
    case Overcast => "阴天"
  }

  /** No two sky descriptions share a label, so the datatype loses nothing. */
  lemma CloudConditionLabelInjective(c1: CloudCondition, c2: CloudCondition)
    requires CloudConditionLabel(c1) == CloudConditionLabel(c2)
    ensures c1 == c2
  {
  }

  /** `Math.round(x * 10) / 10`: x to the nearest tenth. */
  function RoundToTenth(x: real): (r: real)
    ensures r - 0.05 <= x < r + 0.05
    ensures (r * 10.0).Floor as real == r * 10.0
  {
    var k := Round(x * 10.0);
    assert k as real / 10.0 - 0.05 <= x < k as real / 10.0 + 0.05;
    k as real / 10.0
  }

  /** The blend 0.6·r + 0.4·a before rounding. */
  function Blend(radiation: int, advection: int): (b: real)
    ensures 5.0 * b == (3 * radiation + 2 * advection) as real
  {
    radiation as real * RadiationWeight + advection as real * AdvectionWeight
  }

  /** The rounded blend brackets 3r + 2a, and the risk is read off 3r + 2a against 350 and 200. */
  lemma BlendBrackets(radiation: int, advection: int)
    requires 0 <= radiation <= 100 && 0 <= advection <= 100
    ensures var s := 3 * radiation + 2 * advection;
      && 0 <= Round(Blend(radiation, advection)) <= 100
      && 5 * Round(Blend(radiation, advection)) - 3 < s <= 5 * Round(Blend(radiation, advection)) + 2
    ensures var s := 3 * radiation + 2 * advection;
      && (RiskLevelOf(Blend(radiation, advection)) == High <==> s >= 350)
      && (RiskLevelOf(Blend(radiation, advection)) == Medium <==> 200 <= s < 350)
      && (RiskLevelOf(Blend(radiation, advection)) == Low <==> s < 200)
  {
    var b := Blend(radiation, advection);
    var o := Round(b);
    assert 5.0 * b == (3 * radiation + 2 * advection) as real;
    assert 5.0 * (o as real) - 2.5 <= 5.0 * b < 5.0 * (o as real) + 2.5;
  }

  function RiskLevelOf(overall: real): (level: RiskLevel)
    ensures level == High <==> overall >= 70.0
    ensures level == Medium <==> 40.0 <= overall < 70.0
    ensures level == Low <==> overall < 40.0
  {
    if overall >= 70.0 then High
    else if overall >= 40.0 then Medium
    else Low
  }

  // --------------------------------------------------------------- entry

  function CalculateFogProbability(current: Weather, previous: Option<Weather>): (p: FogProbability)
    ensures 0 <= p.radiationFogProbability <= 100
    ensures 0 <= p.advectionFogProbability <= 100
    ensures 0 <= p.overallFogProbability <= 100
    ensures var gap := current.temperature - current.dewPoint;
      && p.radiationFogProbability == RadiationFogProbability(current, gap, TemperatureTrend(current, previous))
      && p.advectionFogProbability == AdvectionFogProbability(current, gap)
    // the overall value is the 3:2 blend of the two scores, rounded half up
    ensures var s := 3 * p.radiationFogProbability + 2 * p.advectionFogProbability;
      5 * p.overallFogProbability - 3 < s <= 5 * p.overallFogProbability + 2
    // the risk level is read off the blend before rounding
    ensures var s := 3 * p.radiationFogProbability + 2 * p.advectionFogProbability;
      && (p.riskLevel == High <==> s >= 350)
      && (p.riskLevel == Medium <==> 200 <= s < 350)
      && (p.riskLevel == Low <==> s < 200)
    ensures p.factors.highHumidity <==> current.relativeHumidity >= 80.0
    ensures p.factors.lowWind <==> current.windSpeed <= 3.0
    ensures var gap := current.temperature - current.dewPoint;
      p.factors.temperatureDewPointGap - 0.05 <= gap < p.factors.temperatureDewPointGap + 0.05
    ensures (p.factors.temperatureDewPointGap * 10.0).Floor as real == p.factors.temperatureDewPointGap * 10.0
    ensures p.factors.temperatureTrend == TemperatureTrend(current, previous)
    ensures p.factors.cloudCondition == GetCloudCondition(current.cloudCover)
  {
    var gap := current.temperature - current.dewPoint;
    var trend := TemperatureTrend(current, previous);
    var radiation := RadiationFogProbability(current, gap, trend);
    var advection := AdvectionFogProbability(current, gap);
    var overall := Blend(radiation, advection);
    var tenths := RoundToTenth(gap);
    var factors := Factors(
      current.relativeHumidity >= 80.0,
      current.windSpeed <= 3.0,
      tenths,
      trend,
      GetCloudCondition(current.cloudCover));
    RoundOfInt(radiation);
    RoundOfInt(advection);
    BlendBrackets(radiation, advection);
    FogProbability(Round(radiation as real), Round(advection as real), Round(overall), RiskLevelOf(overall), factors)
  }

  /** More humidity, all else equal, never lowers the overall probability or the risk. */
  lemma OverallMonotoneInHumidity(w: Weather, previous: Option<Weather>, lower: real, higher: real)
    requires lower <= higher
    ensures var p := CalculateFogProbability(w.(relativeHumidity := lower), previous);
      var q := CalculateFogProbability(w.(relativeHumidity := higher), previous);
      && p.overallFogProbability <= q.overallFogProbability
      && (p.riskLevel == High ==> q.riskLevel == High)
      && (p.riskLevel == Medium ==> q.riskLevel != Low)
  {
    var gap := w.temperature - w.dewPoint;
    var trend := TemperatureTrend(w, previous);
    RadiationMonotoneInHumidity(w, gap, trend, lower, higher);
    AdvectionMonotoneInHumidity(w, gap, lower, higher);
    var wl := w.(relativeHumidity := lower);
    var wh := w.(relativeHumidity := higher);
    assert TemperatureTrend(wl, previous) == trend && TemperatureTrend(wh, previous) == trend;
    RoundMonotone(
      Blend(RadiationFogProbability(wl, gap, trend), AdvectionFogProbability(wl, gap)),
      Blend(RadiationFogProbability(wh, gap, trend), AdvectionFogProbability(wh, gap)));
  }

  /** Passing the current sample as its own predecessor is the same as passing none. */
  lemma SelfPreviousIsNoPrevious(w: Weather)
    ensures CalculateFogProbability(w, Some(w)) == CalculateFogProbability(w, None)
  {
  }

  /** Humidity 95, wind 0.5, 10 °C over a 9.5 °C dew point, 10 % cloud, no previous hour. */
  lemma WorkedExampleHighRisk()
    ensures var p := CalculateFogProbability(Weather(10.0, 95.0, 9.5, 0.5, 0, 10.0, 0.0, 0.0, 0.0), None);
      && p.radiationFogProbability == 95
      && p.advectionFogProbability == 55
      && p.overallFogProbability == 79
      && p.riskLevel == High
      && p.factors.highHumidity && p.factors.lowWind
      && p.factors.temperatureDewPointGap == 0.5
      && p.factors.cloudCondition == Clear
  {
    var w := Weather(10.0, 95.0, 9.5, 0.5, 0, 10.0, 0.0, 0.0, 0.0);
    RoundUnique(Blend(95, 55), 79);
    RoundUnique(0.5 * 10.0, 5);
  }

  /** Dry, windy and overcast: only the wind and cloud bands of the advection score fire. */
  lemma WorkedExampleLowRisk()
    ensures var p := CalculateFogProbability(Weather(18.0, 50.0, 10.0, 10.0, 3, 90.0, 0.0, 0.0, 0.0), None);
      && p.radiationFogProbability == 0
      && p.advectionFogProbability == 10
      && p.overallFogProbability == 4
      && p.riskLevel == Low
      && p.factors.cloudCondition == Overcast
  {
    RoundUnique(Blend(0, 10), 4);
  }

  /** Radiation 55 and advection 92 blend to 69.8: the rounded overall is 70 yet the risk is Medium. */
  lemma RoundedSeventyCanBeMedium()
    ensures var p := CalculateFogProbability(Weather(11.5, 95.0, 10.0, 5.5, 3, 80.0, 0.0, 0.0, 0.0), None);
      && p.radiationFogProbability == 55
      && p.advectionFogProbability == 92
      && p.overallFogProbability == 70
      && p.riskLevel == Medium
  {
    RoundUnique(Blend(55, 92), 70);
  }
}
