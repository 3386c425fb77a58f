/**
 The cloud layer processor: an altitude correction of the low-cloud cover for
 a single reading, and a trend per layer (low, mid, high, total) read off the
 first and last entries of a time-ordered sequence of readings.
 */
module CloudLayers {
  import opened Common

  /** Cover of each layer, in percent, as reported at sea level. */
  datatype CloudCover = CloudCover(lowCloud: real, midCloud: real, highCloud: real, totalCloud: real)

  /** A reading corrected for the site's altitude (metres). */
  datatype CloudLayerData = CloudLayerData(
    lowCloud: real, midCloud: real, highCloud: real, totalCloud: real, altitude: real)

  /** One reading of a sequence; `time` is a millisecond timestamp the trend never looks at. */
  datatype CloudLayerTrend = CloudLayerTrend(
    time: int, lowCloud: real, midCloud: real, highCloud: real, totalCloud: real)

  datatype TrendSummary = TrendSummary(
    lowCloudTrend: Trend, midCloudTrend: Trend, highCloudTrend: Trend, totalCloudTrend: Trend)

  /** Percentage points of low cloud removed per 100 m of altitude. */
  const CorrectionPerHundredMetres: real := 0.015

  /** A change of at most this many points either way counts as stable. */
  const StableBand: real := 5.0

  function AltitudeCorrection(altitude: real): (c: real)
    ensures altitude >= 0.0 ==> c >= 0.0
    ensures c * 20000.0 == altitude * 3.0
  {
    altitude / 100.0 * CorrectionPerHundredMetres
  }

  /** Altitude correction of the low layer; the other layers pass through untouched. */
  function ProcessCloudLayerData(data: CloudCover, altitude: real): (r: CloudLayerData)
    ensures 0.0 <= r.lowCloud <= 100.0
    ensures 0.0 <= data.lowCloud - AltitudeCorrection(altitude) <= 100.0 ==>
      r.lowCloud == data.lowCloud - AltitudeCorrection(altitude)
    ensures data.lowCloud - AltitudeCorrection(altitude) < 0.0 ==> r.lowCloud == 0.0
    ensures 100.0 < data.lowCloud - AltitudeCorrection(altitude) ==> r.lowCloud == 100.0
    ensures r.midCloud == data.midCloud
    ensures r.highCloud == data.highCloud
    ensures r.totalCloud == data.totalCloud
    ensures r.altitude == altitude
    ensures altitude == 0.0 && 0.0 <= data.lowCloud <= 100.0 ==> r.lowCloud == data.lowCloud
    ensures altitude >= 0.0 && 0.0 <= data.lowCloud <= 100.0 ==> r.lowCloud <= data.lowCloud
  {
    CloudLayerData(
      Clamp(data.lowCloud - AltitudeCorrection(altitude), 0.0, 100.0),
      data.midCloud,
      data.highCloud,
      data.totalCloud,
      altitude)
  }

  /** A higher site never reports more low cloud for the same raw reading. */
  lemma LowCloudAntitoneInAltitude(data: CloudCover, lower: real, higher: real)
    requires lower <= higher
    ensures ProcessCloudLayerData(data, higher).lowCloud <= ProcessCloudLayerData(data, lower).lowCloud
  {
  }

  /** 50 % low cloud at 1000 m loses 0.15 points. */
  lemma AltitudeCorrectionExample()
    ensures ProcessCloudLayerData(CloudCover(50.0, 20.0, 10.0, 60.0), 1000.0)
      == CloudLayerData(49.85, 20.0, 10.0, 60.0, 1000.0)
  {
  }

  /** `t` is the trend of a layer that went from `firstVal` to `lastVal`. */
  ghost predicate Classifies(t: Trend, firstVal: real, lastVal: real)
  {
    && (t == Stable <==> -StableBand <= lastVal - firstVal <= StableBand)
    && (t == Increasing <==> lastVal - firstVal > StableBand)
    && (t == Decreasing <==> lastVal - firstVal < -StableBand)
  }

  /** Trend between two values of one layer. */
  function GetTrend(firstVal: real, lastVal: real): (t: Trend)
    ensures Classifies(t, firstVal, lastVal)
  {
    var diff := lastVal - firstVal;
    var magnitude := if diff < 0.0 then -diff else diff;
    if magnitude <= StableBand then Stable
    else if diff > 0.0 then Increasing
    else Decreasing
  }

  const AllStable: TrendSummary := TrendSummary(Stable, Stable, Stable, Stable)

  function AnalyzeTrend(trends: seq<CloudLayerTrend>): (r: TrendSummary)
    ensures |trends| < 2 ==> r == AllStable
    ensures |trends| >= 2 ==>
      var first := trends[0];
      var last := trends[|trends| - 1];
      && Classifies(r.lowCloudTrend, first.lowCloud, last.lowCloud)
      && Classifies(r.midCloudTrend, first.midCloud, last.midCloud)
      && Classifies(r.highCloudTrend, first.highCloud, last.highCloud)
      && Classifies(r.totalCloudTrend, first.totalCloud, last.totalCloud)
  {
    if |trends| < 2 then AllStable
    else
      var first := trends[0];
      var last := trends[|trends| - 1];
      TrendSummary(
        GetTrend(first.lowCloud, last.lowCloud),
        GetTrend(first.midCloud, last.midCloud),
        GetTrend(first.highCloud, last.highCloud),
        GetTrend(first.totalCloud, last.totalCloud))
  }

  /** Only the first and last readings matter: anything in between is ignored. */
  lemma AnalyzeTrendIgnoresMiddle(first: CloudLayerTrend, middle: seq<CloudLayerTrend>, last: CloudLayerTrend)
    ensures AnalyzeTrend([first] + middle + [last]) == AnalyzeTrend([first, last])
  {
    var s := [first] + middle + [last];
    assert s[0] == first && s[|s| - 1] == last;
  }

  /** Timestamps never influence the trend. */
  lemma AnalyzeTrendIgnoresTime(trends: seq<CloudLayerTrend>, times: seq<int>)
    requires |times| == |trends|
    ensures AnalyzeTrend(seq(|trends|, i requires 0 <= i < |trends| => trends[i].(time := times[i])))
         == AnalyzeTrend(trends)
  {
  }

  /** A total cover rising from 20 to 80 is an increasing total trend. */
  lemma AnalyzeTrendExample()
    ensures AnalyzeTrend([CloudLayerTrend(0, 10.0, 10.0, 10.0, 20.0), CloudLayerTrend(1, 12.0, 0.0, 15.0, 80.0)])
      == TrendSummary(Stable, Decreasing, Stable, Increasing)
  {
  }

  /** The readings in the opposite order. */
  function Reverse<T>(s: seq<T>): (r: seq<T>)
    ensures |r| == |s|
    ensures forall i :: 0 <= i < |s| ==> r[i] == s[|s| - 1 - i]
  {
    if |s| == 0 then [] else Reverse(s[1..]) + [s[0]]
  }

  function OppositeSummary(t: TrendSummary): TrendSummary
  {
    TrendSummary(
      Opposite(t.lowCloudTrend), Opposite(t.midCloudTrend),
      Opposite(t.highCloudTrend), Opposite(t.totalCloudTrend))
  }

  /** Reading the sequence backwards swaps increasing and decreasing and keeps stable. */
  lemma AnalyzeTrendReverse(trends: seq<CloudLayerTrend>)
    ensures AnalyzeTrend(Reverse(trends)) == OppositeSummary(AnalyzeTrend(trends))
  {
    if |trends| >= 2 {
      var r := Reverse(trends);
      assert r[0] == trends[|trends| - 1];
      assert r[|r| - 1] == trends[0];
    }
  }
}
