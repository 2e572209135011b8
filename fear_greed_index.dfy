/** The fear & greed gauge: a value is classified into one of five bands by
    strict thresholds, and both the label and the colour are read off the same
    thresholds in the same order. */
module FearGreedIndex {

  /** The value the gauge shows; the widget hard-codes it. */
  const GaugeValue: real := 70.0

  /** The length of the gauge's full arc (circumference of the r = 80 circle, rounded). */
  const ArcLength: real := 502.0

  datatype Band = ExtremeGreed | Greed | Neutral | Fear | ExtremeFear

  /** The five bands as intervals: (75, ∞), (55, 75], (45, 55], (25, 45], (−∞, 25]. */
  predicate InBand(b: Band, v: real)
  {
    match b
    case ExtremeGreed => v > 75.0
    case Greed => 55.0 < v <= 75.0
    case Neutral => 45.0 < v <= 55.0
    case Fear => 25.0 < v <= 45.0
    case ExtremeFear => v <= 25.0
  }

  function BandLabel(b: Band): string
  {
    match b
    case ExtremeGreed => "Extreme Greed"
    case Greed => "Greed"
    case Neutral => "Neutral"
    case Fear => "Fear"
    case ExtremeFear => "Extreme Fear"
  }

  function BandColor(b: Band): string
  {
    match b
    case ExtremeGreed => "#10b981"
    case Greed => "#3b82f6"
    case Neutral => "#f59e0b"
    case Fear => "#f97316"
    case ExtremeFear => "#ef4444"
  }

  /** `label`: the nested conditional over the thresholds 75, 55, 45, 25. */
  function Label(v: real): (r: string)
    ensures forall b :: InBand(b, v) ==> r == BandLabel(b)
  {
    if v > 75.0 then "Extreme Greed"
    else if v > 55.0 then "Greed"
    else if v > 45.0 then "Neutral"
    else if v > 25.0 then "Fear"
    else "Extreme Fear"
  }

  /** `getColor`: the if-chain over the same thresholds in the same order. */
  function Color(v: real): (r: string)
    ensures forall b :: InBand(b, v) ==> r == BandColor(b)
  {
    if v > 75.0 then "#10b981"
    else if v > 55.0 then "#3b82f6"
    else if v > 45.0 then "#f59e0b"
    else if v > 25.0 then "#f97316"
    else "#ef4444"
  }

  /** Every value lies in exactly one band. */
  lemma BandsPartition(v: real)
    ensures exists b :: InBand(b, v)
    ensures forall b1, b2 :: InBand(b1, v) && InBand(b2, v) ==> b1 == b2
  {
    if v > 75.0 { assert InBand(ExtremeGreed, v); }
    else if v > 55.0 { assert InBand(Greed, v); }
    else if v > 45.0 { assert InBand(Neutral, v); }
    else if v > 25.0 { assert InBand(Fear, v); }
    else { assert InBand(ExtremeFear, v); }
  }

  /** Labels and colours are both one-to-one on bands, so a label always comes
      with the same colour: two values with the same label have the same colour
      and two values with different labels have different colours. */
  lemma LabelDeterminesColor(v1: real, v2: real)
    ensures Label(v1) == Label(v2) <==> Color(v1) == Color(v2)
  {
    BandsPartition(v1);
    BandsPartition(v2);
  }

  /** The dash length of the coloured arc: the value as a share of 100, times the arc. */
  function DashLength(v: real): (r: real)
    ensures 0.0 <= v <= 100.0 ==> 0.0 <= r <= ArcLength
    ensures v == 100.0 ==> r == ArcLength
  {
    v / 100.0 * ArcLength
  }

  /** A larger value never draws a shorter arc. */
  lemma DashLengthMonotone(v1: real, v2: real)
    requires v1 <= v2
    ensures DashLength(v1) <= DashLength(v2)
  {
  }

  /** The gauge as shipped: 70 reads "Greed" in blue. */
  lemma ShippedGauge()
    ensures Label(GaugeValue) == "Greed" && Color(GaugeValue) == "#3b82f6"
    ensures InBand(Greed, GaugeValue)
  {
  }
}
