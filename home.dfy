/**
  The home page's comfort classification (src/pages/Home.tsx): the mean of
  the chart readings, a hot / cold / ideal / no-data key against the
  configured thresholds (hot checked first), and the label shown for it.
  Temperatures and thresholds are only compared, so they are `real`.
 */
module Home {
  import opened Wrappers

  datatype StatusKey = Hot | Cold | Ideal | NoData

  /** What the page shows for a key. */
  datatype StatusDisplay = StatusDisplay(caption: string, color: string, emoji: string)

  function RealSum(values: seq<real>): real {
    if values == [] then 0.0 else values[0] + RealSum(values[1..])
  }

  /**
    `averageTemp`: no average for no readings, else their mean. The page
    formats it with `toFixed(1)` and classifies the formatted value; that
    rounding is not modelled, so `ClassifyAverage` takes the average as given.
   */
  function AverageTemp(values: seq<real>): (r: Option<real>)
    ensures r.None? <==> values == []
    ensures r.Some? ==> r.value * (|values| as real) == RealSum(values)
  {
    if |values| == 0 then None else Some(RealSum(values) / (|values| as real))
  }

  /**
    `statusKey`. No average means no data; an average of exactly 0 is still
    classified. Above the maximum is hot even when it is also below the
    minimum; below the minimum otherwise is cold; the range between is ideal,
    both bounds included.
   */
  function ClassifyAverage(average: Option<real>, minTemp: real, maxTemp: real): (k: StatusKey)
    ensures k == NoData <==> average.None?
    ensures k == Hot <==> average.Some? && average.value > maxTemp
    ensures k == Cold <==> average.Some? && average.value <= maxTemp && average.value < minTemp
    ensures k == Ideal <==> average.Some? && minTemp <= average.value <= maxTemp
  {
    if average.None? then NoData
    else
      var temp := average.value;
      if temp > maxTemp then Hot
      else if temp < minTemp then Cold
      else Ideal
  }

  /** `status`: the label, chip colour and emoji for a key. */
  function Status(k: StatusKey): (d: StatusDisplay)
    ensures d.caption == "Very Hot" <==> k == Hot
    ensures d.caption == "Cold" <==> k == Cold
    ensures d.caption == "Ideal Comfort" <==> k == Ideal
    ensures d.caption == "No Data" <==> k == NoData
  {
    match k
    case Hot => StatusDisplay("Very Hot", "error", "\U{1F525}")
    case Cold => StatusDisplay("Cold", "info", "\U{2744}\U{FE0F}")
    case Ideal => StatusDisplay("Ideal Comfort", "success", "\U{1F33F}")
    case NoData => StatusDisplay("No Data", "default", "\U{2014}")
  }

  /** With no readings the page says "No Data". */
  lemma NoReadingsNoData(minTemp: real, maxTemp: real)
    ensures Status(ClassifyAverage(AverageTemp([]), minTemp, maxTemp)).caption == "No Data"
  {
  }

  /** An average of 0 is a reading like any other. */
  lemma ZeroAverageClassified(minTemp: real, maxTemp: real)
    ensures ClassifyAverage(Some(0.0), minTemp, maxTemp) != NoData
  {
  }
}
