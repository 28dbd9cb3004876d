/**
  The three pages classify a temperature against the same two thresholds,
  each with its own `if` chain (Home.tsx, History.tsx, Dashboard.tsx). This
  module states that the three chains always agree.
 */
module Thresholds {
  import opened Wrappers
  import Home
  import History
  import Dashboard

  /** The band a present temperature falls in, hot taking precedence. */
  datatype Band = Hot | Cold | Ideal

  function BandOf(temp: real, minTemp: real, maxTemp: real): Band {
    if temp > maxTemp then Hot else if temp < minTemp then Cold else Ideal
  }

  function HomeKey(b: Band): Home.StatusKey {
    match b
    case Hot => Home.Hot
    case Cold => Home.Cold
    case Ideal => Home.Ideal
  }

  function HistoryText(b: Band): string {
    match b
    case Hot => History.HotText
    case Cold => History.ColdText
    case Ideal => History.IdealText
  }

  function DashboardColor(b: Band): string {
    match b
    case Hot => Dashboard.HotColor
    case Cold => Dashboard.ColdColor
    case Ideal => Dashboard.IdealColor
  }

  /** For a present temperature, and once the settings have loaded, the pages name the same band. */
  lemma PagesAgree(temp: real, minTemp: real, maxTemp: real)
    ensures Home.ClassifyAverage(Some(temp), minTemp, maxTemp) == HomeKey(BandOf(temp, minTemp, maxTemp))
    ensures History.FormatEvaluation(minTemp, maxTemp, Some(temp)) == HistoryText(BandOf(temp, minTemp, maxTemp))
    ensures Dashboard.GetStatusColor(false, minTemp, maxTemp, temp) == DashboardColor(BandOf(temp, minTemp, maxTemp))
  {
  }

  /** With inverted thresholds (min above max) a temperature between them is hot on every page. */
  lemma InvertedThresholdsHotWins(temp: real, minTemp: real, maxTemp: real)
    requires maxTemp < temp < minTemp
    ensures Home.ClassifyAverage(Some(temp), minTemp, maxTemp) == Home.Hot
    ensures History.FormatEvaluation(minTemp, maxTemp, Some(temp)) == History.HotText
    ensures Dashboard.GetStatusColor(false, minTemp, maxTemp, temp) == Dashboard.HotColor
  {
  }
}
