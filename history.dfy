/**
  The history table's two cell formatters (src/pages/History.tsx): the
  evaluation column against the thresholds, and the colour of the alarm
  status chip.
 */
module History {
  import opened Wrappers

  const HotText := "\U{1F525} HOT"
  const ColdText := "\U{2744}\U{FE0F} COLD"
  const IdealText := "\U{2705} IDEAL"
  const MissingText := "\U{2014}"

  /**
    `formatEvaluation`. Only a missing temperature gives the dash (0 is a
    temperature); above the maximum wins over below the minimum; the
    thresholds themselves count as ideal.
   */
  function FormatEvaluation(minTemp: real, maxTemp: real, temp: Option<real>): (r: string)
    ensures r == MissingText <==> temp.None?
    ensures r == HotText <==> temp.Some? && temp.value > maxTemp
    ensures r == ColdText <==> temp.Some? && temp.value <= maxTemp && temp.value < minTemp
    ensures r == IdealText <==> temp.Some? && minTemp <= temp.value <= maxTemp
  {
    if temp.None? then MissingText
    else if temp.value > maxTemp then HotText
    else if temp.value < minTemp then ColdText
    else IdealText
  }

  /** `statusChipColor`: 'default' for a missing or empty status, 'warning' for INACTIVE, else 'success'. */
  function StatusChipColor(status: Option<string>): (r: string)
    ensures r == "default" <==> status.None? || status.value == ""
    ensures r == "warning" <==> status == Some("INACTIVE")
    ensures r == "success" <==> status.Some? && status.value != "" && status.value != "INACTIVE"
  {
    if status.None? || status.value == "" then "default"
    else if status.value == "INACTIVE" then "warning"
    else "success"
  }
}
