/**
  The dashboard's card colours (src/pages/Dashboard.tsx): the temperature
  card by thresholds (grey while the settings are loading), and the alert
  card by the alarm status.
 */
module Dashboard {

  const LoadingColor := "#e2e3e5"
  const HotColor := "#ffcccc"
  const ColdColor := "#ccf2ff"
  const IdealColor := "#d4edda"
  const InactiveAlertColor := "#fff3cd"
  const NormalAlertColor := "#e2e3e5"

  /** `getStatusColor`: loading first, then hot, then cold, else ideal. */
  function GetStatusColor(loading: bool, minTemp: real, maxTemp: real, temp: real): (r: string)
    ensures loading ==> r == LoadingColor
    ensures r == HotColor <==> !loading && temp > maxTemp
    ensures r == ColdColor <==> !loading && temp <= maxTemp && temp < minTemp
    ensures r == IdealColor <==> !loading && minTemp <= temp <= maxTemp
  {
    if loading then LoadingColor
    else if temp > maxTemp then HotColor
    else if temp < minTemp then ColdColor
    else IdealColor
  }

  /** The alert card is highlighted exactly for the INACTIVE status. */
  function AlertColor(systemStatus: string): (r: string)
    ensures r == InactiveAlertColor <==> systemStatus == "INACTIVE"
    ensures r == NormalAlertColor <==> systemStatus != "INACTIVE"
  {
    if systemStatus == "INACTIVE" then InactiveAlertColor else NormalAlertColor
  }
}
