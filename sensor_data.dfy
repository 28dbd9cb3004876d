/**
  The live aggregate feed hook (src/hooks/useSensorData.ts). Every delivery of
  the "last N records" query recomputes the current reading, its status, the
  chart series and the newest-first history list from the records in key
  order. The query itself (`onValue`, `limitToLast`) is not modelled: a
  delivery is an `Option` of the records, `None` when `snapshot.val()` is
  empty.
 */
module SensorData {
  import opened Wrappers
  import opened Seqs
  import opened Decimal

  /** One stored reading. */
  datatype SensorRecord = SensorRecord(
    temperature: real,
    alarmStatus: string,
    messageId: Option<int>,
    timestamp: Option<int>,
    readInterval: Option<real>)

  /** The status shown before any snapshot arrived. */
  const LoadingStatus := "Loading..."

  /** The status a present snapshot without entries yields. */
  const OfflineStatus := "Offline"

  /**
    The body of the `onValue` callback for present data: one pass over the
    records collecting temperatures, 1-based labels and the raw list, keeping
    the last record's temperature and status, then reversing the raw list in
    place.
   */
  method DeriveSnapshot(records: seq<SensorRecord>)
    returns (latestTemp: real, latestStatus: string, labels: seq<string>, temps: seq<real>, history: seq<SensorRecord>)
    ensures |temps| == |records| && forall i :: 0 <= i < |records| ==> temps[i] == records[i].temperature
    ensures |labels| == |records| && forall i :: 0 <= i < |records| ==> labels[i] == NatToString(i + 1)
    ensures records == [] ==> latestTemp == 0.0 && latestStatus == OfflineStatus
    ensures records != [] ==>
      latestTemp == records[|records| - 1].temperature && latestStatus == records[|records| - 1].alarmStatus
    ensures history == Reversed(records)
  {
    temps, labels := [], [];
    var rawList := new SensorRecord[|records|];
    latestTemp, latestStatus := 0.0, OfflineStatus;
    var index := 0;
    while index < |records|
      invariant 0 <= index <= |records|
      invariant temps == seq(index, i requires 0 <= i < index => records[i].temperature)
      invariant labels == seq(index, i requires 0 <= i < index => NatToString(i + 1))
      invariant rawList[..index] == records[..index]
      invariant index == 0 ==> latestTemp == 0.0 && latestStatus == OfflineStatus
      invariant index > 0 ==>
        latestTemp == records[index - 1].temperature && latestStatus == records[index - 1].alarmStatus
    {
      var entry := records[index];
      temps := temps + [entry.temperature];
      labels := labels + [NatToString(index + 1)];
      latestTemp := entry.temperature;
      latestStatus := entry.alarmStatus;
      rawList[index] := entry;
      index := index + 1;
    }
    assert rawList[..] == records;
    ReverseInPlace(rawList);
    history := rawList[..];
  }

  /** The newest record heads the history list, the oldest ends it. */
  lemma HistoryNewestFirst(records: seq<SensorRecord>, k: nat)
    requires k < |records|
    ensures |Reversed(records)| == |records|
    ensures Reversed(records)[k] == records[|records| - 1 - k]
    ensures Reversed(records)[0] == records[|records| - 1]
  {
    ReversedAt(records, k);
    ReversedAt(records, 0);
  }

  /** The chart label at position `i` reads as the number `i + 1`. */
  lemma LabelReadsAsPosition(i: nat)
    ensures DecimalValue(NatToString(i + 1)) == i + 1
  {
    NatToStringRoundTrip(i + 1);
  }

  /** The five values the hook exposes. */
  class SensorFeed {
    var currentTemp: real
    var systemStatus: string
    var chartLabels: seq<string>
    var chartValues: seq<real>
    var historyList: seq<SensorRecord>

    constructor ()
      ensures currentTemp == 0.0 && systemStatus == LoadingStatus
      ensures chartLabels == [] && chartValues == [] && historyList == []
    {
      currentTemp := 0.0;
      systemStatus := LoadingStatus;
      chartLabels := [];
      chartValues := [];
      historyList := [];
    }

    /**
      One snapshot delivery. Absent data leaves all five values as they were;
      present data replaces all five from the records.
     */
    method OnValue(data: Option<seq<SensorRecord>>)
      modifies this
      ensures data.None? ==>
        && currentTemp == old(currentTemp) && systemStatus == old(systemStatus)
        && chartLabels == old(chartLabels) && chartValues == old(chartValues)
        && historyList == old(historyList)
      ensures data.Some? ==> var r := data.value;
        && |chartValues| == |r| && (forall i :: 0 <= i < |r| ==> chartValues[i] == r[i].temperature)
        && |chartLabels| == |r| && (forall i :: 0 <= i < |r| ==> chartLabels[i] == NatToString(i + 1))
        && historyList == Reversed(r)
        && (r == [] ==> currentTemp == 0.0 && systemStatus == OfflineStatus)
        && (r != [] ==> currentTemp == r[|r| - 1].temperature && systemStatus == r[|r| - 1].alarmStatus)
    {
      if data.Some? {
        var latestTemp, latestStatus, labels, temps, rawList := DeriveSnapshot(data.value);
        currentTemp := latestTemp;
        systemStatus := latestStatus;
        chartLabels := labels;
        chartValues := temps;
        historyList := rawList;
      }
    }
  }
}
