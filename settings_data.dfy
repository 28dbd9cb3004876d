/**
  The settings hook (src/hooks/useSettingsData.ts): thresholds and read
  interval kept in step with the stored settings document. The live query
  is not modelled; a delivery is an `Option` of the document, `None` when
  `snapshot.val()` is empty.
 */
module SettingsData {
  import opened Wrappers

  const DefaultMinTemp: real := 21.0
  const DefaultMaxTemp: real := 27.0
  const DefaultReadInterval: real := 1.0

  /** The stored document's fields the hook reads. */
  datatype SettingsDoc = SettingsDoc(minTemp: real, maxTemp: real, readInterval: Option<real>)

  /** `read_interval || 1`: a missing or zero interval reads as 1. */
  function ReadIntervalOrDefault(stored: Option<real>): (r: real)
    ensures r != 0.0
    ensures stored.Some? && stored.value != 0.0 ==> r == stored.value
    ensures stored.None? || stored.value == 0.0 ==> r == DefaultReadInterval
  {
    if stored.Some? && stored.value != 0.0 then stored.value else DefaultReadInterval
  }

  class SettingsFeed {
    var minTemp: real
    var maxTemp: real
    var loading: bool
    var readInterval: real

    /** The interval the hook exposes is never 0: the default is 1 and every delivery is defaulted. */
    predicate Valid()
      reads this
    {
      readInterval != 0.0
    }

    constructor ()
      ensures Valid()
      ensures minTemp == DefaultMinTemp && maxTemp == DefaultMaxTemp
      ensures loading && readInterval == DefaultReadInterval
    {
      minTemp, maxTemp := DefaultMinTemp, DefaultMaxTemp;
      loading := true;
      readInterval := DefaultReadInterval;
    }

    /** One delivery: present data replaces the three values; loading ends on every delivery. */
    method OnValue(data: Option<SettingsDoc>)
      requires Valid()
      modifies this
      ensures Valid()
      ensures !loading
      ensures data.Some? ==> minTemp == data.value.minTemp && maxTemp == data.value.maxTemp
      ensures data.Some? ==> readInterval == ReadIntervalOrDefault(data.value.readInterval)
      ensures data.None? ==> minTemp == old(minTemp) && maxTemp == old(maxTemp) && readInterval == old(readInterval)
    {
      if data.Some? {
        minTemp := data.value.minTemp;
        maxTemp := data.value.maxTemp;
        readInterval := ReadIntervalOrDefault(data.value.readInterval);
      }
      loading := false;
    }
  }
}
