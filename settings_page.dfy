/**
  The settings page (src/pages/Settings.tsx): the threshold form, the one-off
  fetch that fills it, save and reset-to-defaults, and the severity of the
  status message. Every store call (`get`, `set`) is not modelled: its
  outcome is a parameter, and each async handler is split at its `await`
  into a Begin method (the state while the write is in flight, returning the
  document to write) and a Complete method (the `try`/`catch`/`finally`).
 */
module SettingsPage {
  import opened Wrappers

  const DefaultMin: real := 21.0
  const DefaultMax: real := 27.0

  const SuccessMark: char := '\U{2705}'
  const FailureMark: char := '\U{274C}'

  const LoadFailedMessage := [FailureMark] + " Failed to load settings."
  const SavingMessage := "Saving..."
  const SavedMessage := [SuccessMark] + " Settings updated! Pico will apply them in the next cycle."
  const SaveFailedMessage := [FailureMark] + " An error occurred."
  const ResettingMessage := "Resetting to defaults..."
  const ResetMessage := [SuccessMark] + " Defaults restored."
  const ResetFailedMessage := [FailureMark] + " Failed to reset defaults."

  datatype Severity = Success | Error | Info

  /** `messageSeverity`: by the first character, a check mark before a cross. */
  function MessageSeverity(msg: string): (r: Severity)
    ensures r == Success <==> |msg| > 0 && msg[0] == SuccessMark
    ensures r == Error <==> |msg| > 0 && msg[0] == FailureMark
    ensures r == Info <==> msg == [] || (msg[0] != SuccessMark && msg[0] != FailureMark)
  {
    if [SuccessMark] <= msg then Success
    else if [FailureMark] <= msg then Error
    else Info
  }

  /** Every message the page sets is shown with the severity its wording implies. */
  lemma MessagesHaveTheirSeverity()
    ensures MessageSeverity(SavedMessage) == Success && MessageSeverity(ResetMessage) == Success
    ensures MessageSeverity(LoadFailedMessage) == Error && MessageSeverity(SaveFailedMessage) == Error
    ensures MessageSeverity(ResetFailedMessage) == Error
    ensures MessageSeverity(SavingMessage) == Info && MessageSeverity(ResettingMessage) == Info
    ensures MessageSeverity("") == Info
  {
    assert SavedMessage[0] == SuccessMark;
    assert ResetMessage[0] == SuccessMark;
    assert LoadFailedMessage[0] == FailureMark;
    assert SaveFailedMessage[0] == FailureMark;
    assert ResetFailedMessage[0] == FailureMark;
    assert SavingMessage[0] == 'S';
    assert ResettingMessage[0] == 'R';
  }

  /**
    What `get` delivered for the settings document: each threshold is
    `Some` exactly when the stored field is a number.
   */
  datatype StoredThresholds = StoredThresholds(minTemp: Option<real>, maxTemp: Option<real>)

  /** The outcome of the fetch: an error, or a snapshot that may not exist. */
  datatype FetchOutcome = FetchFailed | Fetched(doc: Option<StoredThresholds>)

  /** The document `set` writes (the clock's `updated_at` is a parameter). */
  datatype SettingsWrite = SettingsWrite(minTemp: real, maxTemp: real, updatedAt: int)

  class SettingsForm {
    var minTemp: real
    var maxTemp: real
    var loading: bool
    var saving: bool
    var message: string

    constructor ()
      ensures minTemp == DefaultMin && maxTemp == DefaultMax
      ensures loading && !saving && message == ""
    {
      minTemp, maxTemp := DefaultMin, DefaultMax;
      loading, saving := true, false;
      message := "";
    }

    /**
      `fetchSettings` after its `await`: numeric stored thresholds replace the
      form's values, anything else keeps them; a failed fetch sets the error
      message; loading ends either way.
     */
    method CompleteFetch(outcome: FetchOutcome)
      modifies this
      ensures !loading && saving == old(saving)
      ensures outcome.Fetched? && outcome.doc.Some? && outcome.doc.value.minTemp.Some? ==>
        minTemp == outcome.doc.value.minTemp.value
      ensures !(outcome.Fetched? && outcome.doc.Some? && outcome.doc.value.minTemp.Some?) ==>
        minTemp == old(minTemp)
      ensures outcome.Fetched? && outcome.doc.Some? && outcome.doc.value.maxTemp.Some? ==>
        maxTemp == outcome.doc.value.maxTemp.value
      ensures !(outcome.Fetched? && outcome.doc.Some? && outcome.doc.value.maxTemp.Some?) ==>
        maxTemp == old(maxTemp)
      ensures message == if outcome.FetchFailed? then LoadFailedMessage else old(message)
    {
      match outcome {
        case FetchFailed =>
          message := LoadFailedMessage;
        case Fetched(doc) =>
          if doc.Some? {
            if doc.value.minTemp.Some? { minTemp := doc.value.minTemp.value; }
            if doc.value.maxTemp.Some? { maxTemp := doc.value.maxTemp.value; }
          }
      }
      loading := false;
    }

    /** An edit of the minimum field. */
    method SetMinTemp(value: real)
      modifies this
      ensures minTemp == value
      ensures maxTemp == old(maxTemp) && loading == old(loading) && saving == old(saving) && message == old(message)
    {
      minTemp := value;
    }

    /** An edit of the maximum field. */
    method SetMaxTemp(value: real)
      modifies this
      ensures maxTemp == value
      ensures minTemp == old(minTemp) && loading == old(loading) && saving == old(saving) && message == old(message)
    {
      maxTemp := value;
    }

    /** `handleSave` up to its `await`: returns the document written, the form's thresholds. */
    method BeginSave(now: int) returns (write: SettingsWrite)
      modifies this
      ensures write == SettingsWrite(minTemp, maxTemp, now)
      ensures saving && message == SavingMessage
      ensures minTemp == old(minTemp) && maxTemp == old(maxTemp) && loading == old(loading)
    {
      saving := true;
      message := SavingMessage;
      write := SettingsWrite(minTemp, maxTemp, now);
    }

    /** `handleSave` after its `await`: the thresholds stay; the message reports the outcome. */
    method CompleteSave(writeOk: bool)
      modifies this
      ensures !saving
      ensures message == if writeOk then SavedMessage else SaveFailedMessage
      ensures MessageSeverity(message) == if writeOk then Success else Error
      ensures minTemp == old(minTemp) && maxTemp == old(maxTemp) && loading == old(loading)
    {
      if writeOk {
        message := SavedMessage;
      } else {
        message := SaveFailedMessage;
      }
      saving := false;
      MessagesHaveTheirSeverity();
    }

    /** `handleResetDefaults` up to its `await`: returns the default document to write. */
    method BeginResetDefaults(now: int) returns (write: SettingsWrite)
      modifies this
      ensures write == SettingsWrite(DefaultMin, DefaultMax, now)
      ensures saving && message == ResettingMessage
      ensures minTemp == old(minTemp) && maxTemp == old(maxTemp) && loading == old(loading)
    {
      saving := true;
      message := ResettingMessage;
      write := SettingsWrite(DefaultMin, DefaultMax, now);
    }

    /** `handleResetDefaults` after its `await`: the form shows the defaults only if the write succeeded. */
    method CompleteResetDefaults(writeOk: bool)
      modifies this
      ensures !saving && loading == old(loading)
      ensures writeOk ==> minTemp == DefaultMin && maxTemp == DefaultMax && message == ResetMessage
      ensures !writeOk ==> minTemp == old(minTemp) && maxTemp == old(maxTemp) && message == ResetFailedMessage
      ensures MessageSeverity(message) == if writeOk then Success else Error
    {
      if writeOk {
        minTemp := DefaultMin;
        maxTemp := DefaultMax;
        message := ResetMessage;
      } else {
        message := ResetFailedMessage;
      }
      saving := false;
      MessagesHaveTheirSeverity();
    }
  }
}
