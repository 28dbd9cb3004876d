/**
  The evaluation page (src/pages/Evaluation.tsx): a per-session message
  counter that restarts when the device's declared sampling interval changes,
  the inter-arrival latency series derived from the MQTT buffer, its rounded
  mean, and the two chart series.

  React's scheduling is not modelled: the session effect is one explicit step
  per change of the buffer, and the clock (`Date.now()`) is a parameter.
 */
module Evaluation {
  import opened Wrappers
  import opened Seqs
  import opened MqttData

  /** `DEFAULT_READ_INTERVAL`, in seconds. */
  const DefaultReadInterval: real := 2.0

  /** The page subscribes with `useMqttData(100)`. */
  const BufferLimit: nat := 100

  /** `latestPacket.interval || DEFAULT_READ_INTERVAL`: a missing or zero interval falls back to 2. */
  function EffectiveInterval(p: Packet): (r: real)
    ensures r != 0.0
    ensures p.interval.Some? && p.interval.value != 0.0 ==> r == p.interval.value
    ensures p.interval.None? || p.interval.value == 0.0 ==> r == DefaultReadInterval
  {
    if p.interval.Some? && p.interval.value != 0.0 then p.interval.value else DefaultReadInterval
  }

  // ---------------------------------------------------------------------------
  // Session counting
  // ---------------------------------------------------------------------------

  /** `sessionCount`, `currentInterval`, `sessionStartTime` and the `lastProcessedMsgId` ref. */
  datatype Session = Session(count: nat, currentInterval: real, startTime: int, lastMsgId: Option<int>)

  /** The state at mount: no messages, the default interval, no id seen. */
  function InitialSession(now: int): Session {
    Session(0, DefaultReadInterval, now, None)
  }

  /**
    One run of the session effect over the buffer `history` (newest first).
    Only the head is looked at. A head whose effective interval differs from
    the session's starts a new session that already counts the head; otherwise
    the count goes up exactly when the head's id is not the last one counted.
   */
  function SessionStep(s: Session, history: seq<Packet>, now: int): (r: Session)
    ensures history == [] ==> r == s
    ensures history != [] ==> r.currentInterval == EffectiveInterval(history[0])
    ensures history != [] ==> r.lastMsgId == Some(history[0].msgId)
    ensures r.currentInterval != s.currentInterval ==> r.count == 1 && r.startTime == now
    ensures r.currentInterval == s.currentInterval ==>
      r.startTime == s.startTime && r.count == s.count + (if r.lastMsgId != s.lastMsgId then 1 else 0)
  {
    if history == [] then s
    else
      var latest := history[0];
      var packetInterval := EffectiveInterval(latest);
      if packetInterval != s.currentInterval then
        Session(1, packetInterval, now, Some(latest.msgId))
      else if s.lastMsgId != Some(latest.msgId) then
        s.(count := s.count + 1, lastMsgId := Some(latest.msgId))
      else
        s
  }

  /**
    Re-running the effect on the same buffer changes nothing, whatever the
    clock says: a repeated head is not counted twice, and the re-run that the
    `currentInterval` change itself triggers does not count again.
   */
  lemma SessionStepIdempotent(s: Session, history: seq<Packet>, now: int, later: int)
    ensures SessionStep(SessionStep(s, history, now), history, later) == SessionStep(s, history, now)
  {
  }

  /** Only the head of the buffer matters; older packets are never diffed. */
  lemma SessionStepHeadOnly(s: Session, history: seq<Packet>, now: int)
    requires history != []
    ensures SessionStep(s, history, now) == SessionStep(s, history[..1], now)
  {
  }

  /** Resetting the device to its defaults in the session counters (`handleResetDefaults`). */
  function ResetSession(s: Session, now: int): (r: Session)
    ensures r.count == 0 && r.startTime == now
    ensures r.currentInterval == s.currentInterval && r.lastMsgId == s.lastMsgId
  {
    s.(count := 0, startTime := now)
  }

  /**
    After a reset the last counted id is kept, so the first packet of the
    unchanged interval counts 1, unless it repeats that id (a retained
    message), in which case the count stays 0.
   */
  lemma ArrivalAfterReset(s: Session, p: Packet, limit: nat, now: int, later: int)
    requires limit >= 1
    requires EffectiveInterval(p) == s.currentInterval
    ensures SessionStep(ResetSession(s, now), PushUpdate([], p, limit), later).count ==
      if s.lastMsgId == Some(p.msgId) then 0 else 1
  {
    assert PushUpdate([], p, limit)[0] == p;
  }

  // ---------------------------------------------------------------------------
  // Replaying a stream of arrivals
  // ---------------------------------------------------------------------------

  /** The MQTT buffer together with the session state derived from it. */
  datatype Monitor = Monitor(buffer: seq<Packet>, session: Session)

  /** A packet arrives: it is pushed, then the session effect runs on the new buffer. */
  function Arrive(m: Monitor, p: Packet, limit: nat, now: int): Monitor {
    var buffer := PushUpdate(m.buffer, p, limit);
    Monitor(buffer, SessionStep(m.session, buffer, now))
  }

  /** The monitor after the arrivals `ps`, in order (the clock is held at `now`). */
  function Replay(m: Monitor, ps: seq<Packet>, limit: nat, now: int): Monitor
    decreases |ps|
  {
    if ps == [] then m else Replay(Arrive(m, ps[0], limit, now), ps[1..], limit, now)
  }

  /** The session count observed after each arrival. */
  function CountTrace(m: Monitor, ps: seq<Packet>, limit: nat, now: int): seq<nat>
    decreases |ps|
  {
    if ps == [] then []
    else
      var m' := Arrive(m, ps[0], limit, now);
      [m'.session.count] + CountTrace(m', ps[1..], limit, now)
  }

  /** How many arrivals carry an id other than that of the arrival just before (starting from `last`). */
  function IdChanges(last: Option<int>, ps: seq<Packet>): nat
    decreases |ps|
  {
    if ps == [] then 0
    else (if last != Some(ps[0].msgId) then 1 else 0) + IdChanges(Some(ps[0].msgId), ps[1..])
  }

  /**
    While the declared interval does not change, the session count goes up by
    exactly one per arrival whose id differs from the one before it, and never
    for a repeated id.
   */
  lemma {:induction false} CountWithinSession(m: Monitor, ps: seq<Packet>, limit: nat, now: int)
    requires limit >= 1
    requires forall i :: 0 <= i < |ps| ==> EffectiveInterval(ps[i]) == m.session.currentInterval
    ensures Replay(m, ps, limit, now).session.count == m.session.count + IdChanges(m.session.lastMsgId, ps)
    ensures Replay(m, ps, limit, now).session.currentInterval == m.session.currentInterval
    ensures ps != [] ==> Replay(m, ps, limit, now).session.lastMsgId == Some(ps[|ps| - 1].msgId)
    decreases |ps|
  {
    if ps != [] {
      var m' := Arrive(m, ps[0], limit, now);
      assert m'.buffer[0] == ps[0];
      assert m'.session.lastMsgId == Some(ps[0].msgId);
      CountWithinSession(m', ps[1..], limit, now);
      if |ps| > 1 {
        assert ps[1..][|ps[1..]| - 1] == ps[|ps| - 1];
      }
    }
  }

  /**
    A packet declaring a new interval starts a session whose count is one
    plus the id changes among the following packets of that interval.
   */
  lemma CountAfterIntervalChange(m: Monitor, ps: seq<Packet>, limit: nat, now: int)
    requires limit >= 1 && ps != []
    requires EffectiveInterval(ps[0]) != m.session.currentInterval
    requires forall i :: 0 <= i < |ps| ==> EffectiveInterval(ps[i]) == EffectiveInterval(ps[0])
    ensures Replay(m, ps, limit, now).session.count == 1 + IdChanges(Some(ps[0].msgId), ps[1..])
    ensures Replay(m, ps, limit, now).session.currentInterval == EffectiveInterval(ps[0])
  {
    var m' := Arrive(m, ps[0], limit, now);
    assert m'.buffer[0] == ps[0];
    CountWithinSession(m', ps[1..], limit, now);
  }

  /** Two deliveries of the same packet within a session count at most once in total. */
  lemma DuplicateCountedOnce(m: Monitor, p: Packet, limit: nat, now: int)
    requires limit >= 1
    requires EffectiveInterval(p) == m.session.currentInterval
    ensures Replay(m, [p, p], limit, now).session.count <= m.session.count + 1
  {
    CountWithinSession(m, [p, p], limit, now);
    assert [p, p][1..] == [p];
    assert IdChanges(Some(p.msgId), [p]) == 0;
  }

  /**
    Only a consecutive repeat is ignored: within one session the ids a, b, a
    (with a != b) raise the count by three when the session last saw neither.
   */
  lemma NonConsecutiveRepeat(m: Monitor, a: Packet, b: Packet, limit: nat, now: int)
    requires limit >= 1
    requires a.msgId != b.msgId && m.session.lastMsgId != Some(a.msgId)
    requires EffectiveInterval(a) == m.session.currentInterval && EffectiveInterval(b) == m.session.currentInterval
    ensures Replay(m, [a, b, a], limit, now).session.count == m.session.count + 3
  {
    CountWithinSession(m, [a, b, a], limit, now);
    assert [a, b, a][1..] == [b, a];
    assert [b, a][1..] == [a];
    assert [a][1..] == [];
    assert IdChanges(Some(a.msgId), []) == 0;
    assert IdChanges(Some(b.msgId), [a]) == 1;
    assert IdChanges(Some(a.msgId), [b, a]) == 2;
    assert IdChanges(m.session.lastMsgId, [a, b, a]) == 3;
  }

  /** A packet with the given declared interval and id (the other fields do not matter here). */
  function Sample(interval: real, msgId: int): Packet {
    Packet(22.0, msgId, 1000 * msgId, Some(interval))
  }

  /** Intervals 2, 2, 2, 5, 5 with distinct ids, from the mount state, give counts 1, 2, 3, 1, 2. */
  lemma IntervalChangeTrace(now: int)
    ensures var ps := [Sample(2.0, 1), Sample(2.0, 2), Sample(2.0, 3), Sample(5.0, 4), Sample(5.0, 5)];
      CountTrace(Monitor([], InitialSession(now)), ps, BufferLimit, now) == [1, 2, 3, 1, 2] &&
      Replay(Monitor([], InitialSession(now)), ps, BufferLimit, now).session.currentInterval == 5.0
  {
    var ps := [Sample(2.0, 1), Sample(2.0, 2), Sample(2.0, 3), Sample(5.0, 4), Sample(5.0, 5)];
    var m0 := Monitor([], InitialSession(now));
    var m1 := Arrive(m0, ps[0], BufferLimit, now);
    var m2 := Arrive(m1, ps[1], BufferLimit, now);
    var m3 := Arrive(m2, ps[2], BufferLimit, now);
    var m4 := Arrive(m3, ps[3], BufferLimit, now);
    var m5 := Arrive(m4, ps[4], BufferLimit, now);
    assert m1.session.count == 1;
    assert m2.session.count == 2;
    assert m3.session.count == 3;
    assert m4.session.count == 1 && m4.session.currentInterval == 5.0;
    assert m5.session.count == 2;
    assert ps[1..][1..][1..][1..][1..] == [];
    assert CountTrace(m4, ps[4..], BufferLimit, now) == [2];
    assert CountTrace(m3, ps[3..], BufferLimit, now) == [1, 2];
    assert CountTrace(m2, ps[2..], BufferLimit, now) == [3, 1, 2];
    assert CountTrace(m1, ps[1..], BufferLimit, now) == [2, 3, 1, 2];
    assert Replay(m4, ps[4..], BufferLimit, now) == m5;
    assert Replay(m0, ps, BufferLimit, now) == Replay(m1, ps[1..], BufferLimit, now);
    assert Replay(m1, ps[1..], BufferLimit, now) == Replay(m2, ps[2..], BufferLimit, now);
    assert Replay(m2, ps[2..], BufferLimit, now) == Replay(m3, ps[3..], BufferLimit, now);
    assert Replay(m3, ps[3..], BufferLimit, now) == Replay(m4, ps[4..], BufferLimit, now);
  }

  // ---------------------------------------------------------------------------
  // Latency (jitter)
  // ---------------------------------------------------------------------------

  /** Differences between consecutive packets of a newest-first buffer, newest pair first. */
  function Diffs(history: seq<Packet>): (r: seq<int>)
    ensures |history| < 2 ==> r == []
    ensures |history| >= 2 ==> |r| == |history| - 1
  {
    if |history| < 2 then []
    else seq(|history| - 1, i requires 0 <= i < |history| - 1 => history[i].timestamp - history[i + 1].timestamp)
  }

  /** `latencyData`: the differences in chart order, oldest pair first. */
  function Latencies(history: seq<Packet>): seq<int> {
    Reversed(Diffs(history))
  }

  /** Entry `k` of the series is the gap between packets `n-2-k` and `n-1-k` of the buffer. */
  lemma LatencyAt(history: seq<Packet>, k: nat)
    requires |history| >= 2 && k < |history| - 1
    ensures |Latencies(history)| == |history| - 1
    ensures Latencies(history)[k] == history[|history| - 2 - k].timestamp - history[|history| - 1 - k].timestamp
  {
    ReversedAt(Diffs(history), k);
  }

  /** Fewer than two packets give no series. */
  lemma LatencyShort(history: seq<Packet>)
    requires |history| < 2
    ensures Latencies(history) == []
  {
  }

  /** Peeling the newest pair off the buffer. */
  lemma DiffsCons(history: seq<Packet>)
    requires |history| >= 3
    ensures Diffs(history) == [history[0].timestamp - history[1].timestamp] + Diffs(history[1..])
  {
    var rest := history[1..];
    var d, e := Diffs(history), [history[0].timestamp - history[1].timestamp] + Diffs(rest);
    assert |d| == |e|;
    forall i | 0 <= i < |d|
      ensures d[i] == e[i]
    {
      if i > 0 {
        assert e[i] == Diffs(rest)[i - 1] == rest[i - 1].timestamp - rest[i].timestamp;
      }
    }
  }

  lemma {:induction false} DiffsTelescope(history: seq<Packet>)
    requires |history| >= 2
    ensures Sum(Diffs(history)) == history[0].timestamp - history[|history| - 1].timestamp
    decreases |history|
  {
    if |history| == 2 {
      var d := Diffs(history);
      assert d[0] == history[0].timestamp - history[1].timestamp;
      assert d[1..] == [];
    } else {
      var rest := history[1..];
      DiffsCons(history);
      var e := [history[0].timestamp - history[1].timestamp] + Diffs(rest);
      assert e[1..] == Diffs(rest);
      DiffsTelescope(rest);
    }
  }

  /** The gaps add up to the span between the newest and the oldest buffered packet. */
  lemma LatencyTelescopes(history: seq<Packet>)
    requires |history| >= 2
    ensures Sum(Latencies(history)) == history[0].timestamp - history[|history| - 1].timestamp
  {
    SumReversed(Diffs(history));
    DiffsTelescope(history);
  }

  /**
    The `latencyData` computation: a loop pushing the newest-first gaps into
    an array, then reversing that array in place.
   */
  method LatencyData(history: seq<Packet>) returns (r: seq<int>)
    ensures r == Latencies(history)
  {
    if |history| < 2 {
      return [];
    }
    var latencies := new int[|history| - 1];
    var i := 0;
    while i < |history| - 1
      invariant 0 <= i <= |history| - 1
      invariant latencies[..i] == Diffs(history)[..i]
    {
      var current := history[i];
      var previous := history[i + 1];
      latencies[i] := current.timestamp - previous.timestamp;
      i := i + 1;
    }
    assert latencies[..] == Diffs(history);
    ReverseInPlace(latencies);
    r := latencies[..];
  }

  /**
    `r` is the integer nearest to `sum / len`, a tie going away from zero (the
    rounding of `Number.prototype.toFixed(0)`).
   */
  ghost predicate RoundsHalfAway(r: int, sum: int, len: int)
    requires len > 0
  {
    && -len <= 2 * (sum - r * len) <= len
    && (2 * (sum - r * len) == len ==> sum < 0)
    && (2 * (sum - r * len) == -len ==> sum > 0)
  }

  /** At most one integer rounds `sum / len` in that way. */
  lemma RoundsHalfAwayUnique(r1: int, r2: int, sum: int, len: int)
    requires len > 0
    requires RoundsHalfAway(r1, sum, len) && RoundsHalfAway(r2, sum, len)
    ensures r1 == r2
  {
    // the two distances differ by a whole number of steps, yet each is at most half a step
    assert (sum - r2 * len) - (sum - r1 * len) == (r1 - r2) * len;
    MulBound(r1 - r2, len);
  }

  lemma MulBound(k: int, len: int)
    requires len > 0
    ensures k >= 1 ==> k * len >= len
    ensures k <= -1 ==> k * len <= -len
  {
  }

  /** `sum / len` rounded to the nearest integer, halves away from zero. */
  function RoundedQuotient(sum: int, len: int): (r: int)
    requires len > 0
    ensures RoundsHalfAway(r, sum, len)
  {
    var a := if sum >= 0 then sum else -sum;
    var q := (2 * a + len) / (2 * len);
    DivisionSplit(2 * a + len, len, q);
    if sum >= 0 then q else -q
  }

  /** `n` is `q` steps of `2 * len` plus a remainder below one step. */
  lemma DivisionSplit(n: int, len: int, q: int)
    requires len > 0 && q == n / (2 * len)
    ensures 0 <= n - 2 * (q * len) < 2 * len
  {
    var m := n % (2 * len);
    assert n == q * (2 * len) + m && 0 <= m < 2 * len;
    assert q * (2 * len) == 2 * (q * len);
  }

  /** `avgLatency`: 0 for an empty series, else the rounded mean. */
  function AvgLatency(latencies: seq<int>): (r: int)
    ensures latencies == [] ==> r == 0
    ensures latencies != [] ==> RoundsHalfAway(r, Sum(latencies), |latencies|)
  {
    if |latencies| > 0 then RoundedQuotient(Sum(latencies), |latencies|) else 0
  }

  /** A series of equal gaps averages to exactly that gap. */
  lemma AvgOfConstant(latencies: seq<int>, c: int)
    requires latencies != []
    requires forall i :: 0 <= i < |latencies| ==> latencies[i] == c
    ensures AvgLatency(latencies) == c
  {
    SumConstant(latencies, c);
    assert RoundsHalfAway(c, Sum(latencies), |latencies|);
    RoundsHalfAwayUnique(AvgLatency(latencies), c, Sum(latencies), |latencies|);
  }

  /** A packet with only its timestamp of interest. */
  function Stamp(t: int): Packet {
    Packet(22.0, 0, t, None)
  }

  /**
    Newest-first timestamps 1600, 1300, 1000 give the series [300, 300] and
    mean 300; listed oldest-first (1000, 1300, 1600) the gaps come out negative.
   */
  lemma LatencyExample()
    ensures Latencies([Stamp(1600), Stamp(1300), Stamp(1000)]) == [300, 300]
    ensures AvgLatency([300, 300]) == 300
    ensures Latencies([Stamp(1000), Stamp(1300), Stamp(1600)]) == [-300, -300]
    ensures AvgLatency([-300, -300]) == -300
  {
    var h := [Stamp(1600), Stamp(1300), Stamp(1000)];
    assert Diffs(h) == [300, 300];
    assert Reversed([300, 300]) == [300, 300] by {
      assert Reversed([300]) == [300];
      assert [300, 300][1..] == [300];
    }
    var g := [Stamp(1000), Stamp(1300), Stamp(1600)];
    assert Diffs(g) == [-300, -300];
    assert Reversed([-300, -300]) == [-300, -300] by {
      assert Reversed([-300]) == [-300];
      assert [-300, -300][1..] == [-300];
    }
    AvgOfConstant([300, 300], 300);
    AvgOfConstant([-300, -300], -300);
  }

  // ---------------------------------------------------------------------------
  // Chart series
  // ---------------------------------------------------------------------------

  /** `Array.from({length: sessionCount}, (_, i) => i + 1)`: labels and data of the throughput chart. */
  function ThroughputSeries(count: nat): (r: seq<int>)
    ensures |r| == count
    ensures count > 0 ==> r[0] == 1 && r[count - 1] == count
    ensures forall i :: 0 < i < count ==> r[i] == r[i - 1] + 1
  {
    seq(count, i => i + 1)
  }

  /** Each counted message appends one point, the new total, to the throughput chart. */
  lemma ThroughputExtends(count: nat)
    ensures ThroughputSeries(count + 1) == ThroughputSeries(count) + [count + 1]
  {
  }

  /** The expected-interval line: one point per latency point, each `currentInterval * 1000` ms. */
  function ExpectedSeries(latencies: seq<int>, currentInterval: real): (r: seq<real>)
    ensures |r| == |latencies|
    ensures forall i :: 0 <= i < |r| ==> r[i] == currentInterval * 1000.0
  {
    seq(|latencies|, _ => currentInterval * 1000.0)
  }

  /** The expected-interval line has one point per pair of consecutive buffered packets. */
  lemma ExpectedSeriesLength(history: seq<Packet>, currentInterval: real)
    ensures |ExpectedSeries(Latencies(history), currentInterval)| == if |history| < 2 then 0 else |history| - 1
  {
    ReversedLength(Diffs(history));
  }

  // ---------------------------------------------------------------------------
  // The page
  // ---------------------------------------------------------------------------

  /** The state of the evaluation page, with the MQTT hook it owns. */
  class EvaluationPage {
    const mqtt: MqttHistory
    var targetInterval: real
    var isSaving: bool
    var sessionCount: nat
    var sessionStartTime: int
    var currentInterval: real
    var lastProcessedMsgId: Option<int>

    /** The session part of the state. */
    function SessionState(): Session
      reads this
    {
      Session(sessionCount, currentInterval, sessionStartTime, lastProcessedMsgId)
    }

    constructor (now: int)
      ensures fresh(mqtt) && mqtt.history == [] && !mqtt.isConnected && mqtt.limit == BufferLimit
      ensures SessionState() == InitialSession(now)
      ensures targetInterval == DefaultReadInterval && !isSaving
    {
      mqtt := new MqttHistory(BufferLimit);
      targetInterval := DefaultReadInterval;
      isSaving := false;
      sessionCount := 0;
      sessionStartTime := now;
      currentInterval := DefaultReadInterval;
      lastProcessedMsgId := None;
    }

    /** The session `useEffect`, run once for the current buffer. */
    method SessionEffect(now: int)
      modifies this
      ensures SessionState() == SessionStep(old(SessionState()), mqtt.history, now)
      ensures targetInterval == old(targetInterval) && isSaving == old(isSaving)
    {
      if |mqtt.history| > 0 {
        var latestPacket := mqtt.history[0];
        var packetInterval := EffectiveInterval(latestPacket);
        if packetInterval != currentInterval {
          currentInterval := packetInterval;
          sessionCount := 1;
          sessionStartTime := now;
          lastProcessedMsgId := Some(latestPacket.msgId);
        } else if lastProcessedMsgId != Some(latestPacket.msgId) {
          sessionCount := sessionCount + 1;
          lastProcessedMsgId := Some(latestPacket.msgId);
        }
      }
    }

    /** An MQTT message: the hook updates the buffer; if it changed, the session effect runs. */
    method OnMqttMessage(decoded: Option<Packet>, now: int)
      modifies this, mqtt
      ensures decoded.Some? ==> mqtt.history == PushUpdate(old(mqtt.history), decoded.value, mqtt.limit)
      ensures decoded.Some? ==> SessionState() == SessionStep(old(SessionState()), mqtt.history, now)
      ensures decoded.None? ==> mqtt.history == old(mqtt.history) && SessionState() == old(SessionState())
      ensures mqtt.isConnected == old(mqtt.isConnected) && mqtt.limit == old(mqtt.limit)
      ensures targetInterval == old(targetInterval) && isSaving == old(isSaving)
    {
      mqtt.OnMessage(decoded);
      if decoded.Some? {
        SessionEffect(now);
      }
    }

    /** The text field's `onChange`. */
    method SetTargetInterval(value: real)
      modifies this
      ensures targetInterval == value
      ensures SessionState() == old(SessionState()) && isSaving == old(isSaving)
    {
      targetInterval := value;
    }

    /** `handleUpdateInterval` up to its `await`: returns the `read_interval` to write. */
    method BeginUpdateInterval() returns (readInterval: real)
      modifies this
      ensures readInterval == targetInterval && isSaving
      ensures targetInterval == old(targetInterval) && SessionState() == old(SessionState())
    {
      isSaving := true;
      readInterval := targetInterval;
    }

    /** `handleUpdateInterval` after its `await`, on success or failure alike. */
    method CompleteUpdateInterval()
      modifies this
      ensures !isSaving
      ensures targetInterval == old(targetInterval) && SessionState() == old(SessionState())
    {
      isSaving := false;
    }

    /** `handleResetDefaults` up to its `await`: returns the `read_interval` to write. */
    method BeginResetDefaults() returns (readInterval: real)
      modifies this
      ensures readInterval == DefaultReadInterval && isSaving
      ensures targetInterval == old(targetInterval) && SessionState() == old(SessionState())
    {
      isSaving := true;
      readInterval := DefaultReadInterval;
    }

    /**
      `handleResetDefaults` after its `await`. On a successful write the input,
      the counter and the buffer are reset (the effect then runs on the empty
      buffer and changes nothing); the current interval and the last counted
      id are kept. On failure nothing but `isSaving` changes.
     */
    method CompleteResetDefaults(writeOk: bool, now: int)
      modifies this, mqtt
      ensures !isSaving
      ensures writeOk ==> targetInterval == DefaultReadInterval && mqtt.history == []
      ensures writeOk ==> SessionState() == ResetSession(old(SessionState()), now)
      ensures !writeOk ==> targetInterval == old(targetInterval) && mqtt.history == old(mqtt.history)
      ensures !writeOk ==> SessionState() == old(SessionState())
      ensures mqtt.isConnected == old(mqtt.isConnected) && mqtt.limit == old(mqtt.limit)
    {
      if writeOk {
        targetInterval := DefaultReadInterval;
        sessionCount := 0;
        sessionStartTime := now;
        mqtt.ClearData();
        SessionEffect(now);
      }
      isSaving := false;
    }

    /** The two latency datasets and the throughput dataset of the current render. */
    method ChartData() returns (latency: seq<int>, expected: seq<real>, throughput: seq<int>)
      ensures latency == Latencies(mqtt.history)
      ensures |expected| == |latency| && forall i :: 0 <= i < |expected| ==> expected[i] == currentInterval * 1000.0
      ensures |throughput| == sessionCount && forall i :: 0 <= i < sessionCount ==> throughput[i] == i + 1
    {
      latency := LatencyData(mqtt.history);
      expected := ExpectedSeries(latency, currentInterval);
      throughput := ThroughputSeries(sessionCount);
    }
  }
}
