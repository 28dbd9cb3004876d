/**
  The MQTT ingestion hook (src/hooks/useMqttData.ts): a newest-first buffer of
  decoded telemetry packets, cut to `limit`, and a connectivity flag.

  The transport itself (broker URL, credentials, client id, subscribe,
  reconnect, `client.end`) is not modelled; its events arrive as method calls,
  and `JSON.parse` arrives as an already decoded `Option<Packet>`.
 */
module MqttData {
  import opened Wrappers
  import opened Seqs

  /** One telemetry sample as the device publishes it. */
  datatype Packet = Packet(
    temperature: real,
    msgId: int,
    timestamp: int,          // epoch milliseconds, set by the device
    interval: Option<real>)  // declared sampling interval in seconds, optional

  /** The `setMqttHistory` updater: prepend the packet, then cut to `limit`. */
  function PushUpdate(prev: seq<Packet>, p: Packet, limit: nat): (r: seq<Packet>)
    ensures |r| == if |prev| + 1 <= limit then |prev| + 1 else limit
    ensures forall i :: 0 <= i < |r| ==> r[i] == ([p] + prev)[i]
  {
    var newList := [p] + prev;
    if |newList| > limit then newList[..limit] else newList
  }

  /** Whatever the previous buffer was (even one longer than `limit`), the new one fits. */
  lemma PushBounded(prev: seq<Packet>, p: Packet, limit: nat)
    ensures |PushUpdate(prev, p, limit)| <= limit
  {
  }

  /** The pushed packet becomes the head; the rest is the old buffer, oldest entries dropped. */
  lemma PushShape(prev: seq<Packet>, p: Packet, limit: nat)
    requires limit >= 1
    ensures PushUpdate(prev, p, limit)[0] == p
    ensures PushUpdate(prev, p, limit)[1..] == prev[..if |prev| <= limit - 1 then |prev| else limit - 1]
  {
  }

  /** Without overflow a push grows the buffer by exactly the new packet. */
  lemma PushGrows(prev: seq<Packet>, p: Packet, limit: nat)
    requires |prev| + 1 <= limit
    ensures PushUpdate(prev, p, limit) == [p] + prev
  {
  }

  /** The buffer after pushing `ps` in arrival order onto `buf`. */
  function PushAll(buf: seq<Packet>, ps: seq<Packet>, limit: nat): seq<Packet>
    decreases |ps|
  {
    if ps == [] then buf else PushAll(PushUpdate(buf, ps[0], limit), ps[1..], limit)
  }

  /**
    After at least one push, the buffer is the newest-first arrival history
    (the arrivals reversed, in front of what was there before) cut to `limit`;
    it never exceeds `limit` and its head is the last packet pushed.
   */
  lemma {:induction false} PushAllWindow(buf: seq<Packet>, ps: seq<Packet>, limit: nat)
    requires ps != []
    ensures var all := Reversed(ps) + buf;
      PushAll(buf, ps, limit) == all[..if |all| <= limit then |all| else limit]
    ensures |PushAll(buf, ps, limit)| <= limit
    ensures limit >= 1 ==> PushAll(buf, ps, limit)[0] == ps[|ps| - 1]
    decreases |ps|
  {
    var next := PushUpdate(buf, ps[0], limit);
    var all := Reversed(ps) + buf;
    ReversedLength(ps);
    var m := if |all| <= limit then |all| else limit;
    if |ps| == 1 {
      assert Reversed(ps) == [ps[0]];
      assert next == all[..m];
    } else {
      var rest := ps[1..];
      PushAllWindow(next, rest, limit);
      ReversedLength(rest);
      var all' := Reversed(rest) + next;
      var m' := if |all'| <= limit then |all'| else limit;
      assert Reversed(ps) == Reversed(rest) + [ps[0]];
      assert m' == m;
      forall i | 0 <= i < m
        ensures all'[i] == all[i]
      {
        if i >= |Reversed(rest)| {
          var j := i - |Reversed(rest)|;
          assert all'[i] == next[j];
          assert next[j] == ([ps[0]] + buf)[j];
          assert all[i] == (Reversed(rest) + ([ps[0]] + buf))[i];
        }
      }
      assert all'[..m'] == all[..m];
      ReversedAt(ps, 0);
    }
  }

  /** The state of one `useMqttData(limit)` hook instance. */
  class MqttHistory {
    var history: seq<Packet>   // `mqttHistory`, newest first
    var isConnected: bool      // `isConnected`
    var limit: nat             // the hook's `limit` argument of the latest render

    constructor (limit: nat)
      ensures history == [] && !isConnected && this.limit == limit
    {
      history := [];
      isConnected := false;
      this.limit := limit;
    }

    /** `clearData`. */
    method ClearData()
      modifies this
      ensures history == []
      ensures isConnected == old(isConnected) && limit == old(limit)
    {
      history := [];
    }

    /**
      The `message` handler. `decoded` is the outcome of `JSON.parse`; a
      failure is caught and logged, and the buffer is left alone. The
      connectivity flag is neither consulted nor changed.
     */
    method OnMessage(decoded: Option<Packet>)
      modifies this
      ensures decoded.Some? ==> history == PushUpdate(old(history), decoded.value, limit)
      ensures decoded.None? ==> history == old(history)
      ensures decoded.Some? ==> |history| <= limit
      ensures decoded.Some? && limit >= 1 ==> history[0] == decoded.value
      ensures isConnected == old(isConnected) && limit == old(limit)
    {
      if decoded.Some? {
        history := PushUpdate(history, decoded.value, limit);
        PushBounded(old(history), decoded.value, limit);
      }
    }

    /** The `connect` handler (subscribing is transport I/O). */
    method OnConnect()
      modifies this
      ensures isConnected
      ensures history == old(history) && limit == old(limit)
    {
      isConnected := true;
    }

    /** The `offline` handler. */
    method OnOffline()
      modifies this
      ensures !isConnected
      ensures history == old(history) && limit == old(limit)
    {
      isConnected := false;
    }

    /** The `error` handler (the log line is not modelled). */
    method OnError()
      modifies this
      ensures !isConnected
      ensures history == old(history) && limit == old(limit)
    {
      isConnected := false;
    }

    /**
      A re-render with a different `limit`: React keeps the state, the effect
      reconnects with the new limit. The buffer is not cut until the next push.
     */
    method Rerender(newLimit: nat)
      modifies this
      ensures limit == newLimit
      ensures history == old(history) && isConnected == old(isConnected)
    {
      limit := newLimit;
    }
  }
}
