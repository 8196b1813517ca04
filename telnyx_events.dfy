/**
 * The polling webhooks that keep a log of call events in memory: a capped
 * first-in first-out buffer filled by `addEvent`, read by GET with a `since`
 * timestamp, and written by Telnyx's POSTs. Two copies exist:
 * skipdial/api/webhook.js keeps 100 events and webhook.js keeps 200, and they
 * record slightly different events. `Date.now()` is the `now` parameter; the
 * Call Control requests a POST sends are returned; an error thrown while
 * handling a POST is not caught and is answered with 500.
 */
module TelnyxEvents {
  import opened Js
  import opened Telnyx

  /** One logged event: its fields and the time it was added. */
  datatype Entry = Entry(fields: map<string, Value>, timestamp: int)

  /** The two copies of the handler. */
  datatype Copy = Skipdial | Root

  /** MAX_EVENTS. */
  function Capacity(copy: Copy): nat
  {
    if copy == Skipdial then 100 else 200
  }

  function Min(a: int, b: int): int
  {
    if a <= b then a else b
  }

  /** The module-level `events` array. */
  class EventLog {
    const cap: nat
    var events: seq<Entry>
    /** Every event ever added, oldest first. */
    ghost var history: seq<Entry>

    /** The log holds exactly the `cap` most recent events (all of them while fewer), oldest first. */
    ghost predicate Valid()
      reads this
    {
      |events| == Min(|history|, cap) && events == history[|history| - |events|..]
    }

    constructor (cap: nat)
      ensures Valid() && this.cap == cap && events == [] && history == []
    {
      this.cap := cap;
      events := [];
      history := [];
    }

    /** `addEvent`: append with a timestamp, then drop the oldest when over capacity. */
    method AddEvent(fields: map<string, Value>, now: int)
      requires Valid()
      modifies this
      ensures Valid() && |events| <= cap
      ensures history == old(history) + [Entry(fields, now)]
      ensures events == if |old(events)| < cap then old(events) + [Entry(fields, now)]
                        else (old(events) + [Entry(fields, now)])[1..]
    {
      var e := Entry(fields, now);
      ghost var k := |history| - |events|;
      assert (history + [e])[k..] == history[k..] + [e];
      events := events + [e];
      history := history + [e];
      if |events| > cap {
        assert events[1..] == history[k + 1..];
        events := events[1..];
      }
    }

    /** The events of one request, each passed to `addEvent` in the order recorded. */
    method AddEvents(recorded: seq<map<string, Value>>, now: int)
      requires Valid()
      modifies this
      ensures Valid() && |events| <= cap
      ensures history == old(history) + Stamp(recorded, now)
    {
      var i := 0;
      while i < |recorded|
        invariant 0 <= i <= |recorded|
        invariant Valid() && |events| <= cap
        invariant history == old(history) + Stamp(recorded[..i], now)
      {
        AddEvent(recorded[i], now);
        StampSnoc(recorded, i, now);
        i := i + 1;
      }
      assert recorded[..i] == recorded;
    }
  }

  /** `events.filter(e => e.timestamp > since)`; a `since` of NaN keeps nothing. */
  function After(es: seq<Entry>, since: Option<int>): seq<Entry>
  {
    if es == [] || since.None? then []
    else (if es[0].timestamp > since.value then [es[0]] else []) + After(es[1..], since)
  }

  /** Exactly the events newer than `since` are returned. */
  lemma {:induction false} AfterMembers(es: seq<Entry>, since: Option<int>)
    ensures forall e :: e in After(es, since) <==> e in es && since.Some? && e.timestamp > since.value
  {
    if es != [] && since.Some? {
      AfterMembers(es[1..], since);
      assert forall e :: e in es <==> e == es[0] || e in es[1..];
    }
  }

  /** The filter keeps log order: it works piece by piece over a concatenation. */
  lemma {:induction false} AfterConcat(a: seq<Entry>, b: seq<Entry>, since: Option<int>)
    ensures After(a + b, since) == After(a, since) + After(b, since)
  {
    if a == [] {
      assert a + b == b;
    } else if since.Some? {
      AfterConcat(a[1..], b, since);
      assert a + b == [a[0]] + (a[1..] + b);
      AfterCons(a[0], a[1..] + b, since.value);
      AfterCons(a[0], a[1..], since.value);
      assert [a[0]] + a[1..] == a;
    }
  }

  /** One event in front: it is kept exactly when it is newer than `since`. */
  lemma AfterCons(e: Entry, rest: seq<Entry>, since: int)
    ensures After([e] + rest, Some(since)) == (if e.timestamp > since then [e] else []) + After(rest, Some(since))
  {
    assert ([e] + rest)[0] == e && ([e] + rest)[1..] == rest;
  }

  /** Timestamps in the order the events arrived. */
  predicate Chronological(es: seq<Entry>)
  {
    forall i, j | 0 <= i < j < |es| :: es[i].timestamp <= es[j].timestamp
  }

  /** When the clock never went back, a poll returns a tail of the log: everything from some point on. */
  lemma {:induction false} AfterIsSuffix(es: seq<Entry>, s: int) returns (k: nat)
    requires Chronological(es)
    ensures k <= |es| && After(es, Some(s)) == es[k..]
  {
    if es == [] {
      k := 0;
    } else if es[0].timestamp > s {
      assert forall e | e in es :: e.timestamp > s by {
        forall e | e in es ensures e.timestamp > s {
          var j :| 0 <= j < |es| && es[j] == e;
          assert j == 0 || es[0].timestamp <= es[j].timestamp;
        }
      }
      AfterAll(es, s);
      k := 0;
    } else {
      var k' := AfterIsSuffix(es[1..], s);
      k := k' + 1;
    }
  }

  /** With every event newer than `s`, the poll returns the whole log. */
  lemma {:induction false} AfterAll(es: seq<Entry>, s: int)
    requires forall e | e in es :: e.timestamp > s
    ensures After(es, Some(s)) == es
  {
    if es != [] {
      AfterAll(es[1..], s);
      assert [es[0]] + es[1..] == es;
    }
  }

  /** `parseInt(req.query.since || '0')`, with no radix. */
  function SinceOf(since: Value): Option<int>
  {
    ParseIntAuto(if Truthy(since) then ToStr(since) else "0")
  }

  /** A missing or empty `since` polls from 0. */
  lemma SinceOfMissing()
    ensures SinceOf(Undefined) == SinceOf(Str("")) == Some(0)
  {
    ParseIntAutoDigits("0");
  }

  /** Decimal text polls from its value. */
  lemma SinceOfDecimal(d: string)
    requires AllDigits(d) && d != []
    ensures SinceOf(Str(d)) == Some(DigitsValue(d))
  {
    ParseIntAutoDigits(d);
  }

  /** `0x` text polls from its hexadecimal value. */
  lemma SinceOfHex(h: string)
    requires AllHex(h) && h != []
    ensures SinceOf(Str("0x" + h)) == Some(HexValue(h))
  {
    ParseIntAutoHex("", 'x', h);
    assert "" + ['0', 'x'] + h == "0x" + h;
  }

  /** A bare `0x` is NaN, so the poll returns nothing. */
  lemma SinceOfBareHex(es: seq<Entry>)
    ensures After(es, SinceOf(Str("0x"))) == []
  {
    ParseIntAutoBareHexPrefix("");
    assert "0x" + "" == "0x";
    assert SinceOf(Str("0x")) == None;
  }

  /** `?since=0x10` polls the events after 16, not after 0. */
  lemma SinceHexExample(es: seq<Entry>)
    ensures After(es, SinceOf(Str("0x10"))) == After(es, Some(16))
  {
    assert AllHex("10") && HexValue("10") == 16 by {
      assert "10"[..1] == "1";
    }
    SinceOfHex("10");
    assert "0x" + "10" == "0x10";
  }

  /** What one POST records and sends; None where handling throws. */
  datatype Posted = Posted(recorded: seq<map<string, Value>>, calls: seq<Call>)

  /** The event-type mapping of each copy, for an event type and its payload. */
  function Record(copy: Copy, eventType: Value, payload: Value, env: Env): Option<Posted>
  {
    if copy == Skipdial && payload == Undefined then None // `JSON.stringify(undefined).substring` in the log line
    else if eventType == Str("call.initiated") then
      if payload == Null || payload == Undefined then None
      else
        var p := if payload.Obj? then payload.fields else map[];
        Some(Posted([map["type" := Str("call_initiated"), "call_control_id" := Get(p, "call_control_id"),
                         "to" := Get(p, "to"), "from" := Get(p, "from"), "direction" := Get(p, "direction")]], []))
    else if eventType == Str("call.answered") then
      if payload == Null || payload == Undefined then None
      else
        var p := if payload.Obj? then payload.fields else map[];
        var e := map["type" := Str("call_answered"), "call_control_id" := Get(p, "call_control_id"), "to" := Get(p, "to")];
        Some(Posted([if copy == Skipdial then e["answered_by" := Str("human")] else e], []))
    else if eventType == Str("call.machine.detection.ended") then
      if payload == Null || payload == Undefined then None
      else
        var p := if payload.Obj? then payload.fields else map[];
        var ccid := Get(p, "call_control_id");
        var amd := map["type" := Str("amd_result"), "call_control_id" := ccid, "result" := Get(p, "result"), "to" := Get(p, "to")];
        if Get(p, "result") != Str("machine") then Some(Posted([amd], []))
        else if env.vmUrl != "" && env.apiKey != "" then
          Some(Posted([amd, map["type" := Str("vm_dropped"), "call_control_id" := ccid, "to" := Get(p, "to")]],
                      [PlaybackStart(ccid, env.vmUrl)]))
        else if copy == Root && env.apiKey == "" then Some(Posted([amd], []))
        else
          Some(Posted([amd, map["type" := Str("machine_hangup"), "call_control_id" := ccid, "to" := Get(p, "to")]],
                      if env.apiKey != "" then [Hangup(ccid)] else []))
    else if eventType == Str("call.hangup") then
      if payload == Null || payload == Undefined then None
      else
        var p := if payload.Obj? then payload.fields else map[];
        var e := map["type" := Str("call_ended"), "call_control_id" := Get(p, "call_control_id"), "to" := Get(p, "to"),
                     "hangup_cause" := Get(p, "hangup_cause"), "duration" := Get(p, "duration_secs")];
        Some(Posted([if copy == Skipdial then e["hangup_source" := Get(p, "hangup_source")] else e], []))
    else if eventType == Str("call.playback.ended") then
      if payload == Null || payload == Undefined then None
      else
        var p := if payload.Obj? then payload.fields else map[];
        var ccid := Get(p, "call_control_id");
        Some(Posted([map["type" := Str("vm_complete"), "call_control_id" := ccid]],
                    if env.apiKey != "" then [Hangup(ccid)] else []))
    else
      var ccid := match Prop(payload, "call_control_id") case Some(v) => v case None => Undefined;
      var e := map["type" := eventType, "call_control_id" := ccid];
      Some(Posted([if copy == Skipdial then e["raw" := eventType] else e], []))
  }

  /** The `type` of each recorded event. */
  function Types(recorded: seq<map<string, Value>>): seq<Value>
  {
    seq(|recorded|, i requires 0 <= i < |recorded| => Get(recorded[i], "type"))
  }

  /**
   * Answering-machine detection always logs the amd_result first. For a machine,
   * skipdial/api/webhook.js logs vm_dropped (playing the recording) when both the
   * recording and the key are set, and machine_hangup otherwise, hanging up only
   * with a key; webhook.js logs machine_hangup only with a key, and with no key
   * nothing more.
   */
  lemma MachineResult(copy: Copy, p: map<string, Value>, env: Env)
    requires Get(p, "result") == Str("machine")
    ensures var r := Record(copy, Str("call.machine.detection.ended"), Obj(p), env).value;
      && Types(r.recorded)[0] == Str("amd_result")
      && (env.vmUrl != "" && env.apiKey != "" ==>
            Types(r.recorded) == [Str("amd_result"), Str("vm_dropped")]
            && r.calls == [PlaybackStart(Get(p, "call_control_id"), env.vmUrl)])
      && (!(env.vmUrl != "" && env.apiKey != "") && (copy == Skipdial || env.apiKey != "") ==>
            Types(r.recorded) == [Str("amd_result"), Str("machine_hangup")])
      && (!(env.vmUrl != "" && env.apiKey != "") ==>
            r.calls == if env.apiKey != "" then [Hangup(Get(p, "call_control_id"))] else [])
      && (copy == Root && env.apiKey == "" ==> Types(r.recorded) == [Str("amd_result")])
  {
  }

  /** A human or unsure result is only logged. */
  lemma HumanResult(copy: Copy, p: map<string, Value>, env: Env)
    requires Get(p, "result") != Str("machine")
    ensures var r := Record(copy, Str("call.machine.detection.ended"), Obj(p), env).value;
      Types(r.recorded) == [Str("amd_result")] && r.calls == []
  {
  }

  /** A started call is logged as call_initiated with its number, caller and direction. */
  lemma InitiatedMapping(copy: Copy, p: map<string, Value>, env: Env)
    ensures var r := Record(copy, Str("call.initiated"), Obj(p), env).value;
      |r.recorded| == 1 && r.calls == [] && r.recorded[0]["type"] == Str("call_initiated")
      && r.recorded[0]["from"] == Get(p, "from") && r.recorded[0]["direction"] == Get(p, "direction")
  {
  }

  /** An answered call is logged as call_answered; only skipdial/api/webhook.js adds answered_by "human". */
  lemma AnsweredMapping(copy: Copy, p: map<string, Value>, env: Env)
    ensures var r := Record(copy, Str("call.answered"), Obj(p), env).value;
      var e := r.recorded[0];
      |r.recorded| == 1 && r.calls == [] && e["type"] == Str("call_answered")
      && ("answered_by" in e <==> copy == Skipdial)
      && (copy == Skipdial ==> e["answered_by"] == Str("human"))
  {
  }

  /** A hangup is logged as call_ended with its cause and duration; only skipdial/api/webhook.js keeps its source. */
  lemma HangupMapping(copy: Copy, p: map<string, Value>, env: Env)
    ensures var r := Record(copy, Str("call.hangup"), Obj(p), env).value;
      var e := r.recorded[0];
      |r.recorded| == 1 && r.calls == [] && e["type"] == Str("call_ended")
      && e["hangup_cause"] == Get(p, "hangup_cause") && e["duration"] == Get(p, "duration_secs")
      && ("hangup_source" in e <==> copy == Skipdial)
  {
  }

  /** A finished voicemail recording is logged as vm_complete, and the call hung up when a key is set. */
  lemma PlaybackEndedMapping(copy: Copy, p: map<string, Value>, env: Env)
    ensures var r := Record(copy, Str("call.playback.ended"), Obj(p), env).value;
      |r.recorded| == 1 && r.recorded[0]["type"] == Str("vm_complete")
      && r.calls == if env.apiKey != "" then [Hangup(Get(p, "call_control_id"))] else []
  {
  }

  /** Any other event type is logged under its own name; only skipdial/api/webhook.js keeps it as `raw` too. */
  lemma OtherMapping(copy: Copy, payload: Value, env: Env, other: Value)
    requires other !in {Str("call.initiated"), Str("call.answered"), Str("call.machine.detection.ended"),
                        Str("call.hangup"), Str("call.playback.ended")}
    requires copy == Root || payload != Undefined
    ensures var r := Record(copy, other, payload, env);
      r.Some? && |r.value.recorded| == 1 && r.value.calls == []
      && r.value.recorded[0]["type"] == other
      && ("raw" in r.value.recorded[0] <==> copy == Skipdial)
  {
  }

  /**
   * Handling throws when the payload is missing for one of the named event types,
   * and in skipdial/api/webhook.js for any type when it is undefined (the log line
   * cannot serialise it).
   */
  lemma MissingPayloadThrows(copy: Copy, eventType: Value, payload: Value, env: Env)
    ensures Record(copy, eventType, payload, env).None? <==>
      (copy == Skipdial && payload == Undefined)
      || ((payload == Null || payload == Undefined)
          && eventType in {Str("call.initiated"), Str("call.answered"), Str("call.machine.detection.ended"),
                           Str("call.hangup"), Str("call.playback.ended")})
  {
  }

  /** A POST carries at most two log entries and one Call Control request. */
  lemma RecordBounds(copy: Copy, eventType: Value, payload: Value, env: Env)
    ensures Record(copy, eventType, payload, env).Some? ==>
      var r := Record(copy, eventType, payload, env).value;
      1 <= |r.recorded| <= 2 && |r.calls| <= 1 && (r.calls != [] ==> env.apiKey != "")
  {
  }

  /** The reply: status, the events a GET returns, and the requests a POST sent. */
  datatype Reply = Reply(status: int, polled: seq<Entry>, calls: seq<Call>)

  /** The entries a POST appends, all stamped with the same time. */
  function Stamp(recorded: seq<map<string, Value>>, now: int): (r: seq<Entry>)
    ensures |r| == |recorded|
  {
    seq(|recorded|, i requires 0 <= i < |recorded| => Entry(recorded[i], now))
  }

  /** Each stamped entry keeps its recorded fields and carries the request's clock reading. */
  lemma StampKeepsFields(recorded: seq<map<string, Value>>, now: int)
    ensures forall i | 0 <= i < |recorded| :: Stamp(recorded, now)[i].fields == recorded[i] && Stamp(recorded, now)[i].timestamp == now
  {
  }

  /** Stamping one more event extends the stamped prefix by that event's entry. */
  lemma StampSnoc(recorded: seq<map<string, Value>>, i: nat, now: int)
    requires i < |recorded|
    ensures Stamp(recorded[..i + 1], now) == Stamp(recorded[..i], now) + [Entry(recorded[i], now)]
  {
  }

  /**
   * The request handler over the log: OPTIONS, GET (poll), POST (record), or 405.
   * GET leaves the log alone; POST appends what `Record` says, one `addEvent` at a
   * time; a POST without data, or one that throws, appends nothing.
   */
  method Serve(log: EventLog, copy: Copy, verb: string, since: Value, body: Value, env: Env, now: int)
    returns (reply: Reply)
    requires log.Valid() && log.cap == Capacity(copy)
    modifies log
    ensures log.Valid() && |log.events| <= Capacity(copy)
    ensures verb != "POST" ==> unchanged(log)
    ensures verb == "GET" ==> reply == Reply(200, After(log.events, SinceOf(since)), [])
    ensures verb == "OPTIONS" ==> reply == Reply(200, [], [])
    ensures verb !in {"OPTIONS", "GET", "POST"} ==> reply == Reply(405, [], [])
    ensures verb == "POST" ==>
      var data := if Truthy(body) then Prop(body, "data").value else Undefined;
      if !Truthy(data) then reply == Reply(200, [], []) && unchanged(log)
      else
        var posted := Record(copy, Prop(data, "event_type").value, Prop(data, "payload").value, env);
        if posted.None? then reply == Reply(500, [], []) && unchanged(log)
        else reply == Reply(200, [], posted.value.calls)
             && log.history == old(log.history) + Stamp(posted.value.recorded, now)
  {
    if verb == "OPTIONS" {
      return Reply(200, [], []);
    }
    if verb == "GET" {
      return Reply(200, After(log.events, SinceOf(since)), []);
    }
    if verb != "POST" {
      return Reply(405, [], []);
    }
    if !Truthy(body) {
      return Reply(200, [], []);
    }
    var data := Prop(body, "data").value;
    if !Truthy(data) {
      return Reply(200, [], []);
    }
    var posted := Record(copy, Prop(data, "event_type").value, Prop(data, "payload").value, env);
    if posted.None? {
      return Reply(500, [], []);
    }
    log.AddEvents(posted.value.recorded, now);
    reply := Reply(200, [], posted.value.calls);
  }

  /**
   * Polling right after adding an event with a newer timestamp than every logged
   * one returns that event last; a poll with `since` at or past every timestamp
   * returns nothing.
   */
  lemma PollSeesNewest(es: seq<Entry>, e: Entry, s: int)
    requires e.timestamp > s
    ensures After(es + [e], Some(s)) == After(es, Some(s)) + [e]
    ensures (forall x | x in es :: x.timestamp <= s) ==> After(es, Some(s)) == []
  {
    AfterConcat(es, [e], Some(s));
    assert After([e], Some(s)) == [e];
    AfterMembers(es, Some(s));
    if (forall x | x in es :: x.timestamp <= s) && After(es, Some(s)) != [] {
      assert After(es, Some(s))[0] in After(es, Some(s));
    }
  }
}
