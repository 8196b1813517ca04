/**
 * The stateless Telnyx webhook (api/webhook.js): it reacts to answering-machine
 * detection and to the end of a voicemail recording by sending Call Control
 * requests, and always acknowledges a POST that carries data. An error thrown
 * while handling the event (reading a field of a missing payload) is caught.
 */
module OutboundWebhook {
  import opened Js
  import opened Telnyx

  /** The reply status and the requests sent. */
  datatype Reply = Reply(status: int, calls: seq<Call>)

  /** The requests one event leads to; a missing payload throws before any is sent. */
  function Reactions(eventType: Value, payload: Value, env: Env): seq<Call>
  {
    if eventType == Str("call.machine.detection.ended") then
      match Prop(payload, "result")
      case None => []
      case Some(result) =>
        if result == Str("machine") && env.apiKey != "" then
          var ccid := Prop(payload, "call_control_id").value;
          if env.vmUrl != "" then [PlaybackStart(ccid, env.vmUrl)] else [Hangup(ccid)]
        else []
    else if eventType == Str("call.playback.ended") && env.apiKey != "" then
      match Prop(payload, "call_control_id")
      case None => []
      case Some(ccid) => [Hangup(ccid)]
    else []
  }

  /** The handler: OPTIONS, then the POST-only check, then the event. */
  function Dispatch(verb: string, body: Value, env: Env): Reply
  {
    if verb == "OPTIONS" then Reply(200, [])
    else if verb != "POST" then Reply(405, [])
    else if !Truthy(body) then Reply(200, [])
    else
      var data := Prop(body, "data").value;
      if !Truthy(data) then Reply(200, [])
      else Reply(200, Reactions(Prop(data, "event_type").value, Prop(data, "payload").value, env))
  }

  /**
   * Every POST is acknowledged with 200 and every other method but OPTIONS gets
   * 405; at most one request is sent, and only with an API key: for a machine the
   * recording is played when one is configured and the call is hung up otherwise;
   * the end of a recording hangs up; nothing else sends anything.
   */
  lemma DispatchFacts(verb: string, body: Value, env: Env)
    ensures var r := Dispatch(verb, body, env);
      && (r.status == 405 <==> verb != "OPTIONS" && verb != "POST")
      && (r.status == 200 <==> verb == "OPTIONS" || verb == "POST")
      && |r.calls| <= 1
      && (r.calls != [] ==> verb == "POST" && env.apiKey != "")
      && (r.calls != [] && r.calls[0].PlaybackStart? ==> r.calls[0].audioUrl == env.vmUrl && env.vmUrl != "")
  {
  }

  /** The body of a POST carrying `data` with an event type and a payload object. */
  function EventBody(eventType: string, payload: map<string, Value>): Value
  {
    Obj(map["data" := Obj(map["event_type" := Str(eventType), "payload" := Obj(payload)])])
  }

  /** A machine answering: the recording is dropped when there is one, else the call is hung up. */
  lemma MachineDetected(payload: map<string, Value>, env: Env)
    requires Get(payload, "result") == Str("machine") && env.apiKey != ""
    ensures var ccid := Get(payload, "call_control_id");
      Dispatch("POST", EventBody("call.machine.detection.ended", payload), env).calls ==
        if env.vmUrl != "" then [PlaybackStart(ccid, env.vmUrl)] else [Hangup(ccid)]
  {
  }

  /** A human, or an unsure result, or no API key: nothing is sent. */
  lemma NoActionWithoutMachineAndKey(payload: map<string, Value>, env: Env)
    requires Get(payload, "result") != Str("machine") || env.apiKey == ""
    ensures Dispatch("POST", EventBody("call.machine.detection.ended", payload), env).calls == []
  {
  }

  /** The end of the recording hangs the call up once, given a key. */
  lemma PlaybackEndedHangsUp(payload: map<string, Value>, env: Env)
    requires env.apiKey != ""
    ensures Dispatch("POST", EventBody("call.playback.ended", payload), env).calls ==
      [Hangup(Get(payload, "call_control_id"))]
  {
  }

  /** A POST without data is acknowledged and sends nothing. */
  lemma NoDataNoCalls(body: Value, env: Env)
    requires !Truthy(body) || (body.Obj? && !Truthy(Get(body.fields, "data")))
    ensures Dispatch("POST", body, env) == Reply(200, [])
  {
  }
}
