/**
 * The call-control endpoint, in its two deployed copies: api/call.js and
 * skipdial/api/call.js. A POST names an `action` (dial, hangup or vm_drop); the
 * handler checks its inputs in a fixed order and sends at most one Call Control
 * request. The two copies differ only in how they build the webhook URL.
 * Whether Telnyx accepted the dial is the `dialOk` parameter; an error thrown
 * inside the `try` (calling `startsWith` on a `to` that is not a string) is
 * answered with 500.
 */
module CallApi {
  import opened Js
  import opened Telnyx
  import opened Phone

  /** The two copies of the endpoint. */
  datatype Copy = Root | Skipdial

  /** `.replace(/^1/, '')`: one leading 1 goes. */
  function DropLeadingOne(d: string): string
  {
    if d != [] && d[0] == '1' then d[1..] else d
  }

  /** The `to` sent to Telnyx: verbatim when it starts with '+', else "+1" and its digits minus one leading 1. */
  function NormaliseTo(to: string): string
  {
    if StartsWith(to, "+") then to else "+1" + DropLeadingOne(Digits(to))
  }

  /**
   * The number always starts with '+'. One given with '+' is passed as it is;
   * any other becomes "+1" followed by its digits, of which at most one leading
   * 1 was dropped, whatever their number.
   */
  lemma NormaliseToFacts(to: string)
    ensures StartsWith(NormaliseTo(to), "+")
    ensures StartsWith(to, "+") ==> NormaliseTo(to) == to
    ensures !StartsWith(to, "+") ==>
      && StartsWith(NormaliseTo(to), "+1")
      && AllDigits(NormaliseTo(to)[2..])
      && (Digits(to) == NormaliseTo(to)[2..] || Digits(to) == "1" + NormaliseTo(to)[2..])
      && (Digits(to) == NormaliseTo(to)[2..] <==> Digits(to) == [] || Digits(to)[0] != '1')
  {
    var r := NormaliseTo(to);
    if !StartsWith(to, "+") {
      var d := Digits(to);
      assert r[2..] == DropLeadingOne(d);
      if d != [] && d[0] == '1' {
        assert d == "1" + d[1..];
        assert d != d[1..] by {
          assert |d| != |d[1..]|;
        }
      }
    }
  }

  /** A normalised number is left alone by a second normalisation. */
  lemma NormaliseToIdempotent(to: string)
    ensures NormaliseTo(NormaliseTo(to)) == NormaliseTo(to)
  {
    NormaliseToFacts(to);
  }

  /**
   * For a North American number (ten digits once a leading country code is
   * cleaned off, area code not starting with 1), the server dials exactly the
   * "+1" form of the number the dashboard shows.
   */
  lemma NormaliseToAgreesWithCleanPhone(phone: string)
    requires !StartsWith(phone, "+")
    requires |CleanPhone(phone)| == 10 && CleanPhone(phone)[0] != '1'
    ensures NormaliseTo(phone) == "+1" + CleanPhone(phone)
  {
    CleanPhoneDropsCountryCode(phone);
    var d := Digits(phone);
    if d != CleanPhone(phone) {
      assert d == "1" + CleanPhone(phone);
      assert d[1..] == CleanPhone(phone);
    }
  }

  /** Separators go, and so does one country code 1. */
  lemma NormaliseToExample()
    ensures NormaliseTo("1-800") == "+1800"
  {
    assert Digits("1-800") == "1800" by {
      assert "1-800" == "1-" + "800";
      DigitsConcat("1-", "800");
      assert Digits("1-") == "1";
    }
  }

  /** The leading 1 goes even from a number far shorter than ten digits. */
  lemma NormaliseToShortNumber()
    ensures NormaliseTo("12") == "+12"
  {
    assert !StartsWith("12", "+");
    assert Digits("12") == "12";
  }

  /** Any run of digits starting with 1 loses that 1, whatever its length. */
  lemma NormaliseToDropsAnyLeadingOne(d: string)
    requires AllDigits(d) && d != [] && d[0] == '1'
    ensures NormaliseTo(d) == "+1" + d[1..]
  {
    assert !StartsWith(d, "+");
  }

  /**
   * The `webhook_url` of a dial: api/call.js puts "https://" before VERCEL_URL,
   * or before the forwarded host or the host header; skipdial/api/call.js uses
   * VERCEL_URL as it is, or a fixed placeholder address.
   */
  function WebhookUrl(copy: Copy, env: Env, forwardedHost: Value, host: Value): string
  {
    var base :=
      if copy == Root then
        if env.vercelUrl != "" then "https://" + env.vercelUrl
        else "https://" + ToStr(if Truthy(forwardedHost) then forwardedHost else host)
      else if env.vercelUrl != "" then env.vercelUrl
      else "https://your-app.vercel.app";
    base + "/api/webhook"
  }

  /** The URL always ends in /api/webhook; only api/call.js always adds the scheme. */
  lemma WebhookUrlFacts(copy: Copy, env: Env, forwardedHost: Value, host: Value)
    ensures var u := WebhookUrl(copy, env, forwardedHost, host);
      && |u| >= 12 && u[|u| - 12..] == "/api/webhook"
      && (copy == Root ==> StartsWith(u, "https://"))
      && (copy == Skipdial && env.vercelUrl != "" ==> u == env.vercelUrl + "/api/webhook")
      && (copy == Root && env.vercelUrl == "" && !Truthy(forwardedHost) && host == Undefined ==> u == "https://undefined/api/webhook")
  {
  }

  /** A reply: the status, the `action` it reports ("" when none), and the request sent. */
  datatype Reply = Reply(status: int, action: string, calls: seq<Call>)

  /** The handler, from the method check to the action ladder. */
  function Handle(copy: Copy, verb: string, body: Value, env: Env, forwardedHost: Value, host: Value, dialOk: bool): Reply
  {
    if verb == "OPTIONS" then Reply(200, "", [])
    else if env.apiKey == "" then Reply(500, "", [])
    else
      var fields := if body.Obj? then body.fields else map[];
      var action := Get(fields, "action");
      var to := Get(fields, "to");
      var ccid := Get(fields, "call_control_id");
      if action == Str("dial") then
        if !Truthy(to) then Reply(400, "", [])
        else if !to.Str? then Reply(500, "", [])
        else
          var call := Dial(NormaliseTo(to.s), env.fromNumber, env.connectionId, WebhookUrl(copy, env, forwardedHost, host));
          Reply(if dialOk then 200 else 500, "", [call])
      else if action == Str("hangup") then
        if !Truthy(ccid) then Reply(400, "", [])
        else Reply(200, "hangup", [Hangup(ccid)])
      else if action == Str("vm_drop") then
        if !Truthy(ccid) then Reply(400, "", [])
        else if env.vmUrl != "" then Reply(200, "vm_drop", [PlaybackStart(ccid, env.vmUrl)])
        else Reply(200, "hangup_no_vm", [Hangup(ccid)])
      else Reply(400, "", [])
  }

  /**
   * OPTIONS is answered before anything else and a missing key before any action;
   * every refusal sends nothing; a request sends at most one Call Control request,
   * and vm_drop plays the recording exactly when one is configured.
   */
  lemma HandleFacts(copy: Copy, verb: string, body: Value, env: Env, forwardedHost: Value, host: Value, dialOk: bool)
    ensures var r := Handle(copy, verb, body, env, forwardedHost, host, dialOk);
      && (verb == "OPTIONS" ==> r == Reply(200, "", []))
      && (verb != "OPTIONS" && env.apiKey == "" ==> r == Reply(500, "", []))
      && (r.status == 400 ==> r.calls == [])
      && |r.calls| <= 1
      && (r.calls != [] ==> verb != "OPTIONS" && env.apiKey != "")
      && (r.action == "vm_drop" <==> r.status == 200 && r.calls != [] && r.calls[0].PlaybackStart?)
      && (r.action == "hangup_no_vm" ==> env.vmUrl == "" && r.calls[0].Hangup?)
      && (r.calls != [] && r.calls[0].Dial? ==>
            && body.Obj? && Get(body.fields, "to").Str?
            && r.calls[0].to == NormaliseTo(Get(body.fields, "to").s)
            && r.calls[0].webhookUrl == WebhookUrl(copy, env, forwardedHost, host))
  {
  }

  /** A request without a known action, or without the field its action needs, is refused with 400. */
  lemma HandleRefusals(copy: Copy, fields: map<string, Value>, env: Env, forwardedHost: Value, host: Value, dialOk: bool)
    requires env.apiKey != ""
    ensures Get(fields, "action") !in {Str("dial"), Str("hangup"), Str("vm_drop")} ==>
      Handle(copy, "POST", Obj(fields), env, forwardedHost, host, dialOk).status == 400
    ensures Get(fields, "action") == Str("dial") && !Truthy(Get(fields, "to")) ==>
      Handle(copy, "POST", Obj(fields), env, forwardedHost, host, dialOk).status == 400
    ensures Get(fields, "action") in {Str("hangup"), Str("vm_drop")} && !Truthy(Get(fields, "call_control_id")) ==>
      Handle(copy, "POST", Obj(fields), env, forwardedHost, host, dialOk).status == 400
  {
  }
}
