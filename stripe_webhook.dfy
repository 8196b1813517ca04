/**
 * The Stripe webhook (app/api/webhook/route.ts): a verified subscription event
 * selects at most one update of the user record named in its metadata.
 * Verifying the signature is abstract: the event, or None when
 * `constructEvent` rejects the signature. The update's `updated_at` (the clock)
 * is left out; the database write is the returned update.
 */
module StripeWebhook {
  import opened Js

  /** A verified event: its `type` and its `data.object`. */
  datatype Event = Event(kind: string, obj: map<string, Value>)

  /** The fields written to the user whose id is `userId`. */
  datatype Update = Update(userId: Value, fields: map<string, Value>)

  datatype Reply = Reply(status: int, update: Option<Update>)

  /** `object.metadata?.clerkUserId`. */
  function ClerkUserId(obj: map<string, Value>): Value
  {
    match Get(obj, "metadata")
    case Obj(m) => Get(m, "clerkUserId")
    case _ => Undefined
  }

  /** The decision table. */
  function Handle(event: Option<Event>): Reply
  {
    match event
    case None => Reply(400, None)
    case Some(e) =>
      var uid := ClerkUserId(e.obj);
      var update :=
        if e.kind == "checkout.session.completed" then
          if Truthy(uid) && Truthy(Get(e.obj, "subscription")) && Truthy(Get(e.obj, "customer")) then
            Some(Update(uid, map[
              "stripe_customer_id" := Get(e.obj, "customer"),
              "subscription_id" := Get(e.obj, "subscription"),
              "subscription_status" := Str("active"),
              "plan" := Str("solo")]))
          else None
        else if e.kind == "customer.subscription.updated" then
          if Truthy(uid) then Some(Update(uid, map["subscription_status" := Get(e.obj, "status")])) else None
        else if e.kind == "customer.subscription.deleted" then
          if Truthy(uid) then Some(Update(uid, map["subscription_status" := Str("canceled"), "plan" := Str("none")])) else None
        else None;
      Reply(200, update)
  }

  /**
   * A rejected signature gets 400 and changes nothing; every verified event gets
   * 200. An update is made exactly for the three subscription events that name a
   * user (a completed checkout also needs its subscription and customer), always
   * to that user, and it sets the plan only to "solo" or "none".
   */
  lemma HandleFacts(event: Option<Event>)
    ensures var r := Handle(event);
      && (r.status == 400 <==> event.None?)
      && (event.None? ==> r.update.None?)
      && (event.Some? ==> r.status == 200)
      && (r.update.Some? <==>
            event.Some? && Truthy(ClerkUserId(event.value.obj))
            && (|| (event.value.kind == "checkout.session.completed"
                    && Truthy(Get(event.value.obj, "subscription")) && Truthy(Get(event.value.obj, "customer")))
                || event.value.kind == "customer.subscription.updated"
                || event.value.kind == "customer.subscription.deleted"))
      && (r.update.Some? ==> r.update.value.userId == ClerkUserId(event.value.obj))
      && (r.update.Some? && "plan" in r.update.value.fields ==> r.update.value.fields["plan"] in {Str("solo"), Str("none")})
      && (r.update.Some? && event.value.kind == "customer.subscription.updated" ==>
            r.update.value.fields == map["subscription_status" := Get(event.value.obj, "status")])
  {
  }

  /** Writing an update into a user record. */
  function Apply(user: map<string, Value>, r: Reply): map<string, Value>
  {
    if r.update.Some? then user + r.update.value.fields else user
  }

  /**
   * A checkout followed by the subscription's deletion leaves the user canceled on
   * no plan, still linked to the customer and subscription of the checkout.
   */
  lemma CheckoutThenCancel(user: map<string, Value>, uid: string, sub: string, customer: string)
    requires uid != "" && sub != "" && customer != ""
    ensures var meta := Obj(map["clerkUserId" := Str(uid)]);
      var paid := Apply(user, Handle(Some(Event("checkout.session.completed",
        map["metadata" := meta, "subscription" := Str(sub), "customer" := Str(customer)]))));
      var after := Apply(paid, Handle(Some(Event("customer.subscription.deleted", map["metadata" := meta]))));
      && paid["plan"] == Str("solo") && paid["subscription_status"] == Str("active")
      && after["plan"] == Str("none") && after["subscription_status"] == Str("canceled")
      && after["stripe_customer_id"] == Str(customer) && after["subscription_id"] == Str(sub)
  {
  }
}
