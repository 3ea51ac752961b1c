/**
 * The Stripe webhook (app/api/webhooks/route.ts): checks the signature
 * header and secret, lets Stripe construct the event, and hands each of the
 * ten relevant event types to one catalogue or subscription action.
 *
 * Event construction (signature checking) and the actions are foreign:
 * construction is a given result, and whether the called action throws is
 * a given flag. The model returns the response and the action called.
 */
module StripeWebhook {
  import opened Common

  /** The event types the handler acts on. */
  const RELEVANT_EVENTS: set<string> := {
    "product.created", "product.updated", "product.deleted",
    "price.created", "price.updated", "price.deleted",
    "checkout.session.completed",
    "customer.subscription.created", "customer.subscription.updated", "customer.subscription.deleted"
  }

  /** The fields of `event.data.object` that the handler reads: the object's
    * id, and for subscriptions and checkout sessions the customer, the
    * checkout mode and the subscription id. */
  datatype EventObject = EventObject(id: string, customer: string, mode: string, subscription: string)

  datatype StripeEvent = StripeEvent(eventType: string, obj: EventObject)

  /** The catalogue and subscription actions. */
  datatype Action =
    | UpsertProduct(productId: string)
    | UpsertPrice(priceId: string)
    | DeletePrice(priceId: string)
    | DeleteProduct(productId: string)
    | ManageSubscriptionStatusChange(subscriptionId: string, customerId: string, createAction: bool)

  /** A response; `new Response(body)` without options has status 200. */
  datatype Response = Response(status: int, body: string)

  datatype Handled = Handled(response: Response, called: Option<Action>)

  const SECRET_NOT_FOUND := Response(400, "Webhook secret not found.")
  const HANDLER_FAILED := Response(400, "Webhook handler failed. View your Next.js function logs.")
  const RECEIVED := Response(200, "{\"received\":true}")

  /** The action an event of a relevant type calls, if any. */
  function ActionFor(ev: StripeEvent): (a: Option<Action>)
    ensures a.Some? ==> ev.eventType in RELEVANT_EVENTS
    ensures ev.eventType in {"customer.subscription.created", "customer.subscription.updated", "customer.subscription.deleted"}
            ==> a == Some(ManageSubscriptionStatusChange(ev.obj.id, ev.obj.customer, ev.eventType == "customer.subscription.created"))
    ensures ev.eventType == "checkout.session.completed"
            ==> a == (if ev.obj.mode == "subscription" then Some(ManageSubscriptionStatusChange(ev.obj.subscription, ev.obj.customer, true)) else None)
    ensures a.Some? && a.value.ManageSubscriptionStatusChange? && a.value.createAction
            ==> ev.eventType in {"customer.subscription.created", "checkout.session.completed"}
  {
    match ev.eventType
    case "product.created" => Some(UpsertProduct(ev.obj.id))
    case "product.updated" => Some(UpsertProduct(ev.obj.id))
    case "price.created" => Some(UpsertPrice(ev.obj.id))
    case "price.updated" => Some(UpsertPrice(ev.obj.id))
    case "price.deleted" => Some(DeletePrice(ev.obj.id))
    case "product.deleted" => Some(DeleteProduct(ev.obj.id))
    case "customer.subscription.created" => Some(ManageSubscriptionStatusChange(ev.obj.id, ev.obj.customer, true))
    case "customer.subscription.updated" => Some(ManageSubscriptionStatusChange(ev.obj.id, ev.obj.customer, false))
    case "customer.subscription.deleted" => Some(ManageSubscriptionStatusChange(ev.obj.id, ev.obj.customer, false))
    case "checkout.session.completed" =>
      if ev.obj.mode == "subscription" then Some(ManageSubscriptionStatusChange(ev.obj.subscription, ev.obj.customer, true)) else None
    case _ => None
  }

  /** The route handler. `construct` is what `constructEvent` returns or the
    * message it throws; `actionThrows` says whether the called action throws. */
  function Post(signature: Option<string>, secret: Option<string>, construct: Result<StripeEvent>, actionThrows: bool): (h: Handled)
    ensures !(signature.Some? && signature.value != "" && secret.Some? && secret.value != "")
            ==> h == Handled(SECRET_NOT_FOUND, None)
    ensures h.response.status == 400 || h.response.status == 200
    ensures h.called.Some? ==> construct.Ok? && h.called == ActionFor(construct.value)
  {
    if !(signature.Some? && signature.value != "" && secret.Some? && secret.value != "") then
      Handled(SECRET_NOT_FOUND, None)
    else if construct.Err? then
      Handled(Response(400, "Webhook Error: " + construct.error), None)
    else
      var ev := construct.value;
      if ev.eventType !in RELEVANT_EVENTS then
        Handled(Response(200, "Unsupported event type: " + ev.eventType), None)
      else
        var a := ActionFor(ev);
        Handled(if a.Some? && actionThrows then HANDLER_FAILED else RECEIVED, a)
  }

  /** A present signature and secret, as a precondition of the lemmas. */
  predicate Configured(signature: Option<string>, secret: Option<string>)
  {
    signature.Some? && signature.value != "" && secret.Some? && secret.value != ""
  }

  /** A construction failure answers 400 with its message and calls nothing. */
  lemma ConstructionFailure(signature: Option<string>, secret: Option<string>, message: string, actionThrows: bool)
    requires Configured(signature, secret)
    ensures Post(signature, secret, Err(message), actionThrows) == Handled(Response(400, "Webhook Error: " + message), None)
  {
  }

  /** A type outside the ten relevant events gets a default-status
    * "Unsupported event type" answer and calls nothing. */
  lemma UnsupportedEventType(signature: Option<string>, secret: Option<string>, ev: StripeEvent, actionThrows: bool)
    requires Configured(signature, secret) && ev.eventType !in RELEVANT_EVENTS
    ensures Post(signature, secret, Ok(ev), actionThrows) == Handled(Response(200, "Unsupported event type: " + ev.eventType), None)
  {
  }

  /** A relevant event is answered 400 exactly when its action was called
    * and threw, and `{received: true}` otherwise. */
  lemma RelevantEventAnswer(signature: Option<string>, secret: Option<string>, ev: StripeEvent, actionThrows: bool)
    requires Configured(signature, secret) && ev.eventType in RELEVANT_EVENTS
    ensures var h := Post(signature, secret, Ok(ev), actionThrows);
            h.called == ActionFor(ev)
            && (h.response == HANDLER_FAILED <==> ActionFor(ev).Some? && actionThrows)
            && (h.response != HANDLER_FAILED ==> h.response == RECEIVED)
  {
  }

  /** Each relevant type except a non-subscription checkout calls exactly one action. */
  lemma RelevantEventsCallAnAction(ev: StripeEvent)
    requires ev.eventType in RELEVANT_EVENTS
    ensures ActionFor(ev).None? <==> ev.eventType == "checkout.session.completed" && ev.obj.mode != "subscription"
  {
  }
}
