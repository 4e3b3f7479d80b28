/**
 * `WebhookService::handle`: payload guards, the fixed event table, building
 * the event (store, then validate), and the `{type, data}` answer.
 */
module Webhook {
  import opened Php
  import opened Events

  /** The event table. It is a constant: nothing writes it. */
  const EventMap: map<string, EventKind> := map[
    "payment-intent.succeeded" := PaymentIntentSucceededEvent,
    "payment-intent.failed" := PaymentIntentFailedEvent,
    "payment-intent.deferred" := PaymentIntentDeferredEvent,
    "subscription.renewal.succeeded" := SubscriptionRenewalSucceededEvent,
    "subscription.renewal.failed" := SubscriptionRenewalFailedEvent,
    "checkout-session.succeeded" := CheckoutSessionSucceededEvent,
    "mobile-transfer.received" := MobileTransferReceivedEvent
  ]

  /** How `handle` can fail: the two WebhookExceptions, the TypeError PHP
      raises for `isset($this->map[$type])` when `$type` is an array, and the
      event's own exception, passed through as it is. */
  datatype HandleError =
    | InvalidPayload
    | UnknownEvent(eventType: Json)
    | IllegalOffset
    | Event(error: EventError)

  /** The payload guard: a non-empty `type`, and a `data` that is an array. */
  predicate WellShaped(payload: map<string, Json>) {
    !Empty(Read(payload, "type")) && IsSet(payload, "data") && IsArray(payload["data"])
  }

  /** The event kind a well-shaped payload's type names, if any. */
  function KindOf(t: Json): (k: Option<EventKind>)
    ensures k.Some? <==> t.JString? && t.s in EventMap
  {
    if t.JString? && t.s in EventMap then Some(EventMap[t.s]) else None
  }

  /** `handle($payload)`. The `class_exists` guard is absent: every kind in
      the table has its class. */
  function Handle(payload: map<string, Json>, rt: Runtime): (r: Result<map<string, Json>, HandleError>)
    ensures !WellShaped(payload) <==> r == Failure(InvalidPayload)
    ensures WellShaped(payload) && !IsArray(payload["type"]) && KindOf(payload["type"]).None? ==>
      r == Failure(UnknownEvent(payload["type"]))
    ensures r.Success? ==> r.value.Keys == {"type", "data"}
    ensures r.Success? ==> r.value["type"] == payload["type"] && r.value["data"] == payload["data"]
    ensures r.Success? ==> KindOf(payload["type"]).Some?
  {
    if !WellShaped(payload) then Failure(InvalidPayload)
    else
      var t := payload["type"];
      if IsArray(t) then Failure(IllegalOffset)
      else match KindOf(t)
        case None => Failure(UnknownEvent(t))
        case Some(kind) =>
          match ValidateData(kind, Entries(payload["data"]), rt)
          case Failure(e) => Failure(Event(e))
          case Success(_) => Success(map["type" := t, "data" := payload["data"]])
  }

  /** `handle` as written: it builds the event object and answers with what
      its getters return. */
  method HandleWithEvent(payload: map<string, Json>, rt: Runtime) returns (r: Result<map<string, Json>, HandleError>)
    ensures r == Handle(payload, rt)
  {
    if Empty(Read(payload, "type")) || !IsSet(payload, "data") || !IsArray(payload["data"]) {
      return Failure(InvalidPayload);
    }
    var t := payload["type"];
    if IsArray(t) {
      return Failure(IllegalOffset);
    }
    if !(t.JString? && t.s in EventMap) {
      return Failure(UnknownEvent(t));
    }
    var built := BaseEvent.Create(EventMap[t.s], t.s, payload["data"], rt);
    if built.Failure? {
      return Failure(Event(built.error));
    }
    var event := built.value;
    return Success(map["type" := JString(event.GetType()), "data" := event.GetRawData()]);
  }

  // ---------------------------------------------------------------------------
  // Properties

  /** The table pairs each of the seven classes with exactly one type
      name, the one the class itself reports in its errors: so it has seven
      keys and no two of them share a class. */
  lemma EventMapIsFixed()
    ensures forall name :: name in EventMap ==> EventMap[name].Name() == name
    ensures forall k: EventKind :: k.Name() in EventMap && EventMap[k.Name()] == k
    ensures forall a, b :: a in EventMap && b in EventMap && a != b ==> EventMap[a] != EventMap[b]
  {
  }

  /** A missing `type`, or a falsy one such as "0", is rejected before any
      lookup, whatever `data` holds. */
  lemma MissingOrFalsyTypeIsInvalid(payload: map<string, Json>, rt: Runtime)
    requires "type" !in payload || payload["type"] in {JNull, JBool(false), JInt(0), JString(""), JString("0")}
    ensures Handle(payload, rt) == Failure(InvalidPayload)
  {
  }

  /** A validation failure inside the event reaches the caller as the
      event's own error, not as a WebhookException. */
  lemma ValidationFailurePropagates(payload: map<string, Json>, rt: Runtime, kind: EventKind)
    requires WellShaped(payload) && KindOf(payload["type"]) == Some(kind)
    requires ValidateData(kind, Entries(payload["data"]), rt).Failure?
    ensures Handle(payload, rt) == Failure(Event(ValidateData(kind, Entries(payload["data"]), rt).error))
  {
  }

  /** Pass-through: a payload whose data the named class validates comes
      back as exactly `{type, data}`. */
  lemma ValidPayloadPassesThrough(payload: map<string, Json>, rt: Runtime, kind: EventKind)
    requires WellShaped(payload) && KindOf(payload["type"]) == Some(kind)
    requires ValidateData(kind, Entries(payload["data"]), rt).Success?
    ensures Handle(payload, rt) == Success(map["type" := payload["type"], "data" := payload["data"]])
  {
  }

  /** Removing one required key: when `f` is the only required key the check
      rejects, the error names `f` and the event type, whatever the rest of
      the data holds. */
  lemma MissingRequiredKeyIsNamed(payload: map<string, Json>, rt: Runtime, kind: EventKind, f: string)
    requires WellShaped(payload) && KindOf(payload["type"]) == Some(kind)
    requires f in kind.Required() && !Present(Entries(payload["data"]), f, kind.NullIsMissing())
    requires forall g :: g in kind.Required() && g != f ==> Present(Entries(payload["data"]), g, kind.NullIsMissing())
    ensures Handle(payload, rt) == Failure(Event(MissingField(f, kind.Name())))
  {
    OnlyMissingIsReported(Entries(payload["data"]), kind.Required(), kind.NullIsMissing(), f);
  }

  /** Only `payment-intent.succeeded` treats a required key holding null as
      missing; the other six accept it at the check (and fail, if at all,
      while copying). */
  lemma NullRequiredKey(payload: map<string, Json>, rt: Runtime, kind: EventKind, f: string)
    requires WellShaped(payload) && KindOf(payload["type"]) == Some(kind)
    requires f in kind.Required() && Read(Entries(payload["data"]), f) == JNull
    requires forall g :: g in kind.Required() && g != f ==> IsSet(Entries(payload["data"]), g)
    ensures kind == PaymentIntentSucceededEvent ==>
      Handle(payload, rt) == Failure(Event(MissingField(f, kind.Name())))
    ensures kind != PaymentIntentSucceededEvent && f in Entries(payload["data"]) ==>
      Handle(payload, rt) != Failure(Event(MissingField(f, kind.Name())))
  {
    if kind == PaymentIntentSucceededEvent {
      NullIsMissingWhenStrict(payload, rt, f);
    } else if f in Entries(payload["data"]) {
      NullIsPresentOtherwise(payload, rt, kind, f);
    }
  }

  lemma NullIsMissingWhenStrict(payload: map<string, Json>, rt: Runtime, f: string)
    requires WellShaped(payload) && KindOf(payload["type"]) == Some(PaymentIntentSucceededEvent)
    requires f in PaymentIntentSucceededEvent.Required() && Read(Entries(payload["data"]), f) == JNull
    requires forall g :: g in PaymentIntentSucceededEvent.Required() && g != f ==> IsSet(Entries(payload["data"]), g)
    ensures Handle(payload, rt) == Failure(Event(MissingField(f, PaymentIntentSucceededEvent.Name())))
  {
    OnlyMissingIsReported(Entries(payload["data"]), PaymentIntentSucceededEvent.Required(), true, f);
  }

  lemma NullIsPresentOtherwise(payload: map<string, Json>, rt: Runtime, kind: EventKind, f: string)
    requires WellShaped(payload) && KindOf(payload["type"]) == Some(kind) && kind != PaymentIntentSucceededEvent
    requires f in Entries(payload["data"])
    requires forall g :: g in kind.Required() && g != f ==> IsSet(Entries(payload["data"]), g)
    ensures Handle(payload, rt) != Failure(Event(MissingField(f, kind.Name())))
  {
    var d := Entries(payload["data"]);
    assert FirstMissing(d, kind.Required(), false).None?;
    var v := ValidateData(kind, d, rt);
    assert v.Success? || v.error.Raised?;
  }

  // ---------------------------------------------------------------------------
  // Scenarios

  /** A payload whose data has every required key and copies without error
      comes back as `{type, data}`. */
  lemma CompletePayloadPassesThrough(payload: map<string, Json>, rt: Runtime, kind: EventKind)
    requires WellShaped(payload) && KindOf(payload["type"]) == Some(kind)
    requires FirstMissing(Entries(payload["data"]), kind.Required(), kind.NullIsMissing()).None?
    requires Build(kind, Entries(payload["data"]), rt).Success?
    ensures Handle(payload, rt) == Success(map["type" := payload["type"], "data" := payload["data"]])
  {
    ValidPayloadPassesThrough(payload, rt, kind);
  }

  lemma ScenarioCheckoutSessionSucceeded(rt: Runtime)
    ensures var data := JObject(map["mode" := JString("test"), "paymentStatus" := JString("paid"),
                                    "currency" := JString("USD"), "url" := JString("https://x"),
                                    "amountTotal" := JInt(1000)]);
            Handle(map["type" := JString("checkout-session.succeeded"), "data" := data], rt)
              == Success(map["type" := JString("checkout-session.succeeded"), "data" := data])
  {
    var d := map["mode" := JString("test"), "paymentStatus" := JString("paid"),
                 "currency" := JString("USD"), "url" := JString("https://x"),
                 "amountTotal" := JInt(1000)];
    var payload := map["type" := JString("checkout-session.succeeded"), "data" := JObject(d)];
    assert WellShaped(payload);
    assert KindOf(payload["type"]) == Some(CheckoutSessionSucceededEvent);
    assert FirstMissing(d, CheckoutSessionSucceededEvent.Required(), false).None?;
    CheckoutSessionDataCopies(d, rt);
    assert Build(CheckoutSessionSucceededEvent, d, rt).Success?;
    CompletePayloadPassesThrough(payload, rt, CheckoutSessionSucceededEvent);
  }

  lemma CheckoutSessionDataCopies(d: map<string, Json>, rt: Runtime)
    requires d == map["mode" := JString("test"), "paymentStatus" := JString("paid"),
                      "currency" := JString("USD"), "url" := JString("https://x"),
                      "amountTotal" := JInt(1000)]
    ensures BuildCheckoutSessionSucceeded(d, rt).Success?
  {
    assert !IsSet(d, "createdAt") && !IsSet(d, "lineItems") && Read(d, "metadata") == JNull && Read(d, "customer") == JNull;
    assert Read(d, "mode") == JString("test") && Read(d, "paymentStatus") == JString("paid");
    assert Read(d, "currency") == JString("USD") && Read(d, "url") == JString("https://x");
  }

  lemma ScenarioPaymentIntentFailedWithoutError(rt: Runtime)
    ensures var data := JObject(map["id" := JString("pi_1"), "accountId" := JString("acc_1"),
                                    "currency" := JString("USD"), "status" := JString("failed")]);
            Handle(map["type" := JString("payment-intent.failed"), "data" := data], rt)
              == Failure(Event(MissingField("error", "payment-intent.failed")))
  {
    var d := map["id" := JString("pi_1"), "accountId" := JString("acc_1"),
                 "currency" := JString("USD"), "status" := JString("failed")];
    var payload := map["type" := JString("payment-intent.failed"), "data" := JObject(d)];
    assert WellShaped(payload);
    assert KindOf(payload["type"]) == Some(PaymentIntentFailedEvent);
    MissingRequiredKeyIsNamed(payload, rt, PaymentIntentFailedEvent, "error");
  }

  lemma ScenarioUnknownEvent(rt: Runtime)
    ensures Handle(map["type" := JString("unknown.event"), "data" := JObject(map[])], rt)
            == Failure(UnknownEvent(JString("unknown.event")))
  {
  }

  lemma ScenarioMobileTransferReceived(rt: Runtime)
    requires rt.construct("2024-01-01T00:00:00Z").Some?
    ensures var data := JObject(map["amount" := JInt(500), "currency" := JString("CRC"),
                                    "SINPERefNumber" := JString("R1"), "originId" := JString("o1"),
                                    "originName" := JString("Jane"),
                                    "authorizationDate" := JString("2024-01-01T00:00:00Z")]);
            Handle(map["type" := JString("mobile-transfer.received"), "data" := data], rt)
              == Success(map["type" := JString("mobile-transfer.received"), "data" := data])
  {
    var d := map["amount" := JInt(500), "currency" := JString("CRC"),
                 "SINPERefNumber" := JString("R1"), "originId" := JString("o1"),
                 "originName" := JString("Jane"),
                 "authorizationDate" := JString("2024-01-01T00:00:00Z")];
    var payload := map["type" := JString("mobile-transfer.received"), "data" := JObject(d)];
    assert WellShaped(payload);
    assert KindOf(payload["type"]) == Some(MobileTransferReceivedEvent);
    assert FirstMissing(d, MobileTransferReceivedEvent.Required(), false).None?;
    MobileTransferDataCopies(d, rt);
    assert Build(MobileTransferReceivedEvent, d, rt).Success?;
    CompletePayloadPassesThrough(payload, rt, MobileTransferReceivedEvent);
  }

  lemma MobileTransferDataCopies(d: map<string, Json>, rt: Runtime)
    requires rt.construct("2024-01-01T00:00:00Z").Some?
    requires d == map["amount" := JInt(500), "currency" := JString("CRC"),
                      "SINPERefNumber" := JString("R1"), "originId" := JString("o1"),
                      "originName" := JString("Jane"),
                      "authorizationDate" := JString("2024-01-01T00:00:00Z")]
    ensures BuildMobileTransferReceived(d, rt).Success?
  {
    assert !IsSet(d, "description") && !IsSet(d, "originPhone");
    assert Read(d, "authorizationDate") == JString("2024-01-01T00:00:00Z");
    assert Read(d, "currency") == JString("CRC") && Read(d, "SINPERefNumber") == JString("R1");
    assert Read(d, "originId") == JString("o1") && Read(d, "originName") == JString("Jane");
  }
}
