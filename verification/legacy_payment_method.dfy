/**
 * `ONVO\Models\PaymentMethod` and its companion classes in
 * `src/ONVO/Models/PaymentMethod.php`: the older declaration of a payment
 * method, without `setData`. Its `Billing`, `MobileNumber` and `Zunify`
 * classes have the same properties and the same `toArray` as the ones in
 * the `PaymentMethod` namespace, so they share their models; its `Card`
 * has no `cvv`.
 */
module LegacyPaymentMethod {
  import opened Php
  import PaymentMethod
  import BillingModel = Billing
  import MobileNumberModel = MobileNumber
  import ZunifyModel = Zunify

  /** A legacy Card: brand, expiry and last four digits. */
  datatype Card = Card(brand: string, expMonth: Int64, expYear: Int64, last4: string) {
    /** `toArray()`: exactly the four properties. */
    function ToArray(): (m: map<string, Json>)
      ensures m.Keys == {"brand", "expMonth", "expYear", "last4"}
      ensures m["brand"] == JString(brand) && m["expMonth"] == JInt(expMonth) && m["expYear"] == JInt(expYear) &&
              m["last4"] == JString(last4)
    {
      map["brand" := JString(brand), "expMonth" := JInt(expMonth), "expYear" := JInt(expYear),
          "last4" := JString(last4)]
    }
  }

  /** A legacy PaymentMethod object. `methodType` is the property `type`. */
  datatype PaymentMethodFields = PaymentMethodFields(
    id: string,
    billing: Option<BillingModel.BillingFields>,
    card: Option<Card>,
    createdAt: DateTime,
    customerId: Option<string>,
    mobileNumber: Option<MobileNumberModel.MobileNumberFields>,
    zunify: Option<ZunifyModel.ZunifyFields>,
    mode: string,
    status: string,
    methodType: string,
    updatedAt: DateTime)
  {
    /** `toArray(true)`: the shape `PaymentMethod.NewArrayShape` describes,
        filled with the nested objects' own `toArray()`. */
    function ToNewArray(): (m: map<string, Json>)
      ensures "type" in m && m["type"] == JString(methodType)
      ensures "billing" in m <==> billing.Some?
      ensures "customerId" in m <==> customerId.Some?
      ensures "card" in m <==> methodType == "card" && card.Some?
      ensures "card" in m ==> m["card"] == JObject(card.value.ToArray())
      ensures "mobileNumber" in m <==> methodType == "mobile_number" && mobileNumber.Some?
      ensures "zunify" in m <==> methodType == "zunify" && zunify.Some?
    {
      PaymentMethod.NewArrayShape(methodType, if billing.Some? then Some(JObject(billing.value.ToArray())) else None,
                                  customerId, if card.Some? then Some(JObject(card.value.ToArray())) else None,
                                  if mobileNumber.Some? then Some(JObject(mobileNumber.value.ToArray())) else None,
                                  if zunify.Some? then Some(JObject(zunify.value.ToArray())) else None)
    }

    /** `toArray(false)`: the eleven keys, nested objects as their own
        `toArray()` or null. */
    function ToArray(): (m: map<string, Json>)
      ensures m.Keys == {"id", "billing", "card", "createdAt", "customerId", "mobileNumber", "zunify", "mode",
                         "status", "type", "updatedAt"}
    {
      map["id" := JString(id), "billing" := BillingArray(), "card" := CardArray(),
          "createdAt" := JString(createdAt.atom), "customerId" := OptStr(customerId),
          "mobileNumber" := MobileNumberArray(), "zunify" := ZunifyArray(), "mode" := JString(mode),
          "status" := JString(status), "type" := JString(methodType), "updatedAt" := JString(updatedAt.atom)]
    }

    // `$this->x?->toArray()` for each nested object

    function BillingArray(): Json {
      if billing.Some? then JObject(billing.value.ToArray()) else JNull
    }

    function CardArray(): Json {
      if card.Some? then JObject(card.value.ToArray()) else JNull
    }

    function MobileNumberArray(): Json {
      if mobileNumber.Some? then JObject(mobileNumber.value.ToArray()) else JNull
    }

    function ZunifyArray(): Json {
      if zunify.Some? then JObject(zunify.value.ToArray()) else JNull
    }
  }

  /** The companion objects' arrays have fixed shapes: six keys for a
      billing, four for a card and two for a Zunify account; a mobile number
      always shows its masked number. */
  lemma CompanionShapes(b: BillingModel.BillingFields, c: Card, m: MobileNumberModel.MobileNumberFields,
                        z: ZunifyModel.ZunifyFields)
    ensures |b.ToArray().Keys| == 6 && |c.ToArray().Keys| == 4 && |z.ToArray().Keys| == 2
    ensures "maskedNumber" in m.ToArray()
  {
    var six: set<string> := {"address", "name", "phone", "email", "idType", "idNumber"};
    assert |six| == 6;
    var four: set<string> := {"brand", "expMonth", "expYear", "last4"};
    assert |four| == 4;
    var two: set<string> := {"pin", "phoneNumber"};
    assert |two| == 2;
  }
}
