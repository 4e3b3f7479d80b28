# ONVO Pay PHP SDK — a Dafny model of its data core

This project models, in Dafny, the parts of the ONVO Pay PHP SDK that hold logic
rather than HTTP calls, and proves what they promise:

- **The webhook decoder** (`WebhookService::handle`, module `Webhook`). It guards
  the payload shape, looks the event type up in a fixed table of seven event
  classes, builds the event, and answers `{type, data}` with the data unchanged.
  The event classes are in module `Events`. `BaseEvent` is a class: its
  constructor stores the type and the raw data, and `Validate` then runs the
  variant's `validate()`. That `validate()` is a walk over the required keys that
  reports the first missing one (`CheckRequired`), followed by the field decoding
  of the variant (`Build…`): `(int)` casts, verbatim copies, optional fields, dates,
  and the `Customer`, `Metadata` and `ErrorDetail` value objects.
- **The pagination query builder** (`Client::addPaginationParams`,
  `isValidIso8601` and the pagination branch of `get`, module `Pagination`).
- **The model serialisers.** Each data class has its own module: `Address`,
  `Billing`, `Card`, `MobileNumber`, `Zunify`, `PaymentMethod`,
  `LegacyPaymentMethod`, `Client`, `Charge`, `PaymentError`, `RedirectToUrl`,
  `NextAction`, `PaymentIntent`, `Recurring`, `Price`, `Product`,
  `DeliveryEstimate`, `ShippingRate`, `Refund`, `Invoice`, `RecurringCharge`
  and `CheckoutSession`.
  - A class whose `setData` updates its properties in place is a Dafny `class`
    with those fields. Its `SetData` method is proved equal to `Apply`, a function
    on the `…Fields` value. `Apply` runs the `if (isset($data[key]))` blocks in
    source order (`Setter.Fold`) and stops at the first exception. The
    assignments made before the exception stay in place, as they do in PHP.
  - The `toArray(true)`, `toArray(false)` and `toUpdateArray()` projections are
    functions on the `…Fields` value. They return a `map` from key to JSON value.
  - Constructors with typed parameters are `New` functions, which return an error
    where PHP would throw.

Values come in as `Php.Json`: null, booleans, integers, strings, lists and
string-keyed objects, i.e. the decoded JSON the SDK receives. Module `Php`
models the PHP semantics the code relies on:
- `isset` and `empty`;
- the `(bool)` cast;
- the `(int)` cast (`Php.IntCast`). A string is read by PHP's numeric-prefix
  scan (`Php.NumericPrefix`): leading whitespace, a sign, digits, a fraction and
  an exponent, stopping at the first character that does not fit. Its value is
  rounded toward zero. A value outside the 64-bit range saturates at the nearest
  bound, and one too large for a double (infinity) gives 0 (`Php.CapToInt64`).
  A string without a numeric prefix gives 0;
- coercion into typed properties in non-strict mode (`Php.ToStr`, `ToInt`,
  `ToBool`), where a null or an array stored into a non-nullable scalar property
  is a `TypeError`. For an `int` property, a string is read by the same scan. It
  is refused when it has no numeric prefix or when its value does not fit in 64
  bits (`Php.TextToInt`);
- `new DateTime(...)`.

The runtime services the code only calls are a `Php.Runtime` parameter:
- `new DateTime($text)`, which can fail and which reads the clock;
- `DateTime::createFromFormat(DateTime::ATOM, …)`;
- the order in which `foreach` visits the keys of an object.

Dates are values identified by their `DateTime::ATOM` text, the `date-time`
format of section 5.6 of RFC 3339.

Behaviour of the code kept as written:
- **PaymentIntent nested objects.** `PaymentIntent::setData` stores the result of
  a child `setData`, which returns nothing. So `charges` becomes a list of nulls,
  `lastPaymentError` and `nextAction` become null, and `toArray()` then fails on
  a null charge (`ApplyBreaksToArray`, `ApplyClearsNested`).
- **RecurringCharge startDate.** `RecurringCharge::setData` parses `$data['']`
  for `startDate` (`StartDateIgnoresItsValue`).
- **Line-item prices.** `CheckoutSession` builds line-item prices with
  `new Price()` of `ONVO\Models\Product\Price`. The only `Price` class in the
  repository is declared in `App\Models\Product`. A line item with a set `price`
  therefore raises class-not-found (`PricedItemStops`), assuming the autoloader
  finds no other file for that name.
- **Default constructors that always throw.** Several default constructors always
  throw, because a `null` default does not fit a non-nullable property:
  `new Address()`, `new Billing()`, `new Card()`, `new Zunify()`, `new Recurring()`,
  `new DeliveryEstimate()` and `new PackageDimensions()`. So a `setData` that
  builds one of them from a set key always raises (`AddressKeyStops`,
  `NestedDefaultsRefused`, `DimensionsKeyStops`, `NestedKeysStop`).

## Model

| member | source | states |
|---|---|---|
| Webhook.KindOf | src/ONVO/Services/WebhookService.php:11-19 | a type string selects an event class exactly when it is one of the seven keys of the table |
| Webhook.EventMapIsFixed | src/ONVO/Services/WebhookService.php:11-19 | the table has seven entries, pairs each event class with exactly one type name (the one the class names in its own errors), and no two names share a class |
| Webhook.Handle | src/ONVO/Services/WebhookService.php:32-55 | a falsy `type` or a missing, null or non-array `data` is an invalid payload, checked before the lookup; an unknown type is reported with that type; on success the answer has exactly the keys `type` and `data`, both equal to the input |
| Webhook.HandleWithEvent | src/ONVO/Services/WebhookService.php:32-55 | running `handle` as written (build the event object, answer from its getters) gives exactly `Handle` |
| Webhook.MissingOrFalsyTypeIsInvalid | src/ONVO/Services/WebhookService.php:34-36 | a missing type, or one of the falsy values null, false, 0, "" and "0", is rejected as an invalid payload |
| Webhook.ValidationFailurePropagates | src/ONVO/Services/WebhookService.php:49 | a failure of the event's own validation comes out as that event error, not as a webhook error |
| Webhook.ValidPayloadPassesThrough | src/ONVO/Services/WebhookService.php:49-54 | when the event validates, the answer is `{type, data}` with the data unchanged |
| Webhook.MissingRequiredKeyIsNamed | src/ONVO/Services/WebhookService.php:34-49 | a payload that passes the guards and lacks exactly one required key fails naming that key and the event type |
| Webhook.NullRequiredKey | src/ONVO/Models/Events/PaymentIntentSucceededEvent.php:23-27 | a required key holding null is missing for `payment-intent.succeeded` (which checks with `isset`) and is not reported missing by the other six events (which check with `array_key_exists`) |
| Webhook.ScenarioCheckoutSessionSucceeded | src/ONVO/Models/Events/CheckoutSessionSucceededEvent.php:19-37 | a checkout-session payload with the five required keys passes through unchanged |
| Webhook.ScenarioPaymentIntentFailedWithoutError | src/ONVO/Models/Events/PaymentIntentFailedEvent.php:18-25 | a payment-intent.failed payload without `error` fails naming `error` |
| Webhook.ScenarioUnknownEvent | src/ONVO/Services/WebhookService.php:38-41 | an unknown type is reported with the type itself |
| Webhook.ScenarioMobileTransferReceived | src/ONVO/Models/Events/MobileTransferReceivedEvent.php:15-33 | a mobile-transfer payload with its six required keys and a parseable date passes through unchanged |
| Events.BaseEvent.constructor | src/ONVO/Models/Events/BaseEvent.php:9-14 | the type and the raw data are stored as given, before any validation |
| Events.BaseEvent.Validate | src/ONVO/Models/Events/BaseEvent.php:13 | runs the variant's `validate()` on the stored raw data: it succeeds exactly when `ValidateData` does, fills the typed fields with its value, and on failure reports its error and leaves them as they were |
| Events.BaseEvent.Create | src/ONVO/Models/Events/BaseEvent.php:9-27 | construction then validation: no object comes out when validation fails; otherwise `getType` and `getRawData` return exactly the type and the array given |
| Events.CheckRequired | src/ONVO/Models/Events/PaymentIntentSucceededEvent.php:23-27 | the `foreach` over the required keys returns the first missing key in declared order, or none |
| Events.FirstMissing | src/ONVO/Models/Events/PaymentIntentSucceededEvent.php:23-27 | none is missing exactly when every required key is present; a reported key is required and absent |
| Events.FirstMissingIsFirst | src/ONVO/Models/Events/PaymentIntentDeferredEvent.php:22-29 | the reported key is the first absent one in declared order |
| Events.OnlyMissingIsReported | src/ONVO/Models/Events/SubscriptionRenewalFailedEvent.php:28-36 | when exactly one required key is absent, that key is the one reported |
| Events.ValidateData | src/ONVO/Models/Events/BaseEvent.php:13 | validation fails with the first missing required key and the event name; otherwise it is the field decoding of the variant, whose own failures are passed on |
| Events.StrAt | src/ONVO/Models/Events/PaymentIntentSucceededEvent.php:29-35 | a verbatim copy into a `string` property: succeeds exactly when the value coerces to text, and gives that text |
| Events.NullableStrAt | src/ONVO/Models/Events/MobileTransferReceivedEvent.php:27-31 | `$data[k] ?? null` into a `?string` property: null when unset, the text when set, a failure only for an array |
| Events.OptionalDateAt | src/ONVO/Models/Events/SubscriptionRenewalSucceededEvent.php:31-32 | an optional date is null when the key is unset and the parsed date otherwise |
| Events.CustomerFromArray | src/ONVO/Models/Events/Value/Main.php:11-19 | copies id, name, phone and email verbatim, with no default: it fails when any of them is not text, and refuses a non-array |
| Events.MetadataFromArray | src/ONVO/Models/Events/Value/Main.php:27-32 | stores the array unchanged; refuses anything else |
| Events.ErrorDetailFromArray | src/ONVO/Models/Events/Value/Main.php:43-52 | a non-array is refused; `message` has no default and must coerce to text; code, type and paymentMethodType are null exactly when absent or null and otherwise their text, failing only on an array; a missing `createdAt` reaches `new DateTime(null)`, read as the current time; it succeeds exactly when each of these succeeds |
| Events.OptionalCustomerAt | src/ONVO/Models/Events/PaymentIntentFailedEvent.php:31 | the customer is null when the raw value is empty, and otherwise decoded by `Customer::fromArray` |
| Events.OptionalMetadataAt | src/ONVO/Models/Events/PaymentIntentFailedEvent.php:32 | the metadata is null when the raw value is empty, and otherwise the array unchanged |
| Events.BuildPaymentIntentSucceeded | src/ONVO/Models/Events/PaymentIntentSucceededEvent.php:29-40 | succeeds exactly when the five strings coerce, createdAt parses, customer decodes and a non-empty metadata is an array; amount and confirmationAttempts are `(int)` casts, the strings verbatim copies, createdAt the parsed date, customer the decoded one, metadata set exactly when non-empty and then the array unchanged |
| Events.BuildPaymentIntentFailed | src/ONVO/Models/Events/PaymentIntentFailedEvent.php:27-33 | succeeds exactly when the four strings coerce, a non-empty customer decodes, a non-empty metadata is an array and error decodes; the strings are verbatim copies; customer and metadata are null exactly when empty and otherwise the decoded customer and the array unchanged; error is `ErrorDetail::fromArray` of the entry |
| Events.BuildPaymentIntentDeferred | src/ONVO/Models/Events/PaymentIntentDeferredEvent.php:31-42 | succeeds exactly when the eight strings coerce and createdAt parses; three `(int)` casts, createdAt parsed, the other eight fields verbatim; nothing is optional |
| Events.BuildSubscriptionRenewalSucceeded | src/ONVO/Models/Events/SubscriptionRenewalSucceededEvent.php:26-35 | succeeds exactly when the seven strings coerce and each set period date parses; total is an `(int)` cast; periodStart and periodEnd are null exactly when unset and parsed otherwise; the strings are verbatim |
| Events.BuildSubscriptionRenewalFailed | src/ONVO/Models/Events/SubscriptionRenewalFailedEvent.php:38-56 | succeeds exactly when every coercion, date and nested decoding succeeds; paymentIntentId and attemptCount are null exactly when unset (attemptCount an `(int)` cast otherwise); the four period dates and lastPaymentAttempt are parsed; nextPaymentAttempt is null exactly when unset and otherwise the parsed date; customer is null when empty and otherwise the decoded customer; error is decoded |
| Events.BuildCheckoutSessionSucceeded | src/ONVO/Models/Events/CheckoutSessionSucceededEvent.php:28-36 | succeeds exactly when the four strings coerce, a set createdAt parses, a non-empty metadata is an array, a non-empty customer decodes and a set lineItems is an array; amountTotal is an `(int)` cast; createdAt is null unless set and otherwise the parsed date; metadata and customer are null when empty and otherwise the array unchanged and the decoded customer; lineItems defaults to the empty array |
| Events.BuildMobileTransferReceived | src/ONVO/Models/Events/MobileTransferReceivedEvent.php:24-32 | succeeds exactly when the four required strings coerce, description and originPhone are not arrays and authorizationDate parses; amount is an `(int)` cast; description and originPhone are null exactly when unset; the rest is verbatim |
| Pagination.IsValidIso8601 | src/ONVO/Http/Client.php:201-205 | a value is accepted exactly when it is text that parses in the ATOM format and formats back to the same text; an array is a TypeError |
| Pagination.KeptAmong | src/ONVO/Http/Client.php:127-138 | the bounds kept are among the given keys, each kept exactly when set and valid, with its value unchanged |
| Pagination.KeptBounds | src/ONVO/Http/Client.php:127-138 | the kept bounds are a subset of gt, gte, lt and lte, each one ATOM text that round-trips, and every such bound of the input is kept |
| Pagination.KeptAmongStep | src/ONVO/Http/Client.php:130-136 | one more pass of the `foreach` over the bound keys adds that key exactly when it is kept |
| Pagination.Paginated | src/ONVO/Http/Client.php:115-141 | `limit` is the given limit or 10; `endingBefore` wins over `startingAfter`; `createdAt` holds the kept bounds and is dropped when none is kept; every other key is dropped; an array bound is a TypeError |
| Pagination.AddPaginationParams | src/ONVO/Http/Client.php:115-141 | the loop that builds the query computes exactly `Paginated` |
| Pagination.Query | src/ONVO/Http/Client.php:43-49 | the parameters go out unchanged without pagination, and with it the output keys are among limit, endingBefore, startingAfter and createdAt |
| Php.CapToInt64Caps | src/ONVO/Models/Events/PaymentIntentSucceededEvent.php:32 | `(int)` of a numeric string is its value rounded toward zero when that fits in 64 bits, the nearest of `PHP_INT_MIN` and `PHP_INT_MAX` when it does not, and 0 when the value is too large for a double |
| Php.TextToIntReads | src/ONVO/Models/Client.php:11 | a string stored in an `int` property is accepted exactly when it has a numeric prefix whose value fits in 64 bits, and the property then holds what `(int)` gives |
| Php.DecimalIsNumeric | src/ONVO/Models/Client.php:11 | the text of an integer reads as a whole number with that integer's sign and magnitude, with no fraction and no exponent |
| Php.DecimalRoundTrip | src/ONVO/Models/Client.php:11 | a 64-bit integer turned into text and read back, by `(int)` or by an `int` property, is unchanged |
| Php.ExponentCounts | src/ONVO/Models/Events/PaymentIntentSucceededEvent.php:32 | `(int)"1e3"` is 1000, and an `int` property takes it as 1000 |
| Php.TrailingTextDropped | src/ONVO/Models/Events/PaymentIntentSucceededEvent.php:32 | leading white space is skipped and trailing text dropped: `(int)" -12abc"` is -12 |
| Php.FractionTruncated | src/ONVO/Models/Events/PaymentIntentSucceededEvent.php:32 | a fraction is dropped toward zero: `(int)"1.9"` is 1 |
| Php.NoNumericPrefix | src/ONVO/Models/Events/PaymentIntentSucceededEvent.php:32 | text with no numeric prefix casts to 0 and is refused by an `int` property |
| Php.BeyondInt64 | src/ONVO/Models/Events/PaymentIntentSucceededEvent.php:32 | `(int)"1e19"` is `PHP_INT_MAX` and `(int)"-1e19"` is `PHP_INT_MIN`; an `int` property refuses both |
| Setter.Fold | src/ONVO/Models/Address.php:30-50 | the `if (isset(...))` blocks of a `setData` run in order and stop at the first exception, keeping the assignments made before it; no block means no change |
| Setter.FoldKeeps | src/ONVO/Models/Address.php:30-50 | a property no block changes keeps its value through the whole run |
| Setter.FoldEstablishes | src/ONVO/Models/Address.php:30-50 | what a block stores survives the later blocks when they leave it alone |
| Setter.FoldStops | src/ONVO/Models/Address.php:30-50 | the run stops exactly when some block raises, and with the error of the first one that does |
| Setter.FoldNoOp | src/ONVO/Models/Address.php:30-50 | blocks that change nothing leave the object as it was |
| Arrays.MapList | src/ONVO/Models/PaymentIntent.php:122 | `array_map` over a list succeeds exactly when every element converts, gives one result per element in order, and otherwise fails with the first failing element |
| Arrays.MapKeys | src/ONVO/Models/PaymentIntent.php:122 | over a listing of keys: succeeds exactly when every listed key the object holds converts, keeping exactly those keys with their converted values; a failure is the error of the first listed key that fails |
| Arrays.ArrayMap | src/ONVO/Models/RecurringCharge.php:147-151 | `array_map` refuses a non-array; on a list it succeeds exactly when every element converts, keeping length and order; on an object exactly when every value converts, keeping all its keys; a failure is the first failing element's error, in list order or the runtime's key order |
| Arrays.Project | src/ONVO/Models/PaymentIntent.php:190 | mapping converted elements back keeps the shape: same length or same keys |
| Arrays.MapListProjects | src/ONVO/Models/RecurringCharge.php:295-301 | when each element is the array of its conversion, mapping then projecting gives back the list |
| Arrays.ValuesAt | src/ONVO/Models/CheckoutSession.php:103 | when every listed key is in the array, the values come out one per key, in the listed order; otherwise at most one per key, each a value of the array |
| Arrays.Values | src/ONVO/Models/CheckoutSession.php:103 | a list yields its items in order; an object yields one value per key, in the runtime's key order, and every value of the object is visited; anything else yields nothing |
| Arrays.AppendEachCompletes | src/ONVO/Models/CheckoutSession.php:103-128 | the `foreach` that appends one converted element at a time completes exactly when every element converts, and then appends them all in order |
| Arrays.AppendEachStops | src/ONVO/Models/CheckoutSession.php:103-128 | when it stops, the list holds the converted prefix, and the error is the one of the first element that failed |
| Arrays.AppendEachFromEmpty | src/ONVO/Models/CheckoutSession.php:102-128 | the loop from an empty array completes exactly when every element converts, and then holds one converted element per element in order; when it stops it holds the converted elements before the first failing one, and reports that one's error |
| Arrays.ValuesCoverObject | src/ONVO/Models/CheckoutSession.php:103 | a `foreach` over an object visits every one of its values |
| Address.Address.SetData | src/ONVO/Models/Address.php:30-50 | `setData($data)` updates the object in place to `Apply` of its old state and raises exactly when `Apply` stops, with its error |
| Address.Step | src/ONVO/Models/Address.php:30-50 | one `if (isset(...))` block: an unset or null key changes nothing; a set key stores its coerced value and touches no other property, or raises and changes nothing |
| Address.ApplyKeepsUnread | src/ONVO/Models/Address.php:30-50 | a property whose key is unset or null keeps its value, even when `setData` stops early |
| Address.ApplyStoresRead | src/ONVO/Models/Address.php:30-50 | when `setData` completes, each property whose key is set holds that value as its declared type coerces it |
| Address.ApplyStops | src/ONVO/Models/Address.php:30-50 | `setData` raises exactly when some set key holds a value its property refuses, and the error is the one of the first such key in source order |
| Address.ApplyEmpty | src/ONVO/Models/Address.php:30-50 | an empty array changes nothing |
| Address.ApplyIdempotent | src/ONVO/Models/Address.php:30-50 | applying the same data twice is applying it once |
| Address.AddressFields.ToArray | src/ONVO/Models/Address.php:57-67 | exactly the six keys, each holding its property (null included) |
| Address.New | src/ONVO/Models/Address.php:14-28 | the parameters are positional in the order city, country, line1, line2, postalCode, state; a null country is refused by its `string` property |
| Address.NewDefaultFails | src/ONVO/Models/Address.php:14-28 | `new Address()` always throws: the null default country does not fit a `string` property |
| Address.RefusedIsArray | src/ONVO/Models/Address.php:30-50 | `setData` refuses a set key exactly when it holds an array, since every property is text |
| Address.ToArrayRoundTrip | src/ONVO/Models/Address.php:30-67 | feeding `toArray()` back to `setData` reproduces the object |
| Billing.Billing.SetData | src/ONVO/Models/PaymentMethod/Billing.php:33-47 | `setData($data)` updates the object in place to `Apply` of its old state and raises exactly when `Apply` stops, with its error |
| Billing.Step | src/ONVO/Models/PaymentMethod/Billing.php:33-47 | one `if (isset(...))` block: an unset or null key changes nothing; a set key stores its coerced value and touches no other property, or raises and changes nothing |
| Billing.ApplyKeepsUnread | src/ONVO/Models/PaymentMethod/Billing.php:33-47 | a property whose key is unset or null keeps its value, even when `setData` stops early |
| Billing.ApplyStoresRead | src/ONVO/Models/PaymentMethod/Billing.php:33-47 | when `setData` completes, each property whose key is set holds that value as its declared type coerces it |
| Billing.ApplyStops | src/ONVO/Models/PaymentMethod/Billing.php:33-47 | `setData` raises exactly when some set key holds a value its property refuses, and the error is the one of the first such key in source order |
| Billing.ApplyEmpty | src/ONVO/Models/PaymentMethod/Billing.php:33-47 | an empty array changes nothing |
| Billing.ApplyIdempotent | src/ONVO/Models/PaymentMethod/Billing.php:33-47 | applying the same data twice is applying it once |
| Billing.BillingFields.ToArray | src/ONVO/Models/PaymentMethod/Billing.php:49-59 | exactly the six keys, each holding its property |
| Billing.ApplyKeepsOthers | src/ONVO/Models/PaymentMethod/Billing.php:33-47 | `setData` never changes email, idType or idNumber |
| Billing.New | src/ONVO/Models/PaymentMethod/Billing.php:17-31 | the object holds the arguments; a missing address, then a null name, is refused by its property |
| Billing.NewDefaults | src/ONVO/Models/PaymentMethod/Billing.php:17-31 | name defaults to ""; `new Billing()` throws for its null address |
| Billing.AddressKeyStops | src/ONVO/Models/PaymentMethod/Billing.php:35-38 | a set address key always raises, because `new Address()` throws |
| Billing.ToArrayRefused | src/ONVO/Models/PaymentMethod/Billing.php:33-59 | feeding `toArray()` back to `setData` raises at the address key and changes nothing |
| Card.Card.SetData | src/ONVO/Models/PaymentMethod/Card.php:27-48 | `setData($data)` updates the object in place to `Apply` of its old state and raises exactly when `Apply` stops, with its error |
| Card.Step | src/ONVO/Models/PaymentMethod/Card.php:27-48 | one `if (isset(...))` block: an unset or null key changes nothing; a set key stores its coerced value and touches no other property, or raises and changes nothing |
| Card.ApplyKeepsUnread | src/ONVO/Models/PaymentMethod/Card.php:27-48 | a property whose key is unset or null keeps its value, even when `setData` stops early |
| Card.ApplyStoresRead | src/ONVO/Models/PaymentMethod/Card.php:27-48 | when `setData` completes, each property whose key is set holds that value as its declared type coerces it |
| Card.ApplyStops | src/ONVO/Models/PaymentMethod/Card.php:27-48 | `setData` raises exactly when some set key holds a value its property refuses, and the error is the one of the first such key in source order |
| Card.ApplyEmpty | src/ONVO/Models/PaymentMethod/Card.php:27-48 | an empty array changes nothing |
| Card.ApplyIdempotent | src/ONVO/Models/PaymentMethod/Card.php:27-48 | applying the same data twice is applying it once |
| Card.CardFields.ToArray | src/ONVO/Models/PaymentMethod/Card.php:50-65 | brand, expMonth, expYear and last4 always; cvv exactly when it is not null |
| Card.New | src/ONVO/Models/PaymentMethod/Card.php:13-25 | the object holds the arguments; a null expMonth or expYear is refused, in declaration order |
| Card.CvvDefaultsToNull | src/ONVO/Models/PaymentMethod/Card.php:13-25 | cvv defaults to null and then is not shown; `new Card()` throws for its null expMonth |
| Card.ToArrayRoundTrip | src/ONVO/Models/PaymentMethod/Card.php:27-65 | feeding `toArray()` back to `setData` reproduces the card |
| MobileNumber.MobileNumber.SetData | src/ONVO/Models/PaymentMethod/AlternativePayments.php:24-41 | `setData($data)` updates the object in place to `Apply` of its old state and raises exactly when `Apply` stops, with its error |
| MobileNumber.Step | src/ONVO/Models/PaymentMethod/AlternativePayments.php:24-41 | one `if (isset(...))` block: an unset or null key changes nothing; a set key stores its coerced value and touches no other property, or raises and changes nothing |
| MobileNumber.ApplyKeepsUnread | src/ONVO/Models/PaymentMethod/AlternativePayments.php:24-41 | a property whose key is unset or null keeps its value, even when `setData` stops early |
| MobileNumber.ApplyStoresRead | src/ONVO/Models/PaymentMethod/AlternativePayments.php:24-41 | when `setData` completes, each property whose key is set holds that value as its declared type coerces it |
| MobileNumber.ApplyStops | src/ONVO/Models/PaymentMethod/AlternativePayments.php:24-41 | `setData` raises exactly when some set key holds a value its property refuses, and the error is the one of the first such key in source order |
| MobileNumber.ApplyEmpty | src/ONVO/Models/PaymentMethod/AlternativePayments.php:24-41 | an empty array changes nothing |
| MobileNumber.ApplyIdempotent | src/ONVO/Models/PaymentMethod/AlternativePayments.php:24-41 | applying the same data twice is applying it once |
| MobileNumber.MobileNumberFields.ToArray | src/ONVO/Models/PaymentMethod/AlternativePayments.php:43-63 | maskedNumber always; identification, identificationType and number each exactly when not null |
| MobileNumber.New | src/ONVO/Models/PaymentMethod/AlternativePayments.php:12-22 | the object holds the arguments; only a null maskedNumber is refused |
| MobileNumber.NewDefault | src/ONVO/Models/PaymentMethod/AlternativePayments.php:12-22 | `new MobileNumber()` succeeds and shows only an empty maskedNumber |
| MobileNumber.ToArrayRoundTrip | src/ONVO/Models/PaymentMethod/AlternativePayments.php:24-63 | feeding `toArray()` back to `setData` reproduces the object |
| Zunify.Zunify.SetData | src/ONVO/Models/PaymentMethod/AlternativePayments.php:79-88 | `setData($data)` updates the object in place to `Apply` of its old state and raises exactly when `Apply` stops, with its error |
| Zunify.Step | src/ONVO/Models/PaymentMethod/AlternativePayments.php:79-88 | one `if (isset(...))` block: an unset or null key changes nothing; a set key stores its coerced value and touches no other property, or raises and changes nothing |
| Zunify.ApplyKeepsUnread | src/ONVO/Models/PaymentMethod/AlternativePayments.php:79-88 | a property whose key is unset or null keeps its value, even when `setData` stops early |
| Zunify.ApplyStoresRead | src/ONVO/Models/PaymentMethod/AlternativePayments.php:79-88 | when `setData` completes, each property whose key is set holds that value as its declared type coerces it |
| Zunify.ApplyStops | src/ONVO/Models/PaymentMethod/AlternativePayments.php:79-88 | `setData` raises exactly when some set key holds a value its property refuses, and the error is the one of the first such key in source order |
| Zunify.ApplyEmpty | src/ONVO/Models/PaymentMethod/AlternativePayments.php:79-88 | an empty array changes nothing |
| Zunify.ApplyIdempotent | src/ONVO/Models/PaymentMethod/AlternativePayments.php:79-88 | applying the same data twice is applying it once |
| Zunify.ZunifyFields.ToArray | src/ONVO/Models/PaymentMethod/AlternativePayments.php:90-96 | exactly pin and phoneNumber |
| Zunify.New | src/ONVO/Models/PaymentMethod/AlternativePayments.php:71-77 | the object holds the arguments; a null pin, then a null phoneNumber, is refused |
| Zunify.ToArrayRoundTrip | src/ONVO/Models/PaymentMethod/AlternativePayments.php:79-96 | feeding `toArray()` back to `setData` reproduces the object |
| PaymentMethod.PaymentMethod.SetData | src/ONVO/Models/PaymentMethod/PaymentMethod.php:47-95 | `setData($data)` updates the object in place to `Apply` of its old state and raises exactly when `Apply` stops, with its error |
| PaymentMethod.Step | src/ONVO/Models/PaymentMethod/PaymentMethod.php:47-95 | one `if (isset(...))` block: an unset or null key changes nothing; a set key stores its coerced value and touches no other property, or raises; a failing `mobileNumber` block keeps the partly set object it assigned before the nested `setData`, and every other failing block changes nothing |
| PaymentMethod.ApplyKeepsUnread | src/ONVO/Models/PaymentMethod/PaymentMethod.php:47-95 | a property whose key is unset or null keeps its value, even when `setData` stops early |
| PaymentMethod.ApplyStoresRead | src/ONVO/Models/PaymentMethod/PaymentMethod.php:47-95 | when `setData` completes, each property whose key is set holds that value as its declared type coerces it |
| PaymentMethod.ApplyStops | src/ONVO/Models/PaymentMethod/PaymentMethod.php:47-95 | `setData` raises exactly when some set key holds a value its property refuses, and the error is the one of the first such key in source order |
| PaymentMethod.ApplyEmpty | src/ONVO/Models/PaymentMethod/PaymentMethod.php:47-95 | an empty array changes nothing |
| PaymentMethod.PaymentMethodFields.ToArray | src/ONVO/Models/PaymentMethod/PaymentMethod.php:168-180 | exactly eleven keys |
| PaymentMethod.PaymentMethodFields.ToNewArray | src/ONVO/Models/PaymentMethod/PaymentMethod.php:133-162 | type always, billing and customerId exactly when not null, and the one method key matching type when that object is present |
| PaymentMethod.PaymentMethodFields.ToUpdateArray | src/ONVO/Models/PaymentMethod/PaymentMethod.php:102-123 | billing reduced to address, name and phone when present; card holding only cvv exactly when type is card and the cvv is set |
| PaymentMethod.NewArrayShape | src/ONVO/Models/PaymentMethod/PaymentMethod.php:133-162 | the type switch adds at most one method key, the one matching type, only when that object is present |
| PaymentMethod.New | src/ONVO/Models/PaymentMethod/PaymentMethod.php:21-45 | the object holds the arguments, with the current time for an omitted createdAt or updatedAt; the first null among id, mode, status and type is refused |
| PaymentMethod.NestedDefaultsRefused | src/ONVO/Models/PaymentMethod/PaymentMethod.php:53-78 | a set billing, card or zunify key always raises, because those default constructors throw |
| PaymentMethod.MobileNumberFromDefault | src/ONVO/Models/PaymentMethod/PaymentMethod.php:70-73 | the property is assigned a default MobileNumber before its `setData` runs: it ends up holding what that `setData` makes of the default, whether it completes or raises; the block raises exactly when the nested `setData` does, with its error; a non-array value leaves the default object and raises the `setData` TypeError; no other property changes |
| PaymentMethod.OtherTypeAddsNoMethod | src/ONVO/Models/PaymentMethod/PaymentMethod.php:146-162 | a type other than card, mobile_number and zunify adds no method key |
| LegacyPaymentMethod.Card.ToArray | src/ONVO/Models/PaymentMethod.php:164-172 | exactly brand, expMonth, expYear and last4 |
| LegacyPaymentMethod.PaymentMethodFields.ToNewArray | src/ONVO/Models/PaymentMethod.php:55-85 | type always, billing and customerId exactly when not null, and at most one method key chosen by type and present only when that object is |
| LegacyPaymentMethod.PaymentMethodFields.ToArray | src/ONVO/Models/PaymentMethod.php:91-103 | exactly eleven keys |
| LegacyPaymentMethod.CompanionShapes | src/ONVO/Models/PaymentMethod.php:132-236 | billing shows six keys, card four, Zunify two; a mobile number always shows maskedNumber |
| Client.Client.SetData | src/ONVO/Models/Client.php:53-107 | `setData($data)` updates the object in place to `Apply` of its old state and raises exactly when `Apply` stops, with its error |
| Client.ApplyKeepsUnread | src/ONVO/Models/Client.php:53-107 | a property whose key is unset or null keeps its value, even when `setData` stops early |
| Client.ApplyStoresRead | src/ONVO/Models/Client.php:53-107 | when `setData` completes, each property whose key is set holds that value as its declared type coerces it |
| Client.ApplyStops | src/ONVO/Models/Client.php:53-107 | `setData` raises exactly when some set key holds a value its property refuses, and the error is the one of the first such key in source order |
| Client.ApplyEmpty | src/ONVO/Models/Client.php:53-107 | an empty array changes nothing |
| Client.ClientFields.ToArray | src/ONVO/Models/Client.php:163-177 | all thirteen keys, each holding its property |
| Client.ClientFields.ToNewArray | src/ONVO/Models/Client.php:152-161 | exactly address, description, email, name, phone and shipping |
| Client.ClientFields.ToUpdateArray | src/ONVO/Models/Client.php:114-143 | each of those six keys exactly when its value is not null; never id, amountSpent, mode or timestamps |
| Client.KeyInjective | src/ONVO/Models/Client.php:150-178 | distinct properties have distinct keys |
| Client.NestedKeysStop | src/ONVO/Models/Client.php:59-98 | a set address or shipping key always raises, because the nested default constructors throw |
| Client.UpdateArrayDropsNulls | src/ONVO/Models/Client.php:114-161 | `toUpdateArray()` is `toArray(true)` without its null entries |
| Charge.Charge.SetData | src/ONVO/Models/PaymentIntent.php:260-281 | `setData($data)` updates the object in place to `Apply` of its old state and raises exactly when `Apply` stops, with its error |
| Charge.Step | src/ONVO/Models/PaymentIntent.php:260-281 | one `if (isset(...))` block: an unset or null key changes nothing; a set key stores its coerced value and touches no other property, or raises and changes nothing |
| Charge.ApplyKeepsUnread | src/ONVO/Models/PaymentIntent.php:260-281 | a property whose key is unset or null keeps its value, even when `setData` stops early |
| Charge.ApplyStoresRead | src/ONVO/Models/PaymentIntent.php:260-281 | when `setData` completes, each property whose key is set holds that value as its declared type coerces it |
| Charge.ApplyStops | src/ONVO/Models/PaymentIntent.php:260-281 | `setData` raises exactly when some set key holds a value its property refuses, and the error is the one of the first such key in source order |
| Charge.ApplyEmpty | src/ONVO/Models/PaymentIntent.php:260-281 | an empty array changes nothing |
| Charge.ApplyIdempotent | src/ONVO/Models/PaymentIntent.php:260-281 | applying the same data twice is applying it once |
| Charge.ChargeFields.ToArray | src/ONVO/Models/PaymentIntent.php:283-292 | exactly the five keys, createdAt in ATOM format |
| Charge.SetDataOnNew | src/ONVO/Models/PaymentIntent.php:260-281 | `(new Charge())->setData($c)` refuses a non-array, raises exactly when a set key is refused, and otherwise yields null, since `setData` returns nothing |
| Charge.ToArrayRoundTrip | src/ONVO/Models/PaymentIntent.php:260-292 | feeding `toArray()` back to `setData` reproduces the charge when parsing an ATOM text gives back that date |
| PaymentError.PaymentError.SetData | src/ONVO/Models/PaymentIntent.php:311-324 | `setData($data)` updates the object in place to `Apply` of its old state and raises exactly when `Apply` stops, with its error |
| PaymentError.Step | src/ONVO/Models/PaymentIntent.php:311-324 | one `if (isset(...))` block: an unset or null key changes nothing; a set key stores its coerced value and touches no other property, or raises and changes nothing |
| PaymentError.ApplyKeepsUnread | src/ONVO/Models/PaymentIntent.php:311-324 | a property whose key is unset or null keeps its value, even when `setData` stops early |
| PaymentError.ApplyStoresRead | src/ONVO/Models/PaymentIntent.php:311-324 | when `setData` completes, each property whose key is set holds that value as its declared type coerces it |
| PaymentError.ApplyStops | src/ONVO/Models/PaymentIntent.php:311-324 | `setData` raises exactly when some set key holds a value its property refuses, and the error is the one of the first such key in source order |
| PaymentError.ApplyEmpty | src/ONVO/Models/PaymentIntent.php:311-324 | an empty array changes nothing |
| PaymentError.ApplyIdempotent | src/ONVO/Models/PaymentIntent.php:311-324 | applying the same data twice is applying it once |
| PaymentError.PaymentErrorFields.ToArray | src/ONVO/Models/PaymentIntent.php:326-333 | exactly code, message and type |
| PaymentError.SetDataOnNew | src/ONVO/Models/PaymentIntent.php:311-324 | `(new PaymentError())->setData($e)` refuses a non-array and otherwise raises or yields null |
| PaymentError.ToArrayRoundTrip | src/ONVO/Models/PaymentIntent.php:311-333 | feeding `toArray()` back to `setData` reproduces the object |
| RedirectToUrl.RedirectToUrl.SetData | src/ONVO/Models/PaymentIntent.php:349-358 | `setData($data)` updates the object in place to `Apply` of its old state and raises exactly when `Apply` stops, with its error |
| RedirectToUrl.Step | src/ONVO/Models/PaymentIntent.php:349-358 | one `if (isset(...))` block: an unset or null key changes nothing; a set key stores its coerced value and touches no other property, or raises and changes nothing |
| RedirectToUrl.ApplyKeepsUnread | src/ONVO/Models/PaymentIntent.php:349-358 | a property whose key is unset or null keeps its value, even when `setData` stops early |
| RedirectToUrl.ApplyStoresRead | src/ONVO/Models/PaymentIntent.php:349-358 | when `setData` completes, each property whose key is set holds that value as its declared type coerces it |
| RedirectToUrl.ApplyStops | src/ONVO/Models/PaymentIntent.php:349-358 | `setData` raises exactly when some set key holds a value its property refuses, and the error is the one of the first such key in source order |
| RedirectToUrl.ApplyEmpty | src/ONVO/Models/PaymentIntent.php:349-358 | an empty array changes nothing |
| RedirectToUrl.ApplyIdempotent | src/ONVO/Models/PaymentIntent.php:349-358 | applying the same data twice is applying it once |
| RedirectToUrl.RedirectToUrlFields.ToArray | src/ONVO/Models/PaymentIntent.php:360-366 | exactly url and returnUrl |
| RedirectToUrl.SetDataOnNew | src/ONVO/Models/PaymentIntent.php:349-358 | `(new RedirectToUrl())->setData($r)` refuses a non-array and otherwise raises or yields null |
| RedirectToUrl.ToArrayRoundTrip | src/ONVO/Models/PaymentIntent.php:349-366 | feeding `toArray()` back to `setData` reproduces the object |
| NextAction.NextAction.SetData | src/ONVO/Models/PaymentIntent.php:382-391 | `setData($data)` updates the object in place to `Apply` of its old state and raises exactly when `Apply` stops, with its error |
| NextAction.Step | src/ONVO/Models/PaymentIntent.php:382-391 | one `if (isset(...))` block: an unset or null key changes nothing; a set key stores its coerced value and touches no other property, or raises and changes nothing |
| NextAction.ApplyKeepsUnread | src/ONVO/Models/PaymentIntent.php:382-391 | a property whose key is unset or null keeps its value, even when `setData` stops early |
| NextAction.ApplyStoresRead | src/ONVO/Models/PaymentIntent.php:382-391 | when `setData` completes, each property whose key is set holds that value as its declared type coerces it |
| NextAction.ApplyStops | src/ONVO/Models/PaymentIntent.php:382-391 | `setData` raises exactly when some set key holds a value its property refuses, and the error is the one of the first such key in source order |
| NextAction.ApplyEmpty | src/ONVO/Models/PaymentIntent.php:382-391 | an empty array changes nothing |
| NextAction.ApplyIdempotent | src/ONVO/Models/PaymentIntent.php:382-391 | applying the same data twice is applying it once |
| NextAction.NextActionFields.ToArray | src/ONVO/Models/PaymentIntent.php:393-399 | exactly type and redirectToUrl |
| NextAction.ShownRedirect | src/ONVO/Models/PaymentIntent.php:393-399 | the nested redirect is null exactly when absent |
| NextAction.SetDataOnNew | src/ONVO/Models/PaymentIntent.php:382-391 | `(new NextAction())->setData($n)` refuses a non-array and otherwise raises or yields null |
| NextAction.ApplyClearsRedirect | src/ONVO/Models/PaymentIntent.php:388-390 | a set redirectToUrl key leaves the property null when `setData` completes, because the nested `setData` returns nothing |
| NextAction.ToArrayRoundTrip | src/ONVO/Models/PaymentIntent.php:382-399 | without a redirect, feeding `toArray()` back to `setData` reproduces the object |
| PaymentIntent.PaymentIntent.SetData | src/ONVO/Models/PaymentIntent.php:75-156 | `setData($data)` updates the object in place to `Apply` of its old state and raises exactly when `Apply` stops, with its error |
| PaymentIntent.ApplyKeepsUnread | src/ONVO/Models/PaymentIntent.php:75-156 | a property whose key is unset or null keeps its value, even when `setData` stops early |
| PaymentIntent.ApplyStoresRead | src/ONVO/Models/PaymentIntent.php:75-156 | when `setData` completes, each property whose key is set holds that value as its declared type coerces it |
| PaymentIntent.ApplyStops | src/ONVO/Models/PaymentIntent.php:75-156 | `setData` raises exactly when some set key holds a value its property refuses, and the error is the one of the first such key in source order |
| PaymentIntent.ApplyEmpty | src/ONVO/Models/PaymentIntent.php:75-156 | an empty array changes nothing |
| PaymentIntent.PaymentIntentFields.ToArray | src/ONVO/Models/PaymentIntent.php:178-199 | all twenty keys, charges mapped element-wise; it fails when a charge is null, as `null->toArray()` does |
| PaymentIntent.PaymentIntentFields.ToNewArray | src/ONVO/Models/PaymentIntent.php:165-176 | exactly amount, captureMethod, currency, customerId, description, metadata, officeId and onBehalfOf |
| PaymentIntent.PaymentIntentFields.ToUpdateArray | src/ONVO/Models/PaymentIntent.php:202-230 | those eight keys, each exactly when not null |
| PaymentIntent.KeyInjective | src/ONVO/Models/PaymentIntent.php:163-230 | distinct properties have distinct keys |
| PaymentIntent.ShownCharge | src/ONVO/Models/PaymentIntent.php:190 | a charge shows null exactly when it is null |
| PaymentIntent.ShownCharges | src/ONVO/Models/PaymentIntent.php:190 | the charges show null exactly when there are none |
| PaymentIntent.ShownError | src/ONVO/Models/PaymentIntent.php:191 | the last payment error shows null exactly when absent |
| PaymentIntent.ShownNextAction | src/ONVO/Models/PaymentIntent.php:198 | the next action shows null exactly when absent |
| PaymentIntent.ChargesFrom | src/ONVO/Models/PaymentIntent.php:121-123 | the `array_map` of the charges refuses a non-array; it succeeds exactly when `setData` on a fresh `Charge` succeeds for every element, keeps the length of a list or all the keys of an object, and fills every entry with null |
| PaymentIntent.ShownChargesInjective | src/ONVO/Models/PaymentIntent.php:190 | the shown charges tell whether there are charges, whether all are null and whether there is any |
| PaymentIntent.ApplyBreaksToArray | src/ONVO/Models/PaymentIntent.php:190 | after `setData` with a non-empty charges array, `toArray()` fails |
| PaymentIntent.ApplyClearsNested | src/ONVO/Models/PaymentIntent.php:125-155 | a set lastPaymentError or nextAction key leaves that property null |
| PaymentIntent.UpdateArrayDropsNulls | src/ONVO/Models/PaymentIntent.php:165-230 | `toUpdateArray()` is `toArray(true)` without its null entries |
| Recurring.Recurring.SetData | src/ONVO/Models/Product/Price.php:167-175 | `setData($data)` updates the object in place to `Apply` of its old state and raises exactly when `Apply` stops, with its error |
| Recurring.Step | src/ONVO/Models/Product/Price.php:167-175 | one `if (isset(...))` block: an unset or null key changes nothing; a set key stores its coerced value and touches no other property, or raises and changes nothing |
| Recurring.ApplyKeepsUnread | src/ONVO/Models/Product/Price.php:167-175 | a property whose key is unset or null keeps its value, even when `setData` stops early |
| Recurring.ApplyStoresRead | src/ONVO/Models/Product/Price.php:167-175 | when `setData` completes, each property whose key is set holds that value as its declared type coerces it |
| Recurring.ApplyStops | src/ONVO/Models/Product/Price.php:167-175 | `setData` raises exactly when some set key holds a value its property refuses, and the error is the one of the first such key in source order |
| Recurring.ApplyEmpty | src/ONVO/Models/Product/Price.php:167-175 | an empty array changes nothing |
| Recurring.ApplyIdempotent | src/ONVO/Models/Product/Price.php:167-175 | applying the same data twice is applying it once |
| Recurring.RecurringFields.ToArray | src/ONVO/Models/Product/Price.php:177-183 | exactly interval and intervalCount |
| Recurring.New | src/ONVO/Models/Product/Price.php:161-165 | parameter types are checked first, then the non-nullable properties refuse null |
| Recurring.NewDefaultFails | src/ONVO/Models/Product/Price.php:161-165 | `new Recurring()` throws for its null intervalCount |
| Recurring.ToArrayRoundTrip | src/ONVO/Models/Product/Price.php:167-183 | feeding `toArray()` back to `setData` reproduces the object |
| Recurring.NewFromToArray | src/ONVO/Models/Product/Price.php:161-183 | the values of `toArray()` passed back to the constructor rebuild the object |
| Price.Price.SetData | src/ONVO/Models/Product/Price.php:47-82 | `setData($data)` updates the object in place to `Apply` of its old state and raises exactly when `Apply` stops, with its error |
| Price.ApplyKeepsUnread | src/ONVO/Models/Product/Price.php:47-82 | a property whose key is unset or null keeps its value, even when `setData` stops early |
| Price.ApplyStoresRead | src/ONVO/Models/Product/Price.php:47-82 | when `setData` completes, each property whose key is set holds that value as its declared type coerces it |
| Price.ApplyStops | src/ONVO/Models/Product/Price.php:47-82 | `setData` raises exactly when some set key holds a value its property refuses, and the error is the one of the first such key in source order |
| Price.ApplyEmpty | src/ONVO/Models/Product/Price.php:47-82 | an empty array changes nothing |
| Price.PriceFields.ToArray | src/ONVO/Models/Product/Price.php:108-120 | all eleven keys; recurring as its own array or null |
| Price.PriceFields.ToNewArray | src/ONVO/Models/Product/Price.php:91-106 | unitAmount, currency, isActive, productId and type always; nickname and recurring exactly when not null |
| Price.PriceFields.ToUpdateArray | src/ONVO/Models/Product/Price.php:123-148 | each updatable key exactly when its value is not null |
| Price.KeyInjective | src/ONVO/Models/Product/Price.php:89-148 | distinct properties have distinct keys |
| Price.ShownRecurring | src/ONVO/Models/Product/Price.php:116 | recurring shows null exactly when absent |
| Price.New | src/ONVO/Models/Product/Price.php:21-45 | the object holds the arguments, mode defaulting to "test"; a null isActive, productId or type is refused in that order |
| Price.UpdateArrayWithinNewArray | src/ONVO/Models/Product/Price.php:91-148 | `toUpdateArray()` is part of `toArray(true)`; it drops only a null unitAmount or currency |
| Price.RecurringFromEntries | src/ONVO/Models/Product/Price.php:70-72 | a set recurring key builds a Recurring from interval and intervalCount, and raises for a non-array |
| Product.Product.SetData | src/ONVO/Models/Product/Product.php:44-77 | `setData($data)` updates the object in place to `Apply` of its old state and raises exactly when `Apply` stops, with its error |
| Product.ApplyKeepsUnread | src/ONVO/Models/Product/Product.php:44-77 | a property whose key is unset or null keeps its value, even when `setData` stops early |
| Product.ApplyStoresRead | src/ONVO/Models/Product/Product.php:44-77 | when `setData` completes, each property whose key is set holds that value as its declared type coerces it |
| Product.ApplyStops | src/ONVO/Models/Product/Product.php:44-77 | `setData` raises exactly when some set key holds a value its property refuses, and the error is the one of the first such key in source order |
| Product.ApplyEmpty | src/ONVO/Models/Product/Product.php:44-77 | an empty array changes nothing |
| Product.ProductFields.ToArray | src/ONVO/Models/Product/Product.php:104-115 | all ten keys |
| Product.ProductFields.ToNewArray | src/ONVO/Models/Product/Product.php:86-102 | name, isActive and isShippable always; description, images and packageDimensions exactly when not null |
| Product.ProductFields.ToUpdateArray | src/ONVO/Models/Product/Product.php:118-140 | name when not null, the flags when initialised, the rest when not null |
| Product.KeyInjective | src/ONVO/Models/Product/Product.php:84-140 | distinct properties have distinct keys |
| Product.New | src/ONVO/Models/Product/Product.php:20-42 | the object holds the arguments, mode defaulting to "test"; a non-array images, then a null isActive, isShippable or name, is refused |
| Product.UpdateArrayIsNewArray | src/ONVO/Models/Product/Product.php:86-140 | `toUpdateArray()` and `toArray(true)` are the same array |
| Product.DimensionsKeyStops | src/ONVO/Models/Product/Product.php:67-70 | a set packageDimensions key always raises, since `new PackageDimensions()` throws |
| DeliveryEstimate.DeliveryEstimate.SetData | src/ONVO/Models/ShippingRate.php:158-175 | `setData($data)` updates the object in place to `Apply` of its old state and raises exactly when `Apply` stops, with its error |
| DeliveryEstimate.Step | src/ONVO/Models/ShippingRate.php:158-175 | one `if (isset(...))` block: an unset or null key changes nothing; a set key stores its coerced value and touches no other property, or raises and changes nothing |
| DeliveryEstimate.ApplyKeepsUnread | src/ONVO/Models/ShippingRate.php:158-175 | a property whose key is unset or null keeps its value, even when `setData` stops early |
| DeliveryEstimate.ApplyStoresRead | src/ONVO/Models/ShippingRate.php:158-175 | when `setData` completes, each property whose key is set holds that value as its declared type coerces it |
| DeliveryEstimate.ApplyStops | src/ONVO/Models/ShippingRate.php:158-175 | `setData` raises exactly when some set key holds a value its property refuses, and the error is the one of the first such key in source order |
| DeliveryEstimate.ApplyEmpty | src/ONVO/Models/ShippingRate.php:158-175 | an empty array changes nothing |
| DeliveryEstimate.ApplyIdempotent | src/ONVO/Models/ShippingRate.php:158-175 | applying the same data twice is applying it once |
| DeliveryEstimate.DeliveryEstimateFields.ToArray | src/ONVO/Models/ShippingRate.php:177-185 | exactly the four keys |
| DeliveryEstimate.New | src/ONVO/Models/ShippingRate.php:146-156 | arguments are checked against their nullable parameter types first, then stored into the non-nullable properties, which refuse null |
| DeliveryEstimate.NewDefaultFails | src/ONVO/Models/ShippingRate.php:146-156 | `new DeliveryEstimate()` throws for its null minimumValue |
| DeliveryEstimate.NewFromToArray | src/ONVO/Models/ShippingRate.php:146-185 | the values of `toArray()` passed back to the constructor rebuild the object |
| DeliveryEstimate.ToArrayRoundTrip | src/ONVO/Models/ShippingRate.php:158-185 | feeding `toArray()` back to `setData` reproduces the object |
| ShippingRate.ShippingRate.SetData | src/ONVO/Models/ShippingRate.php:38-76 | `setData($data)` updates the object in place to `Apply` of its old state and raises exactly when `Apply` stops, with its error |
| ShippingRate.Step | src/ONVO/Models/ShippingRate.php:38-76 | one `if (isset(...))` block: an unset or null key changes nothing; a set key stores its coerced value and touches no other property, or raises and changes nothing |
| ShippingRate.ApplyKeepsUnread | src/ONVO/Models/ShippingRate.php:38-76 | a property whose key is unset or null keeps its value, even when `setData` stops early |
| ShippingRate.ApplyStoresRead | src/ONVO/Models/ShippingRate.php:38-76 | when `setData` completes, each property whose key is set holds that value as its declared type coerces it |
| ShippingRate.ApplyStops | src/ONVO/Models/ShippingRate.php:38-76 | `setData` raises exactly when some set key holds a value its property refuses, and the error is the one of the first such key in source order |
| ShippingRate.ApplyEmpty | src/ONVO/Models/ShippingRate.php:38-76 | an empty array changes nothing |
| ShippingRate.ShippingRateFields.ToArray | src/ONVO/Models/ShippingRate.php:100-109 | all eight keys |
| ShippingRate.ShippingRateFields.ToNewArray | src/ONVO/Models/ShippingRate.php:85-98 | amount, currency and displayName always; isActive and deliveryEstimate exactly when not null |
| ShippingRate.ShippingRateFields.ToUpdateArray | src/ONVO/Models/ShippingRate.php:112-131 | each of the five request keys exactly when not null |
| ShippingRate.ShownEstimate | src/ONVO/Models/ShippingRate.php:107 | the delivery estimate shows null exactly when absent |
| ShippingRate.New | src/ONVO/Models/ShippingRate.php:18-36 | the object holds the arguments, isActive defaulting to true; a null amount, currency or displayName is refused |
| ShippingRate.UpdateArrayIsNewArray | src/ONVO/Models/ShippingRate.php:85-131 | `toUpdateArray()` and `toArray(true)` are the same array |
| ShippingRate.KeyInjective | src/ONVO/Models/ShippingRate.php:83-131 | distinct properties have distinct keys |
| ShippingRate.EstimateFromEntries | src/ONVO/Models/ShippingRate.php:64-71 | a set deliveryEstimate that is not an array raises at its minimumUnit |
| Refund.Refund.SetData | src/ONVO/Models/Refund.php:47-92 | `setData($data)` updates the object in place to `Apply` of its old state and raises exactly when `Apply` stops, with its error |
| Refund.ApplyKeepsUnread | src/ONVO/Models/Refund.php:47-92 | a property whose key is unset or null keeps its value, even when `setData` stops early |
| Refund.ApplyStoresRead | src/ONVO/Models/Refund.php:47-92 | when `setData` completes, each property whose key is set holds that value as its declared type coerces it |
| Refund.ApplyStops | src/ONVO/Models/Refund.php:47-92 | `setData` raises exactly when some set key holds a value its property refuses, and the error is the one of the first such key in source order |
| Refund.ApplyEmpty | src/ONVO/Models/Refund.php:47-92 | an empty array changes nothing |
| Refund.RefundFields.ToArray | src/ONVO/Models/Refund.php:94-118 | a truthy argument gives exactly amount, paymentIntentId, description and reason; otherwise all eleven keys |
| Refund.KeyInjective | src/ONVO/Models/Refund.php:94-118 | distinct properties have distinct keys |
| Refund.New | src/ONVO/Models/Refund.php:21-45 | the object holds the arguments; only a null paymentIntentId is refused |
| Refund.NewDefaults | src/ONVO/Models/Refund.php:21-45 | reason defaults to "requested_by_customer" and paymentIntentId to "" |
| Refund.StepKeepsShown | src/ONVO/Models/Refund.php:47-92 | a block reading back the value `toArray` shows for its property changes nothing |
| Refund.ToArrayRoundTrip | src/ONVO/Models/Refund.php:47-118 | feeding `toArray(false)` back to `setData` reproduces the refund when parsing an ATOM text gives back that date |
| Invoice.ApplyKeepsUnread | src/ONVO/Models/RecurringCharge.php:322-350 | a property whose key is unset or null keeps its value, even when the constructor stops early |
| Invoice.ApplyStoresRead | src/ONVO/Models/RecurringCharge.php:322-350 | when the constructor completes, each property whose key is set holds that value as its declared type coerces it |
| Invoice.ApplyStops | src/ONVO/Models/RecurringCharge.php:322-350 | the constructor raises exactly when some set key holds a value its property refuses, and the error is the one of the first such key in source order |
| Invoice.ApplyEmpty | src/ONVO/Models/RecurringCharge.php:322-350 | an empty array changes nothing |
| Invoice.InvoiceFields.ToArray | src/ONVO/Models/RecurringCharge.php:352-373 | every property; invoiceAdditionalItems only when the list is non-empty |
| Invoice.FromArray | src/ONVO/Models/RecurringCharge.php:322-350 | `new Invoice($data)` refuses a non-array |
| Invoice.FromArrayFields | src/ONVO/Models/RecurringCharge.php:322-350 | each set key gives its coerced value, each unset key leaves null |
| Invoice.FromArrayStops | src/ONVO/Models/RecurringCharge.php:322-350 | the constructor raises exactly when some set key is refused, with the first such error |
| Invoice.KeyInjective | src/ONVO/Models/RecurringCharge.php:352-373 | distinct properties have distinct keys |
| Invoice.EmptyItemsHidden | src/ONVO/Models/RecurringCharge.php:369-371 | an empty list of additional items shows like none |
| Invoice.ShownAdditionalItems | src/ONVO/Models/RecurringCharge.php:369-371 | the items are shown exactly when present and non-empty, each as its own array |
| Invoice.AdditionalItem.ToArray | src/ONVO/Models/RecurringCharge.php:407-429 | description, amount, quantity and currency for a new item; with id, mode and the two dates otherwise |
| Invoice.AdditionalItem.ToUpdateArray | src/ONVO/Models/RecurringCharge.php:436-452 | each of the four keys exactly when not null, with the value `toArray(true)` shows |
| Invoice.AdditionalItemsFrom | src/ONVO/Models/RecurringCharge.php:337-349 | the `array_map` refuses a non-array and builds one item per element, in order |
| Invoice.DateIfSet | src/ONVO/Models/RecurringCharge.php:345-346 | a date is null when unset and parsed otherwise |
| Invoice.AdditionalItemFrom | src/ONVO/Models/RecurringCharge.php:338-346 | an item needs description, amount, quantity and currency; id and mode may be null; the dates are null exactly when unset |
| RecurringCharge.RecurringCharge.SetData | src/ONVO/Models/RecurringCharge.php:86-172 | `setData($data)` updates the object in place to `Apply` of its old state and raises exactly when `Apply` stops, with its error |
| RecurringCharge.ApplyKeepsUnread | src/ONVO/Models/RecurringCharge.php:86-172 | a property whose key is unset or null keeps its value, even when `setData` stops early |
| RecurringCharge.ApplyStoresRead | src/ONVO/Models/RecurringCharge.php:86-172 | when `setData` completes, each property whose key is set holds that value as its declared type coerces it |
| RecurringCharge.ApplyStops | src/ONVO/Models/RecurringCharge.php:86-172 | `setData` raises exactly when some set key holds a value its property refuses, and the error is the one of the first such key in source order |
| RecurringCharge.ApplyEmpty | src/ONVO/Models/RecurringCharge.php:86-172 | an empty array changes nothing |
| RecurringCharge.RecurringChargeFields.ToArray | src/ONVO/Models/RecurringCharge.php:209-231 | all twenty-one keys |
| RecurringCharge.RecurringChargeFields.ToNewArray | src/ONVO/Models/RecurringCharge.php:183-207 | cancelAtPeriodEnd, customerId and paymentMethodId always; six keys only when truthy; trialPeriodDays exactly when not null, so 0 is kept |
| RecurringCharge.RecurringChargeFields.ToUpdateArray | src/ONVO/Models/RecurringCharge.php:234-266 | cancelAtPeriodEnd always; customerId and paymentMethodId only when truthy; trialPeriodDays exactly when not null |
| RecurringCharge.ShownInvoice | src/ONVO/Models/RecurringCharge.php:230 | the latest invoice shows null exactly when absent |
| RecurringCharge.ShownItems | src/ONVO/Models/RecurringCharge.php:225 | items show null when absent or empty, otherwise each item as its own array |
| RecurringCharge.DateOf | src/ONVO/Models/RecurringCharge.php:56-67 | a date argument gives null when null and is parsed otherwise |
| RecurringCharge.ItemsOf | src/ONVO/Models/RecurringCharge.php:71-77 | the items argument is mapped element-wise to RecurringItems, or null |
| RecurringCharge.New | src/ONVO/Models/RecurringCharge.php:31-84 | the object holds the arguments; a non-array `$items` is refused first; otherwise it succeeds exactly when each given date parses and the items build, and a failure is the first one in the constructor's order (seven dates, the items, three dates) |
| RecurringCharge.NewDefaults | src/ONVO/Models/RecurringCharge.php:31-84 | with no arguments every property is null and cancelAtPeriodEnd false |
| RecurringCharge.StartDateIgnoresItsValue | src/ONVO/Models/RecurringCharge.php:135-137 | a set startDate stores `new DateTime($data[""])`, whatever the value |
| RecurringCharge.UpdateArrayWithinNewArray | src/ONVO/Models/RecurringCharge.php:183-266 | `toUpdateArray()` is part of `toArray(true)`; besides the truthy-only keys it drops only an empty customerId or paymentMethodId |
| RecurringCharge.KeyInjective | src/ONVO/Models/RecurringCharge.php:179-266 | distinct properties have distinct keys |
| RecurringCharge.RecurringItem.ToArray | src/ONVO/Models/RecurringCharge.php:295-301 | exactly priceId and quantity |
| RecurringCharge.ItemFromElement | src/ONVO/Models/RecurringCharge.php:72-74 | `new RecurringItem($i["priceId"], $i["quantity"])` succeeds exactly when those coerce to text and integer |
| RecurringCharge.ItemJsonRoundTrip | src/ONVO/Models/RecurringCharge.php:72-74 | an item built from its own array is the item |
| RecurringCharge.ItemsMapElementwise | src/ONVO/Models/RecurringCharge.php:147-151 | mapped items show one entry per element, in order, each the array of the item built from that element |
| RecurringCharge.ItemsRoundTrip | src/ONVO/Models/RecurringCharge.php:147-151 | the arrays of a list of items map back to that list |
| CheckoutSession.CheckoutSession.SetData | src/ONVO/Models/CheckoutSession.php:69-152 | `setData($data)` updates the object in place to `Apply` of its old state and raises exactly when `Apply` stops, with its error |
| CheckoutSession.ApplyKeepsUnread | src/ONVO/Models/CheckoutSession.php:69-152 | a property whose key is unset or null keeps its value, even when `setData` stops early |
| CheckoutSession.ApplyStoresRead | src/ONVO/Models/CheckoutSession.php:69-152 | when `setData` completes, each property whose key is set holds that value as its declared type coerces it |
| CheckoutSession.ApplyStops | src/ONVO/Models/CheckoutSession.php:69-152 | `setData` raises exactly when some set key holds a value its property refuses, and the error is the one of the first such key in source order |
| CheckoutSession.ApplyEmpty | src/ONVO/Models/CheckoutSession.php:69-152 | an empty array changes nothing |
| CheckoutSession.ItemFromSucceeds | src/ONVO/Models/CheckoutSession.php:104-126 | one line item is built exactly when no `price` is set and each set `id`, `currency` and `description` coerces to text |
| CheckoutSession.ItemFromValues | src/ONVO/Models/CheckoutSession.php:104-126 | a built item has no price; id, currency and description hold their text exactly when set; quantity, priceId and unitAmount hold the `(int)` cast of their value exactly when set |
| CheckoutSession.ItemFromPrice | src/ONVO/Models/CheckoutSession.php:105-110 | a set price raises class-not-found, once a set id has been stored |
| CheckoutSession.ItemFromNonArray | src/ONVO/Models/CheckoutSession.php:104-127 | an element that is not an array gives a line item with every property null |
| CheckoutSession.LineItem.Shown | src/ONVO/Models/CheckoutSession.php:155-181 | a line item as an array with its seven properties |
| CheckoutSession.ShownItems | src/ONVO/Models/CheckoutSession.php:101-129 | no list is null; a list shows one entry per item |
| CheckoutSession.BuildItemsSpec | src/ONVO/Models/CheckoutSession.php:101-129 | the line-item loop completes exactly when every element converts, giving one item per element in order; when it stops, the items before the failing element are kept |
| CheckoutSession.ApplyBuildsLineItems | src/ONVO/Models/CheckoutSession.php:101-129 | when `setData` completes with a set lineItems, the property holds one item per element of the array, in order |
| CheckoutSession.PricedItemStops | src/ONVO/Models/CheckoutSession.php:108-111 | an element with a set price makes `setData` raise |
| CheckoutSession.CastsNeverRefused | src/ONVO/Models/CheckoutSession.php:86-141 | the three collection flags (bool casts) and shippingCountries/shippingRates (array-only) never raise |
| CheckoutSession.SetDataOnAccount | src/ONVO/Models/CheckoutSession.php:188 | `Account::setData` changes nothing; only a non-array argument raises |
| CheckoutSession.ShownAccount | src/ONVO/Models/CheckoutSession.php:183-189 | an account is shown exactly when present |
| CheckoutSession.AccountNotArrayStops | src/ONVO/Models/CheckoutSession.php:148-151 | a non-array account raises after the new empty Account has been stored |

## Left out

- HTTP transport is not part of this model: the Guzzle client, `get`/`post`/`delete`, response and exception handling. Also left out are the service classes other than `WebhookService`, and `ONVOClient`. They are network I/O.
- `json_encode` in `toJson`, `toUpdateJson` and `arrayToJson` is left out. The model stops at the array that would be encoded.
- Key order of JSON objects is not kept: arrays with string keys are `map`s. Where the code iterates over an object, the visiting order is the `Runtime.keyOrder` parameter. Its type `Php.KeyOrder` only promises that every key is visited exactly once, so which of several failing entries is reported first depends on that parameter.
- The exception classes are left out. Failures are the `PhpError`, `EventError` and `HandleError` datatypes, and the human-readable messages are not modelled.
- Floats are left out. `PaymentIntent::$exchangeRate` is carried as an opaque `Json` value. `PackageDimensions` is kept only as far as its default constructor, which always throws, so its `setData` and `toArray` are not modelled.
- `Shipping` is an opaque nested value. `Client::setData` builds it with `new Shipping()`, whose constructor stores the default null address in the non-nullable `Address $address` property, a TypeError. So a set `shipping` key always raises, before `Shipping::setData` could run.
- DateTime parsing, formatting and the clock are parameters (`Runtime.construct`, `Runtime.fromAtom`). The model does not know which strings parse. Its round-trip lemmas assume that parsing an ATOM text gives back that date (`ReadsAtomBack`).
- PaymentMethod.New: the "now" default of `createdAt` and `updatedAt` is the parameter `now`.
- Nested objects are held as values, not as shared references. Aliasing between a parent and the child object it was given is not modelled.
- The `class_exists` guard of `WebhookService::handle` is not modelled: every class of the table exists, so it cannot fail.
- Reading a key of a string or number (`$data['recurring']['interval']` when `recurring` is text) gives null in the model. PHP 8 instead raises "Cannot access offset" or warns, depending on the key.
- `Account` has no properties and its `setData` does nothing: it is modelled as a single value.
- The getters and setters that only read or write one property, and the service-side mappers that call these constructors, are not modelled.
- Webhook.Handle: an array `type` fails as `IllegalOffset`, the "Illegal offset type" error of the table lookup, and the message text is not modelled.
- Php.IntCast and Php.ToInt compute the value of a numeric string exactly and round it toward zero before the 64-bit range test. PHP goes through a double, so a string within one rounding step of 2^63 or of the largest double can land on the other side of the bound in PHP. JSON numbers with a fraction (floats) and integers beyond 64 bits are not represented at all.
- Events.ValidateData: a field that fails to coerce raises at the first assignment in source order. The model reports that error but not the partly filled event object, which PHP discards anyway.
