# Google Pay request builder and cents formatter

This project models the `PaymentsUtil` object of the payment integration app in Dafny and
proves properties of it. It also models the `Long.centsToString()` extension used to price a
payment:

- `Cents.dfy` models `centsToString`. It follows the `BigDecimal` steps: the exact division by
  100 (`DivideByCents`), `setScale(2, HALF_EVEN)` (`SetScaleHalfEven`, `RoundHalfEven`) and
  `toString` of a scale-2 decimal. It proves these steps never round, so the result is the
  integer formatting of the cents. Round trips and the output's shape are proved in both
  directions.
- `Json.dfy` models the JSON values the builders assemble as a datatype. Objects are maps from
  keys to values. `JsonObject` models an org.json `JSONObject`, whose `put` updates the object
  in place and returns that same object.
- `Constants.dfy` holds the configuration the builders read: card networks, authentication
  methods, country and currency codes, and gateway parameters.
- `PaymentsUtil.dfy` has three parts:
  - The fixed parts of the requests as values: the base card method, the tokenized card
    method, the transaction info and the shipping parameters.
  - Predicates that state, field by field, what each request must contain.
  - A class `PaymentsUtil`. Its `baseRequest` is one `JsonObject`. Both `isReadyToPayRequest`
    and `getPaymentDataRequest` write into it and return it.

    What each builder does to the entries of `baseRequest` is given by a function on maps
    (`ReadyToPayUpdate`, `PaymentDataUpdate`). The class's methods are proved against those
    functions. Lemmas about the functions cover idempotence, overwriting and persistence.

A chain of `put` calls on a freshly created object, with distinct keys, is written as a map
display. A chain of `put` calls on the shared `baseRequest` is written as what it is: method
calls that update the object in turn.

## Model

| member | source | states |
|---|---|---|
| Json.PutField | app/src/main/java/com/example/paymentintegration/Utils.kt:16-18 | `put` binds its key to the new value, adds the key if it is new, and leaves every other entry as it was |
| Json.JsonObject.constructor | app/src/main/java/com/example/paymentintegration/Utils.kt:16 | `JSONObject()` is an object with no entries |
| Json.JsonObject.Of | app/src/main/java/com/example/paymentintegration/Utils.kt:45 | the fresh object a builder function returns holds exactly the entries it was built with |
| Json.JsonObject.Put | app/src/main/java/com/example/paymentintegration/Utils.kt:17-18 | `put` changes the receiver's entries as `PutField` says and returns the receiver itself, so a chain of calls keeps writing into one object |
| Json.StrArray | app/src/main/java/com/example/paymentintegration/Utils.kt:26-28 | `JSONArray(list)` has one string element per list element, in list order |
| Json.StrArrayRoundTrip | app/src/main/java/com/example/paymentintegration/Utils.kt:26-28 | reading a `JSONArray(list)` back as strings gives exactly the list |
| Json.StrObject | app/src/main/java/com/example/paymentintegration/Utils.kt:24 | `JSONObject(map)` has the map's keys, each bound to the map's string |
| Cents.NatToString | app/src/main/java/com/example/paymentintegration/Utils.kt:99 | the numeral of a whole number is non-empty, all digits, and starts with `0` only for zero |
| Cents.ParseNatToString | app/src/main/java/com/example/paymentintegration/Utils.kt:99 | the numeral `NatToString` writes reads back as the number |
| Cents.NatToStringParse | app/src/main/java/com/example/paymentintegration/Utils.kt:99 | every digit string without superfluous leading zeros is the numeral of the number it denotes |
| Cents.DivideByCents | app/src/main/java/com/example/paymentintegration/Utils.kt:96-97 | `BigDecimal(n).divide(CENTS)` is exact: the quotient times 100 is `n` at its scale, the scale is at most 2, and a trailing zero is never kept in the fraction |
| Cents.RoundHalfEven | app/src/main/java/com/example/paymentintegration/Utils.kt:98 | HALF_EVEN picks an integer within half a unit of the quotient, and the even one on a tie |
| Cents.SetScaleHalfEven | app/src/main/java/com/example/paymentintegration/Utils.kt:98 | `setScale(k, HALF_EVEN)` yields scale `k` |
| Cents.CentsScaleExact | app/src/main/java/com/example/paymentintegration/Utils.kt:96-98 | dividing by 100 and then setting scale 2 never rounds: the result is exactly `n` hundredths |
| Cents.PlainString | app/src/main/java/com/example/paymentintegration/Utils.kt:99 | `toString` of a scale-2 decimal is the plain layout of its unscaled value: a `-` exactly when it is negative, then the whole units, a single `.` and two digits of cents of its magnitude |
| Cents.FormatUnsigned | app/src/main/java/com/example/paymentintegration/Utils.kt:99 | a non-negative amount is written as the numeral of its whole units, a single `.`, and two digits of cents |
| Cents.FormatCents | app/src/main/java/com/example/paymentintegration/Utils.kt:99 | a `-` leads the text exactly when the amount is negative, followed by the unsigned form of its magnitude |
| Cents.CentsToString | app/src/main/java/com/example/paymentintegration/Utils.kt:96-99 | `centsToString` never fails and equals the integer formatting of `n` cents |
| Cents.CentsToStringShape | app/src/main/java/com/example/paymentintegration/Utils.kt:96-99 | a `-` exactly when `n < 0`; exactly one `.`, followed by two digits; the whole part is the numeral of `abs(n) / 100` and the cents are `abs(n) % 100` |
| Cents.CentsRoundTrip | app/src/main/java/com/example/paymentintegration/Utils.kt:96-99 | parsing the output back as an amount times 100 gives `n`, and the output has the canonical shape |
| Cents.StringRoundTrip | app/src/main/java/com/example/paymentintegration/Utils.kt:96-99 | every string of the canonical shape is the output for the amount it denotes |
| Cents.CentsToStringInjective | app/src/main/java/com/example/paymentintegration/Utils.kt:96-99 | different amounts produce different strings |
| Cents.TenCentsExample | app/src/main/java/com/example/paymentintegration/Utils.kt:96-99 | 10 cents is written `0.10` |
| Cents.NineCentsExample | app/src/main/java/com/example/paymentintegration/Utils.kt:96-99 | 9 cents is written `0.09` |
| Cents.TwoFiftyExample | app/src/main/java/com/example/paymentintegration/Utils.kt:96-99 | 250 cents is written `2.50` |
| Cents.ZeroExample | app/src/main/java/com/example/paymentintegration/Utils.kt:96-99 | 0 cents is written `0.00` |
| Cents.NegativeCentsExample | app/src/main/java/com/example/paymentintegration/Utils.kt:96-99 | -5 cents is written `-0.05` |
| PaymentsUtil.GatewayTokenization | app/src/main/java/com/example/paymentintegration/Utils.kt:21-24 | the gateway tokenization specification has type `PAYMENT_GATEWAY`, gateway `example` and merchant id `exampleGatewayMerchantId` |
| PaymentsUtil.BaseCardPaymentMethod | app/src/main/java/com/example/paymentintegration/Utils.kt:30-42 | a card method of type `CARD` with auth methods `PAN_ONLY`, `CRYPTOGRAM_3DS`, the five networks in order, a required billing address in `FULL` format, and no tokenization |
| PaymentsUtil.CardPaymentMethod | app/src/main/java/com/example/paymentintegration/Utils.kt:45-46 | the same card method, now carrying the gateway tokenization |
| PaymentsUtil.CardPaymentMethodExtendsBase | app/src/main/java/com/example/paymentintegration/Utils.kt:45-46 | adding the tokenization adds one key and keeps every entry of the base card method |
| PaymentsUtil.TransactionInfo | app/src/main/java/com/example/paymentintegration/Utils.kt:72-77 | exactly four entries: the given total price, status `FINAL`, country `US`, currency `USD` |
| PaymentsUtil.ShippingAddressParameters | app/src/main/java/com/example/paymentintegration/Utils.kt:86-90 | no phone number required; allowed countries `US` then `GB` |
| PaymentsUtil.ReadyToPayUpdate | app/src/main/java/com/example/paymentintegration/Utils.kt:53-54 | `isReadyToPayRequest` writes only `allowedPaymentMethods`, as one untokenized card method, and keeps every other entry |
| PaymentsUtil.PaymentDataUpdate | app/src/main/java/com/example/paymentintegration/Utils.kt:81-90 | `getPaymentDataRequest` writes exactly its five keys and keeps every other entry |
| PaymentsUtil.PaymentDataEntriesComplete | app/src/main/java/com/example/paymentintegration/Utils.kt:82-90 | the five entries hold the tokenized card method, the price with `FINAL`/`US`/`USD`, the merchant, and the required shipping address |
| PaymentsUtil.PaymentDataChain | app/src/main/java/com/example/paymentintegration/Utils.kt:81-90 | the five chained `put` calls perform `PaymentDataUpdate` |
| PaymentsUtil.PaymentDataRequestComplete | app/src/main/java/com/example/paymentintegration/Utils.kt:80-90 | after `getPaymentDataRequest(p)` the request is complete: API version 2.0, tokenized card method, `totalPrice` equal to `centsToString(p)`, merchant and shipping entries, whatever an earlier call left, given the API version entries that `Valid()` keeps |
| PaymentsUtil.ReadyToPayRequestComplete | app/src/main/java/com/example/paymentintegration/Utils.kt:51-54 | after `isReadyToPayRequest` the request has API version 2.0 and one untokenized card method |
| PaymentsUtil.CardMethodsDiffer | app/src/main/java/com/example/paymentintegration/Utils.kt:45-54 | for any earlier requests and any price, the `allowedPaymentMethods` that `isReadyToPayRequest` writes differs from the one `getPaymentDataRequest` writes: only the latter's card method carries a tokenization |
| PaymentsUtil.PaymentDataIdempotent | app/src/main/java/com/example/paymentintegration/Utils.kt:80-90 | calling `getPaymentDataRequest(p)` twice leaves the same entries as calling it once |
| PaymentsUtil.ReadyToPayIdempotent | app/src/main/java/com/example/paymentintegration/Utils.kt:51-54 | calling `isReadyToPayRequest` twice leaves the same entries as calling it once |
| PaymentsUtil.PaymentDataLastPriceWins | app/src/main/java/com/example/paymentintegration/Utils.kt:80-90 | a later `getPaymentDataRequest(q)` wipes out every trace of an earlier `getPaymentDataRequest(p)` |
| PaymentsUtil.PaymentDataAfterReadyToPay | app/src/main/java/com/example/paymentintegration/Utils.kt:81-82 | `getPaymentDataRequest` overwrites everything an earlier `isReadyToPayRequest` wrote |
| PaymentsUtil.ReadyToPayKeepsPaymentData | app/src/main/java/com/example/paymentintegration/Utils.kt:53-54 | after `getPaymentDataRequest(p)`, a later `isReadyToPayRequest` replaces only the card method: the price, merchant and shipping entries and all keys remain |
| PaymentsUtil.PaymentsUtil.constructor | app/src/main/java/com/example/paymentintegration/Utils.kt:16-46 | `baseRequest` starts as API version 2.0, and `cardPaymentMethod` holds the tokenized card method in a separate object |
| PaymentsUtil.PaymentsUtil.AllowedPaymentMethods | app/src/main/java/com/example/paymentintegration/Utils.kt:48 | `allowedPaymentMethods` is a one-element array holding the tokenized card method |
| PaymentsUtil.PaymentsUtil.IsReadyToPayRequest | app/src/main/java/com/example/paymentintegration/Utils.kt:51-57 | updates `baseRequest` in place by `ReadyToPayUpdate`, returns `baseRequest` itself, and leaves a complete "is ready to pay" request |
| PaymentsUtil.PaymentsUtil.GetPaymentDataRequest | app/src/main/java/com/example/paymentintegration/Utils.kt:80-90 | updates `baseRequest` in place by `PaymentDataUpdate`, returns `baseRequest` itself, and leaves a complete payment data request |
| PaymentsUtil.ReadyToPayThenPaymentData | app/src/main/java/com/example/paymentintegration/Utils.kt:53-54 | the object `isReadyToPayRequest` returned is the one a later `getPaymentDataRequest` returns, and it has become the payment data request |
| PaymentsUtil.PaymentDataThenReadyToPay | app/src/main/java/com/example/paymentintegration/Utils.kt:81-82 | the object `getPaymentDataRequest` returned is the one a later `isReadyToPayRequest` returns; it becomes an "is ready to pay" request that still carries the price, merchant and shipping entries |

## Constants

The constants carry no contract of their own; each is the source value written out, and
the lemmas above state what the builders make of them.

- `PaymentsUtil.BaseRequestFields`: app/src/main/java/com/example/paymentintegration/Utils.kt:16-18 (API version 2.0).
- `PaymentsUtil.GatewayTokenizationSpecification`: app/src/main/java/com/example/paymentintegration/Utils.kt:21-24 (type `PAYMENT_GATEWAY` with the gateway parameters).
- `PaymentsUtil.AllowedCardNetworks`: app/src/main/java/com/example/paymentintegration/Utils.kt:26.
- `PaymentsUtil.AllowedCardAuthMethods`: app/src/main/java/com/example/paymentintegration/Utils.kt:28.
- `PaymentsUtil.MerchantInfo`: app/src/main/java/com/example/paymentintegration/Utils.kt:59-60.
- `Constants.SupportedNetworks`: app/src/main/java/com/example/paymentintegration/Constants.kt:11-16.
- `Constants.SupportedMethods`: app/src/main/java/com/example/paymentintegration/Constants.kt:19-21.
- `Constants.CountryCode`: app/src/main/java/com/example/paymentintegration/Constants.kt:24.
- `Constants.CurrencyCode`: app/src/main/java/com/example/paymentintegration/Constants.kt:27.
- `Constants.PaymentGatewayTokenizationName`: app/src/main/java/com/example/paymentintegration/Constants.kt:33.
- `Constants.PaymentGatewayTokenizationParameters`: app/src/main/java/com/example/paymentintegration/Constants.kt:35-38.

## Left out

- `MainActivity.kt` is not part of this model. It holds Android UI, callbacks, activity results, logging and the handling of SDK results.
- `createPaymentsClient` (Utils.kt:63-69) is left out. It only forwards to the Wallet SDK.
- PaymentsUtil.PaymentsUtil.IsReadyToPayRequest: the `JSONException` → `null` branch (Utils.kt:55-56) is not modelled. The result type stays nullable, but the method always returns `baseRequest`. The exception comes from library code, and nothing visible here raises it.
- JSON serialisation and the key order of org.json objects are not modelled. An object is a map.
- Aliasing of nested objects is not modelled. `allowedPaymentMethods`, `merchantInfo` and the card methods are stored inside `baseRequest` as values, not as references to the shared `JSONObject`/`JSONArray` instances. Nothing in the core updates those nested objects after they are built, so their contents are the same either way.
- `BigDecimal` is modelled only as far as `centsToString` uses it: division by 100, `setScale` with HALF_EVEN, and `toString` of a scale-2 value (always plain notation). General division, other rounding modes and the scientific notation of `toString` are left out.
- Cents.SetScaleHalfEven: states only the resulting scale. How close the rounded value is stays with `Cents.RoundHalfEven`. `centsToString` only ever raises the scale, which `Cents.CentsScaleExact` covers exactly.
- `PAYMENTS_ENVIRONMENT`, `DIRECT_TOKENIZATION_PUBLIC_KEY`, `DIRECT_TOKENIZATION_PARAMETERS` and `SHIPPING_SUPPORTED_COUNTRIES` (Constants.kt:8, 30, 41-46) are not used by the core. `getPaymentDataRequest` writes the literal list `["US", "GB"]` rather than `SHIPPING_SUPPORTED_COUNTRIES`, and the model follows the code.
- The amount is a Kotlin `Long` in `GetPaymentDataRequest`. `CentsToString` itself is stated for every integer, so nothing about 64-bit overflow arises.
- The Kotlin `object PaymentsUtil` is a singleton. The model has a `PaymentsUtil` class instead, and a caller uses one instance `u` for all its requests. The class can be constructed more than once, and the aliasing methods `ReadyToPayThenPaymentData` and `PaymentDataThenReadyToPay` hold for each instance on its own.
