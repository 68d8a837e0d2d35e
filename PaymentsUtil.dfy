/** `PaymentsUtil`: the Google Pay request builders. The fixed parts of a request are pure
    values; the request itself is one shared `baseRequest` object that both builders update
    in place and hand back. */
module PaymentsUtil {
  import opened Json
  import opened Cents
  import Constants

  // ---------------------------------------------------------------------------
  // What the requests must contain, stated on their own

  /** A card entry of `allowedPaymentMethods` with the card networks, authentication methods
      and billing address the app asks for. */
  predicate IsCardMethod(j: Json)
  {
    && Field(j, "type") == Some(JStr("CARD"))
    && StringsIn(Then(Field(j, "parameters"), "allowedAuthMethods")) == Some(["PAN_ONLY", "CRYPTOGRAM_3DS"])
    && StringsIn(Then(Field(j, "parameters"), "allowedCardNetworks")) == Some(["AMEX", "DISCOVER", "JCB", "MASTERCARD", "VISA"])
    && Then(Field(j, "parameters"), "billingAddressRequired") == Some(JBool(true))
    && Then(Then(Field(j, "parameters"), "billingAddressParameters"), "format") == Some(JStr("FULL"))
  }

  predicate HasTokenization(j: Json)
  {
    Field(j, "tokenizationSpecification").Some?
  }

  /** Tokenization through the example payment gateway. */
  predicate HasGatewayTokenization(j: Json)
  {
    && Then(Field(j, "tokenizationSpecification"), "type") == Some(JStr("PAYMENT_GATEWAY"))
    && Then(Then(Field(j, "tokenizationSpecification"), "parameters"), "gateway") == Some(JStr("example"))
    && Then(Then(Field(j, "tokenizationSpecification"), "parameters"), "gatewayMerchantId") == Some(JStr("exampleGatewayMerchantId"))
  }

  /** Version 2.0 of the request format. */
  predicate IsApiVersion2(m: map<string, Json>)
  {
    && "apiVersion" in m && m["apiVersion"] == JNum(2)
    && "apiVersionMinor" in m && m["apiVersionMinor"] == JNum(0)
  }

  /** `allowedPaymentMethods` is one card method; `tokenized` says whether it carries the
      gateway tokenization or no tokenization at all. */
  predicate HasCardMethodOnly(m: map<string, Json>, tokenized: bool)
  {
    && "allowedPaymentMethods" in m
    && m["allowedPaymentMethods"].JArr?
    && |m["allowedPaymentMethods"].items| == 1
    && var card := m["allowedPaymentMethods"].items[0];
       IsCardMethod(card) && (if tokenized then HasGatewayTokenization(card) else !HasTokenization(card))
  }

  /** The final price `price`, in US dollars, for a merchant in the US. */
  predicate HasTransactionInfo(m: map<string, Json>, price: string)
  {
    && Then(Field(JObj(m), "transactionInfo"), "totalPrice") == Some(JStr(price))
    && Then(Field(JObj(m), "transactionInfo"), "totalPriceStatus") == Some(JStr("FINAL"))
    && Then(Field(JObj(m), "transactionInfo"), "countryCode") == Some(JStr("US"))
    && Then(Field(JObj(m), "transactionInfo"), "currencyCode") == Some(JStr("USD"))
  }

  /** The merchant, and a required shipping address in the US or Great Britain without a phone number. */
  predicate HasShippingAndMerchant(m: map<string, Json>)
  {
    && Field(JObj(m), "merchantInfo") == Some(JObj(map["Demo Payment" := JStr("Payment Demo")]))
    && Field(JObj(m), "shippingAddressRequired") == Some(JBool(true))
    && Then(Field(JObj(m), "shippingAddressParameters"), "phoneNumberRequired") == Some(JBool(false))
    && StringsIn(Then(Field(JObj(m), "shippingAddressParameters"), "allowedCountryCodes")) == Some(["US", "GB"])
  }

  /** A complete "is ready to pay" request. */
  predicate IsReadyToPayShape(m: map<string, Json>)
  {
    IsApiVersion2(m) && HasCardMethodOnly(m, false)
  }

  /** A complete "load payment data" request for `priceCents` cents. */
  predicate IsPaymentDataShape(m: map<string, Json>, priceCents: int)
  {
    && IsApiVersion2(m)
    && HasCardMethodOnly(m, true)
    && HasTransactionInfo(m, CentsToString(priceCents))
    && HasShippingAndMerchant(m)
  }

  // ---------------------------------------------------------------------------
  // The fixed parts of the requests

  /** The entries `baseRequest` is created with. */
  const BaseRequestFields: map<string, Json> := map["apiVersion" := JNum(2), "apiVersionMinor" := JNum(0)]

  const GatewayTokenizationSpecification: Json :=
    JObj(map[
      "type" := JStr("PAYMENT_GATEWAY"),
      "parameters" := StrObject(Constants.PaymentGatewayTokenizationParameters)])

  const AllowedCardNetworks: Json := StrArray(Constants.SupportedNetworks)

  const AllowedCardAuthMethods: Json := StrArray(Constants.SupportedMethods)

  const MerchantInfo: Json := JObj(map["Demo Payment" := JStr("Payment Demo")])

  /** The keys `getPaymentDataRequest` writes. */
  const PaymentDataKeys: set<string> :=
    {"allowedPaymentMethods", "transactionInfo", "merchantInfo", "shippingAddressRequired", "shippingAddressParameters"}

  /** `baseCardPaymentMethod()`: a fresh card method, without tokenization. */
  function BaseCardPaymentMethod(): (r: Json)
    ensures IsCardMethod(r) && !HasTokenization(r)
    ensures r.JObj? && r.fields.Keys == {"type", "parameters"}
  {
    StrArrayRoundTrip(Constants.SupportedMethods);
    StrArrayRoundTrip(Constants.SupportedNetworks);
    JObj(map[
      "type" := JStr("CARD"),
      "parameters" := JObj(map[
        "allowedAuthMethods" := AllowedCardAuthMethods,
        "allowedCardNetworks" := AllowedCardNetworks,
        "billingAddressRequired" := JBool(true),
        "billingAddressParameters" := JObj(map["format" := JStr("FULL")])])])
  }

  /** What `cardPaymentMethod` holds once built: the base card method with the gateway
      tokenization added. */
  function CardPaymentMethod(): (r: Json)
    ensures IsCardMethod(r) && HasGatewayTokenization(r)
  {
    var base := BaseCardPaymentMethod();
    AddTokenization(base, GatewayTokenizationSpecification);
    GatewayTokenization(JObj(base.fields["tokenizationSpecification" := GatewayTokenizationSpecification]));
    JObj(base.fields["tokenizationSpecification" := GatewayTokenizationSpecification])
  }

  /** Adding a tokenization to a card method keeps it a card method. */
  lemma AddTokenization(card: Json, spec: Json)
    requires card.JObj? && IsCardMethod(card)
    ensures IsCardMethod(JObj(card.fields["tokenizationSpecification" := spec]))
  {
    var r := JObj(card.fields["tokenizationSpecification" := spec]);
    assert Field(r, "type") == Field(card, "type");
    assert Field(r, "parameters") == Field(card, "parameters");
  }

  lemma GatewayTokenization(j: Json)
    requires j.JObj? && "tokenizationSpecification" in j.fields
    requires j.fields["tokenizationSpecification"] == GatewayTokenizationSpecification
    ensures HasGatewayTokenization(j)
  {
  }

  /** `getTransactionInfo(price)`: a fresh object describing the final price. */
  function TransactionInfo(price: string): (r: Json)
    ensures Field(r, "totalPrice") == Some(JStr(price))
    ensures Field(r, "totalPriceStatus") == Some(JStr("FINAL"))
    ensures Field(r, "countryCode") == Some(JStr("US")) && Field(r, "currencyCode") == Some(JStr("USD"))
    ensures r.JObj? && r.fields.Keys == {"totalPrice", "totalPriceStatus", "countryCode", "currencyCode"}
  {
    JObj(map[
      "totalPrice" := JStr(price),
      "totalPriceStatus" := JStr("FINAL"),
      "countryCode" := JStr(Constants.CountryCode),
      "currencyCode" := JStr(Constants.CurrencyCode)])
  }

  /** The fresh `shippingAddressParameters` object `getPaymentDataRequest` builds. */
  function ShippingAddressParameters(): (r: Json)
    ensures Field(r, "phoneNumberRequired") == Some(JBool(false))
    ensures StringsIn(Field(r, "allowedCountryCodes")) == Some(["US", "GB"])
  {
    StrArrayRoundTrip(["US", "GB"]);
    JObj(map[
      "phoneNumberRequired" := JBool(false),
      "allowedCountryCodes" := StrArray(["US", "GB"])])
  }

  /** Adding the tokenization to the base card method keeps every entry it had. */
  lemma CardPaymentMethodExtendsBase()
    ensures CardPaymentMethod().JObj? && BaseCardPaymentMethod().JObj?
    ensures CardPaymentMethod().fields.Keys == BaseCardPaymentMethod().fields.Keys + {"tokenizationSpecification"}
    ensures forall k :: k in BaseCardPaymentMethod().fields ==> CardPaymentMethod().fields[k] == BaseCardPaymentMethod().fields[k]
  {
    var base := BaseCardPaymentMethod();
    assert "tokenizationSpecification" !in base.fields;
  }

  // ---------------------------------------------------------------------------
  // What each builder does to the entries of `baseRequest`

  /** The entries after `isReadyToPayRequest`, given those before: `allowedPaymentMethods`
      becomes one fresh card method without tokenization; every other entry is kept. */
  function ReadyToPayUpdate(m: map<string, Json>): (r: map<string, Json>)
    ensures r.Keys == m.Keys + {"allowedPaymentMethods"}
    ensures forall k :: k in m && k != "allowedPaymentMethods" ==> r[k] == m[k]
    ensures HasCardMethodOnly(r, false)
  {
    PutField(m, "allowedPaymentMethods", JArr([BaseCardPaymentMethod()]))
  }

  /** The five entries `getPaymentDataRequest` puts, with the values given. */
  function RequestEntries(methods: Json, transaction: Json, merchant: Json, shippingRequired: Json, shipping: Json): (e: map<string, Json>)
    ensures e.Keys == PaymentDataKeys
    ensures e["allowedPaymentMethods"] == methods && e["transactionInfo"] == transaction
    ensures e["merchantInfo"] == merchant && e["shippingAddressRequired"] == shippingRequired
    ensures e["shippingAddressParameters"] == shipping
  {
    map[
      "allowedPaymentMethods" := methods,
      "transactionInfo" := transaction,
      "merchantInfo" := merchant,
      "shippingAddressRequired" := shippingRequired,
      "shippingAddressParameters" := shipping]
  }

  /** The five entries `getPaymentDataRequest` puts, for the price text `price`. */
  function PaymentDataEntries(price: string): (e: map<string, Json>)
    ensures e.Keys == PaymentDataKeys
  {
    RequestEntries(JArr([CardPaymentMethod()]), TransactionInfo(price), MerchantInfo, JBool(true), ShippingAddressParameters())
  }

  lemma PaymentDataEntriesComplete(price: string)
    ensures HasCardMethodOnly(PaymentDataEntries(price), true)
    ensures HasTransactionInfo(PaymentDataEntries(price), price)
    ensures HasShippingAndMerchant(PaymentDataEntries(price))
  {
    PaymentDataEntriesCard(price);
    PaymentDataEntriesTransaction(price);
    PaymentDataEntriesShipping(price);
  }

  lemma PaymentDataEntriesCard(price: string)
    ensures HasCardMethodOnly(PaymentDataEntries(price), true)
  {
    CardEntry(PaymentDataEntries(price), CardPaymentMethod());
  }

  lemma PaymentDataEntriesTransaction(price: string)
    ensures HasTransactionInfo(PaymentDataEntries(price), price)
  {
    TransactionEntry(PaymentDataEntries(price), price);
  }

  lemma PaymentDataEntriesShipping(price: string)
    ensures HasShippingAndMerchant(PaymentDataEntries(price))
  {
    ShippingEntry(PaymentDataEntries(price));
  }

  lemma CardEntry(e: map<string, Json>, card: Json)
    requires "allowedPaymentMethods" in e && e["allowedPaymentMethods"] == JArr([card])
    requires IsCardMethod(card) && HasGatewayTokenization(card)
    ensures HasCardMethodOnly(e, true)
  {
  }

  lemma TransactionEntry(e: map<string, Json>, price: string)
    requires "transactionInfo" in e && e["transactionInfo"] == TransactionInfo(price)
    ensures HasTransactionInfo(e, price)
  {
  }

  lemma ShippingEntry(e: map<string, Json>)
    requires "merchantInfo" in e && e["merchantInfo"] == MerchantInfo
    requires "shippingAddressRequired" in e && e["shippingAddressRequired"] == JBool(true)
    requires "shippingAddressParameters" in e && e["shippingAddressParameters"] == ShippingAddressParameters()
    ensures HasShippingAndMerchant(e)
  {
  }

  /** The entries after `getPaymentDataRequest(priceCents)`, given those before: the five
      entries are written over whatever was there; every other entry is kept. */
  function PaymentDataUpdate(m: map<string, Json>, priceCents: int): (r: map<string, Json>)
    ensures r.Keys == m.Keys + PaymentDataKeys
    ensures forall k :: k in m && k !in PaymentDataKeys ==> k in r && r[k] == m[k]
  {
    m + PaymentDataEntries(CentsToString(priceCents))
  }

  /** Five `put` calls in a row write the five entries over the receiver's. */
  lemma PutChainMerge(m: map<string, Json>, methods: Json, transaction: Json, merchant: Json, shippingRequired: Json, shipping: Json)
    ensures PutField(PutField(PutField(PutField(PutField(m,
              "allowedPaymentMethods", methods),
              "transactionInfo", transaction),
              "merchantInfo", merchant),
              "shippingAddressRequired", shippingRequired),
              "shippingAddressParameters", shipping)
            == m + RequestEntries(methods, transaction, merchant, shippingRequired, shipping)
  {
    var e0: map<string, Json> := map[];
    assert m == m + e0;
    PutMerge(m, e0, "allowedPaymentMethods", methods);
    var e1 := e0["allowedPaymentMethods" := methods];
    PutMerge(m, e1, "transactionInfo", transaction);
    var e2 := e1["transactionInfo" := transaction];
    PutMerge(m, e2, "merchantInfo", merchant);
    var e3 := e2["merchantInfo" := merchant];
    PutMerge(m, e3, "shippingAddressRequired", shippingRequired);
    var e4 := e3["shippingAddressRequired" := shippingRequired];
    PutMerge(m, e4, "shippingAddressParameters", shipping);
  }

  /** A `put` after a merge is a `put` into the merged entries. */
  lemma PutMerge(m: map<string, Json>, e: map<string, Json>, key: string, v: Json)
    ensures (m + e)[key := v] == m + e[key := v]
  {
  }

  // ---------------------------------------------------------------------------
  // Looking up entries of updated requests

  /** Entries written over entries with the same keys leave no trace of the first ones. */
  lemma MergeCovered(m: map<string, Json>, e1: map<string, Json>, e2: map<string, Json>)
    requires e1.Keys <= e2.Keys
    ensures (m + e1) + e2 == m + e2
  {
  }

  lemma PutThenMerge(m: map<string, Json>, key: string, v: Json, e: map<string, Json>)
    requires key in e
    ensures PutField(m, key, v) + e == m + e
  {
  }

  /** What the request predicates look at survives entries merged over the request, when
      the merged entries satisfy them themselves or leave their keys alone. */
  lemma ShapeOfMerge(m: map<string, Json>, e: map<string, Json>, price: string)
    requires HasCardMethodOnly(e, true) && HasTransactionInfo(e, price) && HasShippingAndMerchant(e)
    ensures HasCardMethodOnly(m + e, true) && HasTransactionInfo(m + e, price) && HasShippingAndMerchant(m + e)
  {
    PartsOfMerge(m, e, price);
  }

  lemma PartsOfMerge(m: map<string, Json>, e: map<string, Json>, price: string)
    requires HasTransactionInfo(e, price) && HasShippingAndMerchant(e)
    ensures HasTransactionInfo(m + e, price) && HasShippingAndMerchant(m + e)
  {
    assert Field(JObj(m + e), "transactionInfo") == Field(JObj(e), "transactionInfo");
    assert Field(JObj(m + e), "merchantInfo") == Field(JObj(e), "merchantInfo");
    assert Field(JObj(m + e), "shippingAddressRequired") == Field(JObj(e), "shippingAddressRequired");
    assert Field(JObj(m + e), "shippingAddressParameters") == Field(JObj(e), "shippingAddressParameters");
  }

  /** Replacing `allowedPaymentMethods` leaves the price, merchant and shipping entries alone. */
  lemma PaymentPartsSurvivePut(m: map<string, Json>, v: Json, price: string)
    requires HasTransactionInfo(m, price) && HasShippingAndMerchant(m)
    ensures HasTransactionInfo(PutField(m, "allowedPaymentMethods", v), price)
    ensures HasShippingAndMerchant(PutField(m, "allowedPaymentMethods", v))
  {
    var r := PutField(m, "allowedPaymentMethods", v);
    assert Field(JObj(r), "transactionInfo") == Field(JObj(m), "transactionInfo");
    assert Field(JObj(r), "merchantInfo") == Field(JObj(m), "merchantInfo");
    assert Field(JObj(r), "shippingAddressRequired") == Field(JObj(m), "shippingAddressRequired");
    assert Field(JObj(r), "shippingAddressParameters") == Field(JObj(m), "shippingAddressParameters");
  }

  lemma ApiVersionOfMerge(m: map<string, Json>, e: map<string, Json>)
    requires IsApiVersion2(m) && "apiVersion" !in e && "apiVersionMinor" !in e
    ensures IsApiVersion2(m + e)
  {
  }

  lemma ApiKeysNotWritten()
    ensures "apiVersion" !in PaymentDataKeys && "apiVersionMinor" !in PaymentDataKeys
  {
  }

  // ---------------------------------------------------------------------------
  // Properties of the builders

  /** After `getPaymentDataRequest`, the shared request is a complete payment data request,
      whatever an earlier call left in it, as long as the API version is there. */
  lemma PaymentDataRequestComplete(m: map<string, Json>, priceCents: int)
    requires IsApiVersion2(m)
    ensures IsPaymentDataShape(PaymentDataUpdate(m, priceCents), priceCents)
  {
    PaymentDataEntriesComplete(CentsToString(priceCents));
    ApiKeysNotWritten();
    ApiVersionOfMerge(m, PaymentDataEntries(CentsToString(priceCents)));
    ShapeOfMerge(m, PaymentDataEntries(CentsToString(priceCents)), CentsToString(priceCents));
  }

  /** After `isReadyToPayRequest`, the shared request is a complete "is ready to pay" request. */
  lemma ReadyToPayRequestComplete(m: map<string, Json>)
    requires IsApiVersion2(m)
    ensures IsReadyToPayShape(ReadyToPayUpdate(m))
  {
  }

  /** The two builders write different `allowedPaymentMethods`, whatever the request held before:
      only the payment data request's card method carries a tokenization. */
  lemma CardMethodsDiffer(m1: map<string, Json>, m2: map<string, Json>, priceCents: int)
    ensures "allowedPaymentMethods" in ReadyToPayUpdate(m1) && "allowedPaymentMethods" in PaymentDataUpdate(m2, priceCents)
    ensures ReadyToPayUpdate(m1)["allowedPaymentMethods"] != PaymentDataUpdate(m2, priceCents)["allowedPaymentMethods"]
  {
    var e := PaymentDataEntries(CentsToString(priceCents));
    PaymentDataEntriesCard(CentsToString(priceCents));
    CardOfMerge(m2, e);
    TokenizedDiffers(ReadyToPayUpdate(m1), m2 + e);
  }

  lemma CardOfMerge(m: map<string, Json>, e: map<string, Json>)
    requires HasCardMethodOnly(e, true)
    ensures HasCardMethodOnly(m + e, true)
  {
  }

  /** A tokenized card method list is never an untokenized one. */
  lemma TokenizedDiffers(plain: map<string, Json>, tokenized: map<string, Json>)
    requires HasCardMethodOnly(plain, false) && HasCardMethodOnly(tokenized, true)
    ensures plain["allowedPaymentMethods"] != tokenized["allowedPaymentMethods"]
  {
    var card := tokenized["allowedPaymentMethods"].items[0];
    assert Field(card, "tokenizationSpecification").Some?;
  }

  /** Calling `getPaymentDataRequest(p)` twice leaves the same entries as calling it once. */
  lemma PaymentDataIdempotent(m: map<string, Json>, priceCents: int)
    ensures PaymentDataUpdate(PaymentDataUpdate(m, priceCents), priceCents) == PaymentDataUpdate(m, priceCents)
  {
    MergeCovered(m, PaymentDataEntries(CentsToString(priceCents)), PaymentDataEntries(CentsToString(priceCents)));
  }

  /** Calling `isReadyToPayRequest` twice leaves the same entries as calling it once. */
  lemma ReadyToPayIdempotent(m: map<string, Json>)
    ensures ReadyToPayUpdate(ReadyToPayUpdate(m)) == ReadyToPayUpdate(m)
  {
  }

  /** A later `getPaymentDataRequest(q)` overwrites every entry an earlier
      `getPaymentDataRequest(p)` wrote: the last price wins. */
  lemma PaymentDataLastPriceWins(m: map<string, Json>, p: int, q: int)
    ensures PaymentDataUpdate(PaymentDataUpdate(m, p), q) == PaymentDataUpdate(m, q)
  {
    MergeCovered(m, PaymentDataEntries(CentsToString(p)), PaymentDataEntries(CentsToString(q)));
  }

  /** `getPaymentDataRequest` overwrites everything `isReadyToPayRequest` wrote. */
  lemma PaymentDataAfterReadyToPay(m: map<string, Json>, priceCents: int)
    ensures PaymentDataUpdate(ReadyToPayUpdate(m), priceCents) == PaymentDataUpdate(m, priceCents)
  {
    PutThenMerge(m, "allowedPaymentMethods", JArr([BaseCardPaymentMethod()]), PaymentDataEntries(CentsToString(priceCents)));
  }

  /** `isReadyToPayRequest` after `getPaymentDataRequest(p)` replaces only the card method: the
      transaction, merchant and shipping entries of the earlier call remain in the request. */
  lemma ReadyToPayKeepsPaymentData(m: map<string, Json>, priceCents: int)
    ensures var r := ReadyToPayUpdate(PaymentDataUpdate(m, priceCents));
      && HasCardMethodOnly(r, false)
      && HasTransactionInfo(r, CentsToString(priceCents))
      && HasShippingAndMerchant(r)
      && r.Keys == m.Keys + PaymentDataKeys
  {
    PaymentDataParts(m, priceCents);
    ReadyToPayKeepsParts(PaymentDataUpdate(m, priceCents), CentsToString(priceCents));
    ReadyToPayKeys(PaymentDataUpdate(m, priceCents), m.Keys);
  }

  lemma ReadyToPayKeys(m: map<string, Json>, earlier: set<string>)
    requires m.Keys == earlier + PaymentDataKeys
    ensures ReadyToPayUpdate(m).Keys == earlier + PaymentDataKeys
  {
  }

  lemma PaymentDataParts(m: map<string, Json>, priceCents: int)
    ensures HasTransactionInfo(PaymentDataUpdate(m, priceCents), CentsToString(priceCents))
    ensures HasShippingAndMerchant(PaymentDataUpdate(m, priceCents))
  {
    var price := CentsToString(priceCents);
    PaymentDataEntriesTransaction(price);
    PaymentDataEntriesShipping(price);
    PartsOfMerge(m, PaymentDataEntries(price), price);
  }

  lemma ReadyToPayKeepsParts(m: map<string, Json>, price: string)
    requires HasTransactionInfo(m, price) && HasShippingAndMerchant(m)
    ensures HasTransactionInfo(ReadyToPayUpdate(m), price) && HasShippingAndMerchant(ReadyToPayUpdate(m))
  {
    PaymentPartsSurvivePut(m, JArr([BaseCardPaymentMethod()]), price);
  }

  /** The chain of five `put` calls in `getPaymentDataRequest` performs `PaymentDataUpdate`. */
  lemma PaymentDataChain(m: map<string, Json>, priceCents: int)
    ensures PutField(PutField(PutField(PutField(PutField(m,
              "allowedPaymentMethods", JArr([CardPaymentMethod()])),
              "transactionInfo", TransactionInfo(CentsToString(priceCents))),
              "merchantInfo", MerchantInfo),
              "shippingAddressRequired", JBool(true)),
              "shippingAddressParameters", ShippingAddressParameters())
            == PaymentDataUpdate(m, priceCents)
  {
    PutChainMerge(m, JArr([CardPaymentMethod()]), TransactionInfo(CentsToString(priceCents)),
      MerchantInfo, JBool(true), ShippingAddressParameters());
  }

  // ---------------------------------------------------------------------------
  // The object

  /** The `PaymentsUtil` object: one `baseRequest` that every request is written into, and the
      `cardPaymentMethod` that `allowedPaymentMethods` holds. */
  class PaymentsUtil {
    const baseRequest: JsonObject
    const cardPaymentMethod: JsonObject

    ghost predicate Valid()
      reads this, baseRequest, cardPaymentMethod
    {
      && baseRequest != cardPaymentMethod
      && IsApiVersion2(baseRequest.fields)
      && cardPaymentMethod.Value() == CardPaymentMethod()
    }

    /** The object's initialisation, in the order its properties are declared. */
    constructor ()
      ensures Valid()
      ensures fresh(baseRequest) && fresh(cardPaymentMethod)
      ensures baseRequest.fields == BaseRequestFields
    {
      var base := new JsonObject();
      base := base.Put("apiVersion", JNum(2));
      base := base.Put("apiVersionMinor", JNum(0));
      var card := new JsonObject.Of(BaseCardPaymentMethod().fields);
      card := card.Put("tokenizationSpecification", GatewayTokenizationSpecification);
      baseRequest := base;
      cardPaymentMethod := card;
    }

    /** `allowedPaymentMethods`: an array holding `cardPaymentMethod`. */
    function AllowedPaymentMethods(): (r: Json)
      reads this, baseRequest, cardPaymentMethod
      requires Valid()
      ensures HasCardMethodOnly(map["allowedPaymentMethods" := r], true)
    {
      JArr([cardPaymentMethod.Value()])
    }

    /** `isReadyToPayRequest()`: writes a fresh, untokenized card method into `baseRequest` and
        returns `baseRequest` itself. */
    method IsReadyToPayRequest() returns (r: JsonObject?)
      requires Valid()
      modifies baseRequest
      ensures Valid()
      ensures r == baseRequest
      ensures baseRequest.fields == ReadyToPayUpdate(old(baseRequest.fields))
      ensures IsReadyToPayShape(baseRequest.fields)
    {
      r := baseRequest.Put("allowedPaymentMethods", JArr([BaseCardPaymentMethod()]));
    }

    /** `getPaymentDataRequest(priceCents)`: writes the payment entries into `baseRequest` and
        returns `baseRequest` itself. */
    method GetPaymentDataRequest(priceCents: Long) returns (r: JsonObject)
      requires Valid()
      modifies baseRequest
      ensures Valid()
      ensures r == baseRequest
      ensures baseRequest.fields == PaymentDataUpdate(old(baseRequest.fields), priceCents)
      ensures IsPaymentDataShape(baseRequest.fields, priceCents)
    {
      var methods := AllowedPaymentMethods();
      assert methods == JArr([CardPaymentMethod()]);
      r := baseRequest.Put("allowedPaymentMethods", methods);
      r := r.Put("transactionInfo", TransactionInfo(CentsToString(priceCents)));
      r := r.Put("merchantInfo", MerchantInfo);
      r := r.Put("shippingAddressRequired", JBool(true));
      r := r.Put("shippingAddressParameters", ShippingAddressParameters());
      PaymentDataChain(old(baseRequest.fields), priceCents);
      PaymentDataRequestComplete(old(baseRequest.fields), priceCents);
    }
  }

  // ---------------------------------------------------------------------------
  // Both builders hand out the same object

  /** A caller that asks whether it can pay and then loads payment data holds one object twice:
      the "is ready to pay" request it received has become the payment data request. */
  method ReadyToPayThenPaymentData(u: PaymentsUtil, priceCents: Long) returns (ready: JsonObject?, payment: JsonObject)
    requires u.Valid()
    modifies u.baseRequest
    ensures u.Valid()
    ensures ready == payment == u.baseRequest
    ensures IsPaymentDataShape(ready.fields, priceCents)
  {
    ready := u.IsReadyToPayRequest();
    payment := u.GetPaymentDataRequest(priceCents);
  }

  /** The other order: the payment data request a caller received turns into an "is ready to
      pay" request that still carries the price, merchant and shipping entries. */
  method PaymentDataThenReadyToPay(u: PaymentsUtil, priceCents: Long) returns (payment: JsonObject, ready: JsonObject?)
    requires u.Valid()
    modifies u.baseRequest
    ensures u.Valid()
    ensures ready == payment == u.baseRequest
    ensures IsReadyToPayShape(payment.fields)
    ensures HasTransactionInfo(payment.fields, CentsToString(priceCents)) && HasShippingAndMerchant(payment.fields)
  {
    payment := u.GetPaymentDataRequest(priceCents);
    ready := u.IsReadyToPayRequest();
    ReadyToPayKeepsPaymentData(old(u.baseRequest.fields), priceCents);
  }
}
