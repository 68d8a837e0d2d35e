/** The configuration the request builders read (`Constants` in the app). */
module Constants {

  /** The card networks the app accepts, in the order the list gives them. */
  const SupportedNetworks: seq<string> := ["AMEX", "DISCOVER", "JCB", "MASTERCARD", "VISA"]

  /** The card authentication methods the app accepts. */
  const SupportedMethods: seq<string> := ["PAN_ONLY", "CRYPTOGRAM_3DS"]

  /** ISO 3166-1 alpha-2 country of the merchant. */
  const CountryCode: string := "US"

  /** ISO 4217 currency of the price. */
  const CurrencyCode: string := "USD"

  const PaymentGatewayTokenizationName: string := "example"

  /** The parameters handed to the payment gateway that tokenizes the card. */
  const PaymentGatewayTokenizationParameters: map<string, string> :=
    map["gateway" := PaymentGatewayTokenizationName, "gatewayMerchantId" := "exampleGatewayMerchantId"]
}
