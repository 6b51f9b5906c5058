/** The process-wide configuration, resolved once at start-up from the environment,
    `config.json` and built-in defaults. Only the resolved values are modelled. */
module Settings {

  datatype Config = Config(
    verifyToken: string,       // WEBHOOK_VERIFY_TOKEN
    accessToken: string,       // WHATSAPP_ACCESS_TOKEN
    phoneNumberId: string,     // WHATSAPP_PHONE_NUMBER_ID
    autoReplyMessage: string,  // AUTO_REPLY_MESSAGE
    priceText: string,         // PRICE_TEXT
    addressText: string)       // ADDRESS_TEXT

  const DefaultVerifyToken := "verify_token"
  const DefaultAutoReplyMessage := "Thank you for your message! we'll reply soon."
  const DefaultPriceText := "Our basic plan starts at \U{20B9}199/month."
  const DefaultAddressText := "We are located at ..."

  /** The configuration when neither the environment nor `config.json` sets anything:
      no sending credentials at all. */
  const Defaults := Config(DefaultVerifyToken, "", "", DefaultAutoReplyMessage,
                           DefaultPriceText, DefaultAddressText)

  /** Both sending credentials are non-empty; otherwise no message is sent. */
  predicate HasCredentials(cfg: Config) {
    cfg.accessToken != "" && cfg.phoneNumberId != ""
  }
}
