/** The outbound WhatsApp client. A send is recorded in an outbox instead of being
    posted to the provider; whether the provider accepts it is not modelled. */
module WhatsApp {
  import opened Base
  import opened Settings

  /** One text message handed to the provider's send endpoint of `phoneNumberId`. */
  datatype OutboundText = OutboundText(phoneNumberId: string, to: Option<string>, body: string)

  class Outbox {
    var sent: seq<OutboundText>

    constructor ()
      ensures sent == []
    {
      sent := [];
    }

    /** `send_whatsapp_text`: without both credentials nothing is sent; otherwise one
        message to `to` with body `text` goes out from the configured phone number. */
    method SendText(cfg: Config, to: Option<string>, text: string)
      modifies this
      ensures HasCredentials(cfg) ==> sent == old(sent) + [OutboundText(cfg.phoneNumberId, to, text)]
      ensures !HasCredentials(cfg) ==> sent == old(sent)
    {
      if cfg.accessToken == "" || cfg.phoneNumberId == "" {
        return;
      }
      sent := sent + [OutboundText(cfg.phoneNumberId, to, text)];
    }
  }
}
