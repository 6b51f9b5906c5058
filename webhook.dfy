/** The `/webhook` endpoint: the provider's verification handshake (GET) and the
    ingestion of inbound messages (POST). */
module Webhook {
  import opened Base
  import opened Text
  import opened Settings
  import opened AutoReply
  import opened LeadStore
  import opened WhatsApp

  /** An HTTP answer: a body (absent when the echoed challenge is absent) and a status. */
  datatype Response = Response(body: Option<string>, status: int)

  // ---- GET: verification handshake ----

  /** The challenge is echoed with 200 exactly when the mode is "subscribe" and the token
      is the configured one; every other request is refused with 403. */
  function VerifyHandshake(mode: Option<string>, token: Option<string>, challenge: Option<string>,
                           cfg: Config): (r: Response)
    ensures r.status == 200 <==> mode == Some("subscribe") && token == Some(cfg.verifyToken)
    ensures r.status == 200 ==> r.body == challenge
    ensures r.status != 200 ==> r == Response(Some("Verification error"), 403)
  {
    if mode == Some("subscribe") && token == Some(cfg.verifyToken) then Response(challenge, 200)
    else Response(Some("Verification error"), 403)
  }

  // ---- POST: the inbound event, as far as the handler reads it ----
  // Every optional field is a JSON key that may be absent.

  datatype Profile = Profile(name: Option<string>)
  datatype Contact = Contact(profile: Option<Profile>)
  datatype TextPart = TextPart(body: Option<string>)
  /** `sender` is the message's `from` key. */
  datatype Message = Message(sender: Option<string>, text: Option<TextPart>)
  datatype Value = Value(messages: Option<seq<Message>>, contacts: Option<seq<Contact>>)
  datatype Change = Change(value: Option<Value>)
  datatype Entry = Entry(changes: Option<seq<Change>>)
  /** `otherKeys` tells an empty object `{}` from one that only lacks "entry". */
  datatype Payload = Payload(entry: Option<seq<Entry>>, otherKeys: bool)

  /** What the handler makes of a body before it touches the store. */
  datatype Extraction =
    | NoBody                 // a JSON `null` body, or a falsy one
    | NoMessage              // a readable value without messages
    | Unreadable             // a key or an index that raised
    | Inbound(phone: Option<string>, text: string, name: string)

  /** `not data`: a JSON `null` body (None), or the empty object. */
  predicate IsFalsy(body: Option<Payload>) {
    body.None? || (body.value.entry.None? && !body.value.otherKeys)
  }

  /** `data["entry"][0]["changes"][0]["value"]`, or None where a key or index raises. */
  function FirstValue(p: Payload): Option<Value> {
    if p.entry.None? || p.entry.value == [] then None
    else
      var e := p.entry.value[0];
      if e.changes.None? || e.changes.value == [] then None
      else e.changes.value[0].value
  }

  /** `value.get("messages", [])`. */
  function MessagesOf(v: Value): seq<Message> {
    v.messages.GetOr([])
  }

  /** `msg.get("text", {}).get("body", "")`. */
  function BodyText(m: Message): (r: string)
    ensures m.text.None? || m.text.value.body.None? ==> r == ""
    ensures m.text.Some? && m.text.value.body.Some? ==> r == m.text.value.body.value
  {
    match m.text
    case None => ""
    case Some(t) => t.body.GetOr("")
  }

  /** The sender's display name: "" without "contacts", None when `contacts[0]` raises,
      else `contacts[0].get("profile", {}).get("name", "")`. */
  function ContactName(v: Value): (r: Option<string>)
    ensures r.None? <==> v.contacts == Some([])
    ensures v.contacts.None? ==> r == Some("")
    ensures v.contacts.Some? && v.contacts.value != [] ==>
              var c := v.contacts.value[0];
              r == Some(if c.profile.Some? && c.profile.value.name.Some? then c.profile.value.name.value else "")
  {
    match v.contacts
    case None => Some("")
    case Some(cs) =>
      if cs == [] then None
      else
        match cs[0].profile
        case None => Some("")
        case Some(p) => Some(p.name.GetOr(""))
  }

  /** The extraction steps of the POST branch, in the order they can fail. */
  function Extract(body: Option<Payload>): (r: Extraction)
    ensures r.NoBody? <==> IsFalsy(body)
    ensures r.Unreadable? <==>
              && !IsFalsy(body)
              && (|| FirstValue(body.value).None?
                  || (MessagesOf(FirstValue(body.value).value) != [] &&
                      FirstValue(body.value).value.contacts == Some([])))
    ensures r.NoMessage? || r.Inbound? ==> !IsFalsy(body) && FirstValue(body.value).Some?
    ensures r.NoMessage? <==> !IsFalsy(body) && FirstValue(body.value).Some? &&
                              MessagesOf(FirstValue(body.value).value) == []
    ensures r.Inbound? ==>
              var v := FirstValue(body.value).value;
              && MessagesOf(v) != []
              && r.phone == MessagesOf(v)[0].sender
              && r.text == BodyText(MessagesOf(v)[0])
              && ContactName(v).Some? && r.name == ContactName(v).value
              && (MessagesOf(v)[0].text.None? || MessagesOf(v)[0].text.value.body.None? ==> r.text == "")
              && (v.contacts.None? ==> r.name == "")
  {
    if IsFalsy(body) then NoBody
    else
      match FirstValue(body.value)
      case None => Unreadable
      case Some(v) =>
        var messages := MessagesOf(v);
        if messages == [] then NoMessage
        else
          var msg := messages[0];
          match ContactName(v)
          case None => Unreadable
          case Some(name) => Inbound(msg.sender, BodyText(msg), name)
  }

  /** The body answered to an inbound event that got past the falsy and messages checks. */
  const Received := Response(Some("EVENT_RECEIVED"), 200)

  /** The POST branch of `webhook`. `now` is the wall clock at insertion and `storeUp`
      says whether the insert goes through; when it raises, nothing is stored and nothing
      is sent. Every outcome is acknowledged with 200, and `raised` says whether the
      handler caught an exception. */
  method HandlePost(store: Store, outbox: Outbox, cfg: Config, cc: CharClass,
                    body: Option<Payload>, now: string, storeUp: bool)
    returns (resp: Response, raised: bool)
    requires store.Valid()
    modifies store, outbox
    ensures store.Valid()
    ensures resp.status == 200
    ensures store.users == old(store.users) && store.nextUserId == old(store.nextUserId)
    ensures store.nextLeadId == old(store.nextLeadId) + (if Extract(body).Inbound? && storeUp then 1 else 0)
    ensures Extract(body).NoBody? ==> resp == Response(Some("no data"), 200)
    ensures Extract(body).NoMessage? ==> resp == Response(Some("OK"), 200)
    ensures Extract(body).Unreadable? || Extract(body).Inbound? ==> resp == Received
    ensures raised <==> Extract(body).Unreadable? || (Extract(body).Inbound? && !storeUp)
    ensures !(Extract(body).Inbound? && storeUp) ==>
              store.leads == old(store.leads) && outbox.sent == old(outbox.sent)
    ensures Extract(body).Inbound? && storeUp ==>
              var x := Extract(body);
              && store.leads == old(store.leads) +
                   [Lead(old(store.nextLeadId), OwnerId, x.phone, x.name, x.text, now, Unhandled)]
              && outbox.sent == old(outbox.sent) +
                   (if HasCredentials(cfg)
                    then [OutboundText(cfg.phoneNumberId, x.phone, BuildAutoReply(cfg, cc, x.name, x.text))]
                    else [])
  {
    raised := false;
    var x := Extract(body);
    match x
    case NoBody =>
      resp := Response(Some("no data"), 200);
    case NoMessage =>
      resp := Response(Some("OK"), 200);
    case Unreadable =>
      raised := true;
      resp := Received;
    case Inbound(phone, text, name) =>
      if !storeUp {
        raised := true;
      } else {
        store.InsertLead(OwnerId, phone, name, text, now);
        var reply := BuildAutoReply(cfg, cc, name, text);
        outbox.SendText(cfg, phone, reply);
      }
      resp := Received;
  }

  /** A minimal inbound event: a message "1" from 91900000001, without contacts. */
  const SampleEvent := Some(Payload(Some([Entry(Some([Change(Some(Value(
    Some([Message(Some("91900000001"), Some(TextPart(Some("1"))))]), None)))]))]), false))

  /** The sample event becomes a lead from 91900000001 with message "1" and no name, and
      its reply is the price text. */
  lemma SampleEventIsPriceRequest(cfg: Config, cc: CharClass)
    requires AsciiAware(cc)
    ensures Extract(SampleEvent) == Inbound(Some("91900000001"), "1", "")
    ensures BuildAutoReply(cfg, cc, "", "1") == cfg.priceText
  {
  }

  /** A readable value whose `contacts` list is empty makes `contacts[0]` raise, once a
      message is there; without messages the handler has answered "OK" before. */
  lemma EmptyContactsRaise(p: Payload, v: Value)
    requires !IsFalsy(Some(p)) && FirstValue(p) == Some(v) && v.contacts == Some([])
    ensures MessagesOf(v) != [] ==> Extract(Some(p)) == Unreadable
    ensures MessagesOf(v) == [] ==> Extract(Some(p)) == NoMessage
  {
  }
}
