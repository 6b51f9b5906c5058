# WhatsApp auto-reply lead capture, modelled in Dafny

The application receives inbound WhatsApp Business messages on a webhook, stores each
one as a *lead* owned by a registered user, answers the sender with a canned auto-reply,
and lets the logged-in owner list and export their leads. This project models the
decision rules of `main.py` once the web framework, the database client, the HTTP
client and configuration loading are taken away:

- `Text` — `str.strip()` and `str.isdigit()` over an abstract classification of
  characters (`CharClass`), with the characterisation of what `strip` removes.
- `Settings` — the resolved configuration values and their built-in defaults.
- `AutoReply` — `build_auto_reply`: "1" answers the price text, "2" the address text,
  everything else a greeting with the sender's name or "there".
- `LeadStore` — the `users` and `leads` tables as a class `Store` with sequence fields,
  and the helpers `create_user`, `get_user_by_email`, `insert_lead`, `get_leads`.
- `WhatsApp` — `send_whatsapp_text` as an append to an outbox (`Outbox`), guarded by the
  presence of both credentials.
- `Webhook` — the GET verification handshake, the inbound payload as nested datatypes
  with optional keys, the extraction steps, and the POST handler as a method that
  inserts the lead and then sends the reply, always answering 200.
- `Auth` — the sign-up decision and the log-in check.
- `Views` — the dashboard listing and the CSV export's row layout.

Notes on what the code does:

- Every inbound lead is assigned to user 1 (`main.py:125`); there is no lookup of the
  owning tenant by the payload's phone-number id.
- The sending credentials are the process-wide ones only; there are no per-user credentials.
- A new lead's `handled` flag is `0`, not unset (`main.py:81`).

## Model

| member | source | states |
|---|---|---|
| Text.Strip | main.py:140 | the result is a slice of the input; everything cut off on either side is whitespace, and the result neither starts nor ends with whitespace |
| Text.StripOfPadded | main.py:140 | conversely, whitespace around a core that neither starts nor ends with whitespace is exactly what is stripped |
| AutoReply.BuildAutoReply | main.py:139-147 | the reply is the price text, the address text or the greeting, and it is the greeting whenever the trimmed text is not a digit string |
| AutoReply.ReplyByTrimmedText | main.py:142-147 | since "1" and "2" are digits, the reply is the price text exactly when the trimmed text is "1", the address text exactly when it is "2", and the greeting otherwise |
| AutoReply.PaddedMenuChoice | main.py:140-146 | "1" or "2" surrounded by any whitespace still answers the price or the address text |
| AutoReply.OtherInputsGreet | main.py:142-147 | "3", "12" and the empty text are not special: they are greeted |
| AutoReply.GreetingContents | main.py:147 | the greeting contains the sender's name (or "there" when it is empty) and the configured auto-reply message, and ends with the menu hint |
| AutoReply.DefaultPriceReply | main.py:143-146 | with the built-in defaults, "1" answers "Our basic plan starts at ₹199/month." and "2" answers "We are located at ..." |
| Webhook.VerifyHandshake | main.py:93-101 | status 200 exactly when mode is "subscribe" and the token equals the configured verify token, and then the body is the challenge verbatim; otherwise ("Verification error", 403) |
| Webhook.BodyText | main.py:118 | the message's `text.body`, or "" when `text` or its `body` is absent |
| Webhook.ContactName | main.py:120-122 | "" without `contacts`; a raise exactly when `contacts` is empty; otherwise the first contact's `profile.name`, or "" when either is absent |
| Webhook.Extract | main.py:104-122 | no data exactly for a falsy body; an exception exactly when `entry[0].changes[0].value` cannot be read, or when a message is present and `contacts` is empty; no message exactly when the value has no or an empty `messages`; an inbound message carries the first message's `from`, its body text ("" when `text` or `body` is absent) and the contact name ("" when there are no `contacts`) |
| Webhook.EmptyContactsRaise | main.py:111-122 | an empty `contacts` list raises once a message is present, and is never reached when there are no messages |
| Webhook.HandlePost | main.py:103-137 | always status 200; "no data" and "OK" leave the store (tables and id counters) and the outbox unchanged; an inbound message appends one lead of user 1, unhandled, with the extracted phone, name and text, and only after that sends the auto-reply, when credentials are present; an extraction error or a failed insert stores nothing and sends nothing |
| Webhook.SampleEventIsPriceRequest | main.py:116-131 | the message "1" from 91900000001 without contacts becomes that phone, text "1" and name "", and its reply is the price text |
| WhatsApp.Outbox.SendText | main.py:149-152 | without an access token or a phone-number id nothing is sent; otherwise exactly one message to the given phone with the given text is added |
| LeadStore.FirstIndexWithEmail | main.py:68-72 | the position of the first user with the email, none exactly when no user has it |
| LeadStore.FindUser | main.py:68-72 | the user found has the email and is in the table; none exactly when no user has the email |
| LeadStore.FindUserAfterAppend | main.py:68-72 | appending a user does not change an earlier match; with a new email, the appended user is the one found |
| LeadStore.Store.GetUserByEmail | main.py:68-72 | returns the first user with the email, or none exactly when there is none |
| LeadStore.Store.CreateUser | main.py:62-66 | appends exactly one user with the next id, the email and the hash; the leads are unchanged |
| LeadStore.Store.InsertLead | main.py:74-82 | appends exactly one lead with the next id, the given owner, phone, name, message and timestamp, and handled 0 |
| LeadStore.NewestFirst | main.py:84-86 | contains exactly the leads of the user, and in id-descending order when the table is in id order |
| LeadStore.ListingIsUnique | main.py:85 | two id-descending listings of the same leads are equal, so the listing is the query's one answer |
| LeadStore.Store.GetLeads | main.py:84-86 | exactly the leads whose owner is the user, ordered by id descending |
| Auth.SignupDecision | main.py:184-194 | missing fields exactly when email or password is empty; already registered exactly when both are given and a user has the email; created otherwise |
| Auth.Signup | main.py:178-197 | creates exactly one user, with the next id, that email and hash, when the decision is created, and none otherwise; advances the user id only then and leaves the leads alone; keeps emails unique |
| Auth.SignupKeepsEmailsUnique | main.py:190-194 | a table with unique emails keeps them unique after a sign-up |
| Auth.SecondSignupRejected | main.py:190-192 | after a successful sign-up, a second one with the same email never creates a user, and with a password it is rejected as already registered |
| Auth.Login | main.py:201-214 | logged in exactly when the first user with the email exists and the password checks against its hash, and then the session gets that first user's id; an unknown email gives the same answer as a wrong password |
| Auth.LoginFindsNewUser | main.py:207-210 | after a successful sign-up the new user is the one found by that email, so log-in with the same password gets its id |
| Views.WriteRows | main.py:240-252 | the header row `ID,Phone,Name,Message,Timestamp,Handled`, then one row per lead in order |
| Views.Export | main.py:228-266 | without a session, a redirect; otherwise `leads.csv` with the header and one row per lead of the session user, newest first, and no row from another user's lead |
| Views.Dashboard | main.py:219-226 | without a session, a redirect; otherwise exactly the session user's leads, newest first, and their count |

## Left out

- Flask routing, templates, flash rendering, redirects and `send_file`: only the outcome values are modelled.
- The Supabase client: replaced by an in-memory store whose ids increase with insertion; database failures are modelled only on the webhook's insert (a parameter of `HandlePost`).
- The HTTP call to the provider (URL, headers, JSON body, timeout, network errors, which `send_whatsapp_text` catches itself): a send is an append to the outbox.
- Password hashing: sign-up receives the hash, log-in receives the checking predicate; salting is not modelled.
- Loading `.env`, `config.json` and environment variables: the resolved values are a `Config` parameter.
- `datetime.utcnow()`: the timestamp is a parameter.
- CSV quoting and escaping and UTF-8 encoding: only the rows and their fields are modelled.
- Logging, the session cookie, logout and `app.run`.
- Python's Unicode whitespace and digit tables: kept abstract as `CharClass`.
- JSON values of an unexpected type (null where an object, list or string is read, a top-level list or number): the payload datatypes hold only absent or well-typed keys.
- Bodies that are not JSON (malformed JSON, another content type): Flask rejects them (400 or 415) before the handler runs; `None` in the model is a JSON `null` body.
- LeadStore.FindUser: the `users` query has no `order`, so which of several users with the same email comes first is the database's choice; the model takes insertion order (no difference while emails are unique, which sign-up keeps).
- Form fields: an absent field is modelled as the empty string; log-in with an absent email or password is not distinguished.
- Webhook.VerifyHandshake: a matching request without `hub.challenge` returns an absent body with 200; Flask turns that into a server error, which is not modelled.
