/** The request entry point of dulieuSQL/form_handler.php: the eight POST actions, their
    required-field and e-mail checks, the rows they store and the JSON reply they send.
    `$_POST` and `$_SERVER` are string maps; `FILTER_VALIDATE_EMAIL` is the `isValidEmail`
    parameter; storage exceptions, the clock and `random_bytes` come from an `Environment`. */
module FormHandler {
  import opened Text
  import opened PhpBuiltins
  import opened Store
  import opened FormInput

  /** The JSON reply: `success`, `message` and, for the chatbot only, `bot_response`. */
  datatype Response = Response(success: bool, message: string, botResponse: Option<string>)

  function Failure(message: string): (r: Response)
    ensures !r.success && r.message == message && r.botResponse == None
  {
    Response(false, message, None)
  }

  function Success(message: string): (r: Response)
    ensures r.success && r.message == message && r.botResponse == None
  {
    Response(true, message, None)
  }

  /** What the outside world decides during one request. */
  datatype Environment = Environment(
    now: int,                 // CURRENT_TIMESTAMP
    random: seq<byte>,        // random_bytes(16)
    connectFault: bool,       // new PDO(...) throws
    resolveFault: bool,       // getOrCreateUser's statements throw
    storeFault: bool,         // the action's (first) statement throws
    languageLogFault: bool)   // the language_changes INSERT throws

  // ---------------------------------------------------------------------------
  // Required fields

  const ContactRequired: seq<string> := ["name", "email", "message"]
  const ServiceRequired: seq<string> := ["service_type", "contact_person", "email"]

  function RequiredMessage(field: string): string
  {
    "Field '" + field + "' is required"
  }

  /** The first field, in order, whose `$_POST` entry is `empty()`. */
  function FirstEmpty(post: map<string, string>, fields: seq<string>): (r: Option<string>)
    ensures r.Some? ==> r.value in fields && IsEmptyEntry(post, r.value)
    ensures r.None? ==> forall f :: f in fields ==> !IsEmptyEntry(post, f)
  {
    if fields == [] then None
    else if IsEmptyEntry(post, fields[0]) then Some(fields[0])
    else FirstEmpty(post, fields[1..])
  }

  /** No field is reported exactly when every field is filled in, and the reported field is
      the first empty one. */
  lemma {:induction false} FirstEmptyIsFirst(post: map<string, string>, fields: seq<string>)
    ensures FirstEmpty(post, fields).None? <==> forall f :: f in fields ==> !IsEmptyEntry(post, f)
    ensures FirstEmpty(post, fields).Some? ==>
      exists i :: 0 <= i < |fields| && fields[i] == FirstEmpty(post, fields).value
        && forall j :: 0 <= j < i ==> !IsEmptyEntry(post, fields[j])
  {
    if fields != [] {
      FirstEmptyIsFirst(post, fields[1..]);
      if IsEmptyEntry(post, fields[0]) {
        assert fields[0] == FirstEmpty(post, fields).value;
      } else {
        assert forall f :: f in fields ==> f == fields[0] || f in fields[1..];
        if FirstEmpty(post, fields).Some? {
          var i :| 0 <= i < |fields[1..]| && fields[1..][i] == FirstEmpty(post, fields[1..]).value
            && forall j :: 0 <= j < i ==> !IsEmptyEntry(post, fields[1..][j]);
          assert fields[i + 1] == FirstEmpty(post, fields).value;
          assert forall j :: 1 <= j < i + 1 ==> fields[j] == fields[1..][j - 1];
        }
      }
    }
  }

  /** Every required contact field is filled in. */
  predicate ContactFilled(post: map<string, string>)
  {
    !IsEmptyEntry(post, "name") && !IsEmptyEntry(post, "email") && !IsEmptyEntry(post, "message")
  }

  predicate ServiceFilled(post: map<string, string>)
  {
    !IsEmptyEntry(post, "service_type") && !IsEmptyEntry(post, "contact_person") && !IsEmptyEntry(post, "email")
  }

  /** The check finds no missing field exactly when the form is filled in. */
  lemma RequiredCheckPasses(post: map<string, string>)
    ensures FirstEmpty(post, ContactRequired).None? <==> ContactFilled(post)
    ensures FirstEmpty(post, ServiceRequired).None? <==> ServiceFilled(post)
  {
    FirstEmptyIsFirst(post, ContactRequired);
    FirstEmptyIsFirst(post, ServiceRequired);
    assert "name" in ContactRequired && "email" in ContactRequired && "message" in ContactRequired;
    assert "service_type" in ServiceRequired && "contact_person" in ServiceRequired && "email" in ServiceRequired;
  }

  /** The `foreach ($required as $field)` loop with its early return. */
  method CheckRequired(post: map<string, string>, fields: seq<string>) returns (missing: Option<string>)
    ensures missing == FirstEmpty(post, fields)
  {
    for i := 0 to |fields|
      invariant FirstEmpty(post, fields) == FirstEmpty(post, fields[i..])
    {
      if IsEmptyEntry(post, fields[i]) {
        return Some(fields[i]);
      }
      assert fields[i..][1..] == fields[i + 1..];
    }
    return None;
  }

  // ---------------------------------------------------------------------------
  // The `$data` arrays

  /** `sanitizeInput($_POST[$key] ?? '')`: an optional field, "" when it was not sent. */
  function OptionalField(post: map<string, string>, key: string): (r: string)
    ensures NoRawMarkup(r)
  {
    SanitizeInput(GetOr(post, key, ""))
  }

  /** A field that was not sent is stored as "", not NULL. */
  lemma OptionalFieldMissing(post: map<string, string>, key: string)
    requires key !in post
    ensures OptionalField(post, key) == ""
  {
  }

  /** A name made only of white space is not `empty()`: the required check lets it through,
      and the contact row stores an empty name. */
  lemma WhitespaceNamePassesCheck(sessionId: string, post: map<string, string>)
    requires "name" in post && post["name"] != []
    requires forall k :: 0 <= k < |post["name"]| ==> IsTrimChar(post["name"][k])
    requires !IsEmptyEntry(post, "email") && !IsEmptyEntry(post, "message")
    ensures FirstEmpty(post, ContactRequired).None?
    ensures ContactRow(ContactData(sessionId, post)).name == ""
  {
    WhitespaceSanitizesToEmpty(post["name"]);
    RequiredCheckPasses(post);
  }

  /** The `$data` array of `handleContactForm`; the row it is stored as is `ContactRecord`. */
  function ContactData(sessionId: string, post: map<string, string>): (data: map<string, string>)
    requires "name" in post && "email" in post && "message" in post
    ensures ContactRow.requires(data) && ContactRow(data) == ContactRecord(sessionId, post)
  {
    ContactArray(sessionId, SanitizeInput(post["name"]), FilterSanitizeEmail(post["email"]),
                 OptionalField(post, "company"), OptionalField(post, "phone"),
                 SanitizeInput(post["message"]), OptionalField(post, "page_source"))
  }

  /** The contact row, field by field. */
  function ContactRecord(sessionId: string, post: map<string, string>): ContactSubmission
    requires "name" in post && "email" in post && "message" in post
  {
    ContactSubmission(sessionId, SanitizeInput(post["name"]), FilterSanitizeEmail(post["email"]),
                      Some(OptionalField(post, "company")), Some(OptionalField(post, "phone")),
                      SanitizeInput(post["message"]), Some(OptionalField(post, "page_source")))
  }

  function ContactArray(sessionId: string, name: string, email: string, company: string, phone: string,
                        message: string, pageSource: string): (data: map<string, string>)
    ensures ContactRow.requires(data)
    ensures ContactRow(data) == ContactSubmission(sessionId, name, email, Some(company), Some(phone), message, Some(pageSource))
  {
    map["session_id" := sessionId, "name" := name, "email" := email, "company" := company,
        "phone" := phone, "message" := message, "page_source" := pageSource]
  }

  /** A stored contact row carries no raw markup in its free-text fields, only e-mail
      characters in its address, and "" rather than NULL for omitted optional fields. */
  lemma ContactRowSanitized(sessionId: string, post: map<string, string>)
    requires "name" in post && "email" in post && "message" in post
    ensures var row := ContactRow(ContactData(sessionId, post));
      && row.sessionId == sessionId
      && NoRawMarkup(row.name) && NoRawMarkup(row.message)
      && (forall c :: c in row.email ==> IsEmailChar(c))
      && IsSubsequence(row.email, post["email"])
      && row.company.Some? && NoRawMarkup(row.company.value)
      && row.phone.Some? && NoRawMarkup(row.phone.value)
      && row.pageSource.Some? && NoRawMarkup(row.pageSource.value)
      && ("company" !in post ==> row.company == Some(""))
  {
    FilterSanitizeEmailIsSubsequence(post["email"]);
  }

  /** The stored name and message give back the submitted text, up to surrounding white
      space and backslashes. */
  lemma ContactRowUnescapes(sessionId: string, post: map<string, string>)
    requires "name" in post && "email" in post && "message" in post
    ensures var row := ContactRow(ContactData(sessionId, post));
      && HtmlUnescape(row.name) == StripSlashes(Trim(post["name"]))
      && HtmlUnescape(row.message) == StripSlashes(Trim(post["message"]))
  {
    SanitizeInputUnescapes(post["name"]);
    SanitizeInputUnescapes(post["message"]);
  }

  /** The `$data` array of `handleServiceRequest`; the row it is stored as is `ServiceRecord`. */
  function ServiceData(sessionId: string, post: map<string, string>): (data: map<string, string>)
    requires "service_type" in post && "contact_person" in post && "email" in post
    ensures ServiceRow.requires(data) && ServiceRow(data) == ServiceRecord(sessionId, post)
  {
    ServiceArray(sessionId, SanitizeInput(post["service_type"]), OptionalField(post, "company_name"),
                 SanitizeInput(post["contact_person"]), FilterSanitizeEmail(post["email"]),
                 OptionalField(post, "phone"), OptionalField(post, "company_size"),
                 OptionalField(post, "industry"), OptionalField(post, "specific_needs"),
                 OptionalField(post, "budget_range"), OptionalField(post, "timeline"),
                 OptionalField(post, "page_source"))
  }

  /** The service request row, field by field. */
  function ServiceRecord(sessionId: string, post: map<string, string>): ServiceRequest
    requires "service_type" in post && "contact_person" in post && "email" in post
  {
    ServiceRequest(sessionId, SanitizeInput(post["service_type"]), Some(OptionalField(post, "company_name")),
                   SanitizeInput(post["contact_person"]), FilterSanitizeEmail(post["email"]),
                   Some(OptionalField(post, "phone")), Some(OptionalField(post, "company_size")),
                   Some(OptionalField(post, "industry")), Some(OptionalField(post, "specific_needs")),
                   Some(OptionalField(post, "budget_range")), Some(OptionalField(post, "timeline")),
                   Some(OptionalField(post, "page_source")))
  }

  function ServiceArray(sessionId: string, serviceType: string, companyName: string, contactPerson: string,
                        email: string, phone: string, companySize: string, industry: string,
                        specificNeeds: string, budgetRange: string, timeline: string, pageSource: string)
    : (data: map<string, string>)
    ensures ServiceRow.requires(data)
    ensures ServiceRow(data) == ServiceRequest(sessionId, serviceType, Some(companyName), contactPerson, email,
                                               Some(phone), Some(companySize), Some(industry), Some(specificNeeds),
                                               Some(budgetRange), Some(timeline), Some(pageSource))
  {
    var required := map["session_id" := sessionId, "service_type" := serviceType,
                        "contact_person" := contactPerson, "email" := email];
    required["company_name" := companyName]["phone" := phone]["company_size" := companySize]
      ["industry" := industry]["specific_needs" := specificNeeds]["budget_range" := budgetRange]
      ["timeline" := timeline]["page_source" := pageSource]
  }

  /** A stored service request carries no raw markup in any text field and only e-mail
      characters in its address; every optional field is stored, never NULL. */
  lemma ServiceRowSanitized(sessionId: string, post: map<string, string>)
    requires "service_type" in post && "contact_person" in post && "email" in post
    ensures var row := ServiceRow(ServiceData(sessionId, post));
      && row.sessionId == sessionId
      && NoRawMarkup(row.serviceType) && NoRawMarkup(row.contactPerson)
      && (forall c :: c in row.email ==> IsEmailChar(c))
      && IsSubsequence(row.email, post["email"])
      && row.companyName.Some? && NoRawMarkup(row.companyName.value)
      && row.phone.Some? && NoRawMarkup(row.phone.value)
      && row.companySize.Some? && NoRawMarkup(row.companySize.value)
      && row.industry.Some? && NoRawMarkup(row.industry.value)
      && row.specificNeeds.Some? && NoRawMarkup(row.specificNeeds.value)
      && row.budgetRange.Some? && NoRawMarkup(row.budgetRange.value)
      && row.timeline.Some? && NoRawMarkup(row.timeline.value)
      && row.pageSource.Some? && NoRawMarkup(row.pageSource.value)
  {
    FilterSanitizeEmailIsSubsequence(post["email"]);
  }

  // ---------------------------------------------------------------------------
  // Newsletter subscriptions

  /** `INSERT ... ON DUPLICATE KEY UPDATE status = 'active'`, with the e-mail address as the
      unique key: a new address gets an active row; a known one keeps its row and is
      re-activated. */
  function Subscribe(subs: map<string, NewsletterSubscription>, sessionId: string, email: string, name: string)
    : (r: map<string, NewsletterSubscription>)
    ensures r.Keys == subs.Keys + {email}
  {
    if email in subs then subs[email := subs[email].(status := "active")]
    else subs[email := NewsletterSubscription(sessionId, email, name, "active")]
  }

  /** After subscribing, the address is active; its first subscriber and name are kept; no other
      address changes. */
  lemma SubscribeActivates(subs: map<string, NewsletterSubscription>, sessionId: string, email: string, name: string)
    ensures var r := Subscribe(subs, sessionId, email, name);
      && r[email].status == "active"
      && r[email].email == (if email in subs then subs[email].email else email)
      && r[email].sessionId == (if email in subs then subs[email].sessionId else sessionId)
      && r[email].name == (if email in subs then subs[email].name else name)
      && forall e :: e in subs && e != email ==> r[e] == subs[e]
  {
  }

  /** Subscribing an address again, from any session and under any name, changes nothing more. */
  lemma {:induction false} SubscribeIdempotent(subs: map<string, NewsletterSubscription>, sid1: string, sid2: string,
                                               email: string, name1: string, name2: string)
    ensures Subscribe(Subscribe(subs, sid1, email, name1), sid2, email, name2) == Subscribe(subs, sid1, email, name1)
  {
    var once := Subscribe(subs, sid1, email, name1);
    assert once[email].status == "active";
    assert once[email].(status := "active") == once[email];
  }

  // ---------------------------------------------------------------------------
  // Page visits

  /** `intval($_POST['visit_duration'] ?? 0)` */
  function VisitDuration(post: map<string, string>): (d: int)
    ensures PhpIntMin <= d <= PhpIntMax
  {
    if "visit_duration" in post then IntVal(post["visit_duration"]) else 0
  }

  /** A duration sent as a decimal number (what the tracker sends) is stored as that number;
      a value with no leading number is stored as 0. */
  lemma VisitDurationOfNumber(post: map<string, string>, n: nat)
    requires n <= PhpIntMax
    requires "visit_duration" in post && post["visit_duration"] == NatToDecimal(n)
    ensures VisitDuration(post) == n
  {
    IntValOfDecimal(n, []);
    assert NatToDecimal(n) + [] == NatToDecimal(n);
  }

  // ---------------------------------------------------------------------------
  // The handlers

  /** The reply of `handleContactForm`: the first missing field, then the address check, then
      the save. */
  function ContactResponse(post: map<string, string>, isValidEmail: string -> bool, fault: bool): (r: Response)
    ensures FirstEmpty(post, ContactRequired).Some? ==>
      r == Failure(RequiredMessage(FirstEmpty(post, ContactRequired).value))
    ensures ContactFilled(post) && !isValidEmail(FilterSanitizeEmail(post["email"])) ==>
      r == Failure("Invalid email address")
    ensures ContactFilled(post) && isValidEmail(FilterSanitizeEmail(post["email"])) ==>
      r == if fault then Failure("Failed to save contact form") else Success("Contact form submitted successfully")
    ensures r.success <==> ContactFilled(post) && isValidEmail(FilterSanitizeEmail(post["email"])) && !fault
  {
    RequiredCheckPasses(post);
    match FirstEmpty(post, ContactRequired)
    case Some(field) => Failure(RequiredMessage(field))
    case None =>
      if !isValidEmail(FilterSanitizeEmail(post["email"])) then Failure("Invalid email address")
      else if fault then Failure("Failed to save contact form")
      else Success("Contact form submitted successfully")
  }

  /** `handleContactForm`. */
  method HandleContactForm(db: Database, sessionId: string, post: map<string, string>,
                           isValidEmail: string -> bool, fault: bool) returns (resp: Response)
    modifies db`contactSubmissions
    ensures resp == ContactResponse(post, isValidEmail, fault)
    ensures db.contactSubmissions ==
      if resp.success then old(db.contactSubmissions) + [ContactRecord(sessionId, post)]
      else old(db.contactSubmissions)
    ensures resp.success ==> Loggable(ContactForm, post)
    ensures db.Events() == if resp.success then Logged(old(db.Events()), sessionId, ContactForm, post) else old(db.Events())
  {
    var missing := CheckRequired(post, ContactRequired);
    if missing.Some? {
      return Failure(RequiredMessage(missing.value));
    }
    RequiredCheckPasses(post);
    var data := ContactData(sessionId, post);
    if !isValidEmail(data["email"]) {
      return Failure("Invalid email address");
    }
    var ok := db.SaveContactSubmission(data, fault);
    if ok {
      resp := Success("Contact form submitted successfully");
    } else {
      resp := Failure("Failed to save contact form");
    }
  }

  /** The reply of `handleNewsletterSignup`. The statement runs in exception mode, so a failed
      statement is reported as "Database error"; the "Failed to subscribe" branch cannot be
      reached. */
  function NewsletterResponse(post: map<string, string>, isValidEmail: string -> bool, fault: bool): (r: Response)
    ensures IsEmptyEntry(post, "email") ==> r == Failure("Email is required")
    ensures !IsEmptyEntry(post, "email") && !isValidEmail(FilterSanitizeEmail(post["email"])) ==>
      r == Failure("Invalid email address")
    ensures !IsEmptyEntry(post, "email") && isValidEmail(FilterSanitizeEmail(post["email"])) ==>
      r == if fault then Failure("Database error") else Success("Successfully subscribed to newsletter")
    ensures r.success <==> !IsEmptyEntry(post, "email") && isValidEmail(FilterSanitizeEmail(post["email"])) && !fault
  {
    if IsEmptyEntry(post, "email") then Failure("Email is required")
    else if !isValidEmail(FilterSanitizeEmail(post["email"])) then Failure("Invalid email address")
    else if fault then Failure("Database error")
    else Success("Successfully subscribed to newsletter")
  }

  /** `handleNewsletterSignup`. */
  method HandleNewsletterSignup(db: Database, sessionId: string, post: map<string, string>,
                                isValidEmail: string -> bool, fault: bool) returns (resp: Response)
    modifies db`newsletterSubscriptions
    ensures resp == NewsletterResponse(post, isValidEmail, fault)
    ensures db.newsletterSubscriptions ==
      if resp.success then Subscribe(old(db.newsletterSubscriptions), sessionId, FilterSanitizeEmail(post["email"]), GetOr(post, "name", ""))
      else old(db.newsletterSubscriptions)
    ensures resp.success ==> Loggable(NewsletterSignup, post)
    ensures db.Events() == if resp.success then Logged(old(db.Events()), sessionId, NewsletterSignup, post) else old(db.Events())
  {
    if IsEmptyEntry(post, "email") {
      return Failure("Email is required");
    }
    var email := FilterSanitizeEmail(post["email"]);
    if !isValidEmail(email) {
      return Failure("Invalid email address");
    }
    if fault {
      return Failure("Database error");
    }
    db.newsletterSubscriptions := Subscribe(db.newsletterSubscriptions, sessionId, email, GetOr(post, "name", ""));
    return Success("Successfully subscribed to newsletter");
  }

  /** The reply of `handleServiceRequest`: the first missing field, then the address check, then
      the save. */
  function ServiceResponse(post: map<string, string>, isValidEmail: string -> bool, fault: bool): (r: Response)
    ensures FirstEmpty(post, ServiceRequired).Some? ==>
      r == Failure(RequiredMessage(FirstEmpty(post, ServiceRequired).value))
    ensures ServiceFilled(post) && !isValidEmail(FilterSanitizeEmail(post["email"])) ==>
      r == Failure("Invalid email address")
    ensures ServiceFilled(post) && isValidEmail(FilterSanitizeEmail(post["email"])) ==>
      r == if fault then Failure("Failed to save service request") else Success("Service request submitted successfully")
    ensures r.success <==> ServiceFilled(post) && isValidEmail(FilterSanitizeEmail(post["email"])) && !fault
  {
    RequiredCheckPasses(post);
    match FirstEmpty(post, ServiceRequired)
    case Some(field) => Failure(RequiredMessage(field))
    case None =>
      if !isValidEmail(FilterSanitizeEmail(post["email"])) then Failure("Invalid email address")
      else if fault then Failure("Failed to save service request")
      else Success("Service request submitted successfully")
  }

  /** `handleServiceRequest`. */
  method HandleServiceRequest(db: Database, sessionId: string, post: map<string, string>,
                              isValidEmail: string -> bool, fault: bool) returns (resp: Response)
    modifies db`serviceRequests
    ensures resp == ServiceResponse(post, isValidEmail, fault)
    ensures db.serviceRequests ==
      if resp.success then old(db.serviceRequests) + [ServiceRecord(sessionId, post)]
      else old(db.serviceRequests)
    ensures resp.success ==> Loggable(ServiceRequestAction, post)
    ensures db.Events() == if resp.success then Logged(old(db.Events()), sessionId, ServiceRequestAction, post) else old(db.Events())
  {
    var missing := CheckRequired(post, ServiceRequired);
    if missing.Some? {
      return Failure(RequiredMessage(missing.value));
    }
    RequiredCheckPasses(post);
    var data := ServiceData(sessionId, post);
    if !isValidEmail(data["email"]) {
      return Failure("Invalid email address");
    }
    var ok := db.SaveServiceRequest(data, fault);
    if ok {
      resp := Success("Service request submitted successfully");
    } else {
      resp := Failure("Failed to save service request");
    }
  }

  /** The reply `generateBotResponse` gives to a chatbot message: it reads the message after
      sanitising, so it searches the escaped text. */
  function ChatbotReply(post: map<string, string>): string
    requires "message" in post
  {
    BotReply(Lower(SanitizeInput(post["message"])))
  }

  /** The row `handleChatbotMessage` logs. */
  function ChatbotRow(sessionId: string, post: map<string, string>): ChatbotConversation
    requires "message" in post
  {
    ChatbotConversation(sessionId, SanitizeInput(post["message"]), Some(ChatbotReply(post)), Some(OptionalField(post, "page_context")))
  }

  /** The reply of `handleChatbotMessage`: the bot's answer travels in `bot_response`. */
  function ChatbotResponse(post: map<string, string>, fault: bool): (r: Response)
    ensures IsEmptyEntry(post, "message") ==> r == Failure("Message is required")
    ensures !IsEmptyEntry(post, "message") ==>
      r == if fault then Failure("Failed to log conversation") else Response(true, "Message logged", Some(ChatbotReply(post)))
    ensures r.success <==> !IsEmptyEntry(post, "message") && !fault
  {
    if IsEmptyEntry(post, "message") then Failure("Message is required")
    else if fault then Failure("Failed to log conversation")
    else Response(true, "Message logged", Some(ChatbotReply(post)))
  }

  /** `handleChatbotMessage`. */
  method HandleChatbotMessage(db: Database, sessionId: string, post: map<string, string>, fault: bool)
    returns (resp: Response)
    modifies db`chatbotConversations
    ensures resp == ChatbotResponse(post, fault)
    ensures resp.success ==> resp.botResponse == ChatbotRow(sessionId, post).botResponse
    ensures db.chatbotConversations ==
      if resp.success then old(db.chatbotConversations) + [ChatbotRow(sessionId, post)] else old(db.chatbotConversations)
    ensures resp.success ==> Loggable(ChatbotMessage, post)
    ensures db.Events() == if resp.success then Logged(old(db.Events()), sessionId, ChatbotMessage, post) else old(db.Events())
  {
    if IsEmptyEntry(post, "message") {
      return Failure("Message is required");
    }
    var userMessage := SanitizeInput(post["message"]);
    var pageContext := OptionalField(post, "page_context");
    var botResponse := GenerateBotResponse(userMessage);
    var ok := db.LogChatbotConversation(sessionId, userMessage, Some(botResponse), Some(pageContext), fault);
    if ok {
      resp := Response(true, "Message logged", Some(botResponse));
    } else {
      resp := Failure("Failed to log conversation");
    }
  }

  /** The row `handlePageVisit` logs: nothing is required. */
  function PageVisitRow(sessionId: string, post: map<string, string>): PageVisit
  {
    PageVisit(sessionId, OptionalField(post, "page_url"), Some(OptionalField(post, "page_title")), Some(VisitDuration(post)))
  }

  /** `handlePageVisit`. */
  method HandlePageVisit(db: Database, sessionId: string, post: map<string, string>, fault: bool)
    returns (resp: Response)
    modifies db`pageVisits
    ensures resp == if fault then Failure("Failed to log page visit") else Success("Page visit logged")
    ensures db.pageVisits == if resp.success then old(db.pageVisits) + [PageVisitRow(sessionId, post)] else old(db.pageVisits)
    ensures db.Events() == if resp.success then Logged(old(db.Events()), sessionId, PageVisitAction, post) else old(db.Events())
  {
    var pageUrl := OptionalField(post, "page_url");
    var pageTitle := OptionalField(post, "page_title");
    var visitDuration := VisitDuration(post);
    var ok := db.LogPageVisit(sessionId, pageUrl, Some(pageTitle), Some(visitDuration), fault);
    if ok {
      resp := Success("Page visit logged");
    } else {
      resp := Failure("Failed to log page visit");
    }
  }

  /** The row `handleLanguageChange` logs. */
  function LanguageChangeRow(sessionId: string, post: map<string, string>): LanguageChange
  {
    LanguageChange(sessionId, OptionalField(post, "previous_language"), OptionalField(post, "new_language"),
                   OptionalField(post, "page_url"))
  }

  /** `handleLanguageChange`: the preference update and the log row are two statements. */
  method HandleLanguageChange(db: Database, sessionId: string, post: map<string, string>, updateFault: bool, insertFault: bool)
    returns (resp: Response)
    requires db.Valid()
    modifies db`users, db`languageChanges
    ensures db.Valid()
    ensures resp == if updateFault || insertFault then Failure("Failed to update language preference")
                    else Success("Language preference updated")
    ensures db.users == if updateFault then old(db.users)
                        else SetPreferredLanguage(old(db.users), sessionId, LanguageChangeRow(sessionId, post).newLanguage)
    ensures db.languageChanges ==
      if resp.success then old(db.languageChanges) + [LanguageChangeRow(sessionId, post)] else old(db.languageChanges)
    ensures db.Events() == if resp.success then Logged(old(db.Events()), sessionId, LanguageChangeAction, post) else old(db.Events())
  {
    var previousLang := OptionalField(post, "previous_language");
    var newLang := OptionalField(post, "new_language");
    var pageUrl := OptionalField(post, "page_url");
    var ok := db.UpdateLanguagePreference(sessionId, previousLang, newLang, pageUrl, updateFault, insertFault);
    if ok {
      resp := Success("Language preference updated");
    } else {
      resp := Failure("Failed to update language preference");
    }
  }

  /** The row `handleAIAgentInteraction` logs: the interaction data is stored as sent, unsanitised. */
  function AIAgentInteractionRow(sessionId: string, post: map<string, string>): AIAgentInteraction
  {
    AIAgentInteraction(sessionId, OptionalField(post, "agent_type"), OptionalField(post, "interaction_type"),
                       StoredInteractionData(Lookup(post, "interaction_data")))
  }

  /** `handleAIAgentInteraction`. */
  method HandleAIAgentInteraction(db: Database, sessionId: string, post: map<string, string>, fault: bool)
    returns (resp: Response)
    modifies db`aiAgentInteractions
    ensures resp == if fault then Failure("Failed to log AI interaction") else Success("AI interaction logged")
    ensures db.aiAgentInteractions ==
      if resp.success then old(db.aiAgentInteractions) + [AIAgentInteractionRow(sessionId, post)] else old(db.aiAgentInteractions)
    ensures db.Events() == if resp.success then Logged(old(db.Events()), sessionId, AIAgentInteractionAction, post) else old(db.Events())
  {
    var agentType := OptionalField(post, "agent_type");
    var interactionType := OptionalField(post, "interaction_type");
    var interactionData := Lookup(post, "interaction_data");
    var ok := db.LogAIAgentInteraction(sessionId, agentType, interactionType, interactionData, fault);
    if ok {
      resp := Success("AI interaction logged");
    } else {
      resp := Failure("Failed to log AI interaction");
    }
  }

  /** The row `handleFileDownload` logs: four optional, sanitised fields. */
  function FileDownloadRow(sessionId: string, post: map<string, string>): FileDownload
  {
    FileDownload(sessionId, OptionalField(post, "file_name"), OptionalField(post, "file_type"),
                 OptionalField(post, "file_category"), OptionalField(post, "download_url"))
  }

  /** `handleFileDownload`. */
  method HandleFileDownload(db: Database, sessionId: string, post: map<string, string>, fault: bool)
    returns (resp: Response)
    modifies db`fileDownloads
    ensures resp == if fault then Failure("Failed to log file download") else Success("File download logged")
    ensures db.fileDownloads == if resp.success then old(db.fileDownloads) + [FileDownloadRow(sessionId, post)] else old(db.fileDownloads)
    ensures db.Events() == if resp.success then Logged(old(db.Events()), sessionId, FileDownloadAction, post) else old(db.Events())
  {
    var fileName := OptionalField(post, "file_name");
    var fileType := OptionalField(post, "file_type");
    var fileCategory := OptionalField(post, "file_category");
    var downloadUrl := OptionalField(post, "download_url");
    var ok := db.LogFileDownload(sessionId, fileName, fileType, fileCategory, downloadUrl, fault);
    if ok {
      resp := Success("File download logged");
    } else {
      resp := Failure("Failed to log file download");
    }
  }

  /** Every free-text field the logging actions store is sanitised; only the AI interaction
      data is stored as sent (see `AIInteractionDataKeepsMarkup`). */
  lemma PageVisitRowSanitized(sessionId: string, post: map<string, string>)
    ensures var v := PageVisitRow(sessionId, post);
      && NoRawMarkup(v.pageUrl) && v.pageTitle.Some? && NoRawMarkup(v.pageTitle.value)
      && v.visitDuration.Some? && PhpIntMin <= v.visitDuration.value <= PhpIntMax
      && ("visit_duration" !in post ==> v.visitDuration == Some(0))
  {
  }

  lemma LanguageChangeRowSanitized(sessionId: string, post: map<string, string>)
    ensures var l := LanguageChangeRow(sessionId, post);
      NoRawMarkup(l.previousLanguage) && NoRawMarkup(l.newLanguage) && NoRawMarkup(l.pageUrl)
  {
  }

  lemma AIAgentInteractionRowSanitized(sessionId: string, post: map<string, string>)
    ensures var a := AIAgentInteractionRow(sessionId, post);
      NoRawMarkup(a.agentType) && NoRawMarkup(a.interactionType)
      && a.interactionData == StoredInteractionData(Lookup(post, "interaction_data"))
  {
  }

  lemma FileDownloadRowSanitized(sessionId: string, post: map<string, string>)
    ensures var f := FileDownloadRow(sessionId, post);
      NoRawMarkup(f.fileName) && NoRawMarkup(f.fileType) && NoRawMarkup(f.fileCategory) && NoRawMarkup(f.downloadUrl)
  {
  }

  lemma ChatbotRowSanitized(sessionId: string, post: map<string, string>)
    requires "message" in post
    ensures var c := ChatbotRow(sessionId, post);
      NoRawMarkup(c.userMessage) && c.pageContext.Some? && NoRawMarkup(c.pageContext.value)
      && c.botResponse == Some(ChatbotReply(post))
  {
  }

  /** The AI interaction data is not sanitised: markup sent in it is stored unchanged. */
  lemma AIInteractionDataKeepsMarkup(sessionId: string, post: map<string, string>)
    requires "interaction_data" in post && post["interaction_data"] == "<b>"
    ensures AIAgentInteractionRow(sessionId, post).interactionData == Some(JsonString("<b>"))
    ensures !NoRawMarkup(AIAgentInteractionRow(sessionId, post).interactionData.value.text)
  {
    assert "<b>"[0] == '<';
  }

  // ---------------------------------------------------------------------------
  // Dispatch on `$_POST['action']`

  datatype Action =
    | ContactForm | NewsletterSignup | ServiceRequestAction | ChatbotMessage | PageVisitAction
    | LanguageChangeAction | AIAgentInteractionAction | FileDownloadAction | InvalidAction

  /** The `action` value each handler answers to. */
  function ActionName(a: Action): string
  {
    match a
    case ContactForm => "contact_form"
    case NewsletterSignup => "newsletter_signup"
    case ServiceRequestAction => "service_request"
    case ChatbotMessage => "chatbot_message"
    case PageVisitAction => "page_visit"
    case LanguageChangeAction => "language_change"
    case AIAgentInteractionAction => "ai_agent_interaction"
    case FileDownloadAction => "file_download"
    case InvalidAction => ""
  }

  /** The `switch ($_POST['action'] ?? '')`. */
  function ActionOf(post: map<string, string>): Action
  {
    var name := GetOr(post, "action", "");
    if name == "contact_form" then ContactForm
    else if name == "newsletter_signup" then NewsletterSignup
    else if name == "service_request" then ServiceRequestAction
    else if name == "chatbot_message" then ChatbotMessage
    else if name == "page_visit" then PageVisitAction
    else if name == "language_change" then LanguageChangeAction
    else if name == "ai_agent_interaction" then AIAgentInteractionAction
    else if name == "file_download" then FileDownloadAction
    else InvalidAction
  }

  /** Each handler is reached by exactly its own name, and a request without an action is invalid. */
  lemma ActionOfName(a: Action, post: map<string, string>)
    requires a != InvalidAction && "action" in post && post["action"] == ActionName(a)
    ensures ActionOf(post) == a
  {
  }

  lemma ActionOfIsName(post: map<string, string>)
    ensures ActionOf(post) != InvalidAction ==> GetOr(post, "action", "") == ActionName(ActionOf(post))
    ensures "action" !in post ==> ActionOf(post) == InvalidAction
  {
  }

  /** The action's handler stores its row: its input checks pass and no statement fails. An
      unknown action never does. */
  predicate Succeeds(action: Action, post: map<string, string>, isValidEmail: string -> bool,
                     storeFault: bool, languageLogFault: bool)
  {
    match action
    case ContactForm => ContactFilled(post) && isValidEmail(FilterSanitizeEmail(post["email"])) && !storeFault
    case NewsletterSignup => !IsEmptyEntry(post, "email") && isValidEmail(FilterSanitizeEmail(post["email"])) && !storeFault
    case ServiceRequestAction => ServiceFilled(post) && isValidEmail(FilterSanitizeEmail(post["email"])) && !storeFault
    case ChatbotMessage => !IsEmptyEntry(post, "message") && !storeFault
    case LanguageChangeAction => !storeFault && !languageLogFault
    case PageVisitAction => !storeFault
    case AIAgentInteractionAction => !storeFault
    case FileDownloadAction => !storeFault
    case InvalidAction => false
  }

  /** The reply of the `switch`: the reply of the action's handler, or "Invalid action". */
  function ActionResponse(action: Action, post: map<string, string>, isValidEmail: string -> bool,
                          storeFault: bool, languageLogFault: bool): Response
  {
    match action
    case ContactForm => ContactResponse(post, isValidEmail, storeFault)
    case NewsletterSignup => NewsletterResponse(post, isValidEmail, storeFault)
    case ServiceRequestAction => ServiceResponse(post, isValidEmail, storeFault)
    case ChatbotMessage => ChatbotResponse(post, storeFault)
    case PageVisitAction =>
      if storeFault then Failure("Failed to log page visit") else Success("Page visit logged")
    case LanguageChangeAction =>
      if storeFault || languageLogFault then Failure("Failed to update language preference")
      else Success("Language preference updated")
    case AIAgentInteractionAction =>
      if storeFault then Failure("Failed to log AI interaction") else Success("AI interaction logged")
    case FileDownloadAction =>
      if storeFault then Failure("Failed to log file download") else Success("File download logged")
    case InvalidAction => Failure("Invalid action")
  }

  /** The reply reports success exactly when the handler's checks pass and its statements run;
      only the chatbot reply carries a bot answer. */
  lemma ActionResponseSucceeds(action: Action, post: map<string, string>, isValidEmail: string -> bool,
                               storeFault: bool, languageLogFault: bool)
    ensures var r := ActionResponse(action, post, isValidEmail, storeFault, languageLogFault);
      && (r.success <==> Succeeds(action, post, isValidEmail, storeFault, languageLogFault))
      && (action == InvalidAction ==> r == Failure("Invalid action"))
      && (r.botResponse.Some? ==>
            action == ChatbotMessage && !IsEmptyEntry(post, "message") && r.botResponse == Some(ChatbotReply(post)))
  {
  }

  /** The fields the action's stored row reads are present. */
  predicate Loggable(action: Action, post: map<string, string>)
  {
    match action
    case ContactForm => "name" in post && "email" in post && "message" in post
    case NewsletterSignup => "email" in post
    case ServiceRequestAction => "service_type" in post && "contact_person" in post && "email" in post
    case ChatbotMessage => "message" in post
    case _ => true
  }

  /** The event tables with the action's row stored. */
  function Logged(t: EventTables, sessionId: string, action: Action, post: map<string, string>): EventTables
    requires Loggable(action, post)
  {
    match action
    case ContactForm =>
      t.(contactSubmissions := t.contactSubmissions + [ContactRecord(sessionId, post)])
    case NewsletterSignup =>
      t.(newsletterSubscriptions :=
           Subscribe(t.newsletterSubscriptions, sessionId, FilterSanitizeEmail(post["email"]), GetOr(post, "name", "")))
    case ServiceRequestAction =>
      t.(serviceRequests := t.serviceRequests + [ServiceRecord(sessionId, post)])
    case ChatbotMessage =>
      t.(chatbotConversations := t.chatbotConversations + [ChatbotRow(sessionId, post)])
    case PageVisitAction => t.(pageVisits := t.pageVisits + [PageVisitRow(sessionId, post)])
    case LanguageChangeAction => t.(languageChanges := t.languageChanges + [LanguageChangeRow(sessionId, post)])
    case AIAgentInteractionAction =>
      t.(aiAgentInteractions := t.aiAgentInteractions + [AIAgentInteractionRow(sessionId, post)])
    case FileDownloadAction => t.(fileDownloads := t.fileDownloads + [FileDownloadRow(sessionId, post)])
    case InvalidAction => t
  }

  /** The event tables after the action: its handler's row is added when its reply reports
      success, and nothing is stored otherwise. */
  function ActionEvents(t: EventTables, sessionId: string, action: Action, post: map<string, string>,
                        isValidEmail: string -> bool, storeFault: bool, languageLogFault: bool): EventTables
  {
    if ActionResponse(action, post, isValidEmail, storeFault, languageLogFault).success then
      ActionResponseSucceeds(action, post, isValidEmail, storeFault, languageLogFault);
      Logged(t, sessionId, action, post)
    else t
  }

  /** The total number of logged events. */
  function LogSize(t: EventTables): nat
  {
    |t.pageVisits| + |t.contactSubmissions| + |t.serviceRequests| + |t.chatbotConversations|
    + |t.aiAgentInteractions| + |t.fileDownloads| + |t.languageChanges|
  }

  /** A successful action logs exactly one event, except the newsletter signup, which adds or
      re-activates one subscription; a failed one stores nothing. */
  lemma ActionEventsLogsOne(t: EventTables, sessionId: string, action: Action, post: map<string, string>,
                            isValidEmail: string -> bool, storeFault: bool, languageLogFault: bool)
    ensures var r := ActionEvents(t, sessionId, action, post, isValidEmail, storeFault, languageLogFault);
      && (Succeeds(action, post, isValidEmail, storeFault, languageLogFault) && action != NewsletterSignup ==>
            LogSize(r) == LogSize(t) + 1 && r.newsletterSubscriptions == t.newsletterSubscriptions)
      && (Succeeds(action, post, isValidEmail, storeFault, languageLogFault) && action == NewsletterSignup ==>
            LogSize(r) == LogSize(t)
            && r.newsletterSubscriptions.Keys == t.newsletterSubscriptions.Keys + {FilterSanitizeEmail(post["email"])})
      && (!Succeeds(action, post, isValidEmail, storeFault, languageLogFault) ==> r == t)
  {
    ActionResponseSucceeds(action, post, isValidEmail, storeFault, languageLogFault);
    if Succeeds(action, post, isValidEmail, storeFault, languageLogFault) {
      LoggedLogsOne(t, sessionId, action, post);
    }
  }

  lemma LoggedLogsOne(t: EventTables, sessionId: string, action: Action, post: map<string, string>)
    requires Loggable(action, post) && action != InvalidAction
    ensures var r := Logged(t, sessionId, action, post);
      && (action != NewsletterSignup ==> LogSize(r) == LogSize(t) + 1 && r.newsletterSubscriptions == t.newsletterSubscriptions)
      && (action == NewsletterSignup ==>
            LogSize(r) == LogSize(t)
            && r.newsletterSubscriptions.Keys == t.newsletterSubscriptions.Keys + {FilterSanitizeEmail(post["email"])})
  {
  }

  /** Each action writes its own table only. */
  lemma ActionEventsOwnTable(t: EventTables, sessionId: string, action: Action, post: map<string, string>,
                             isValidEmail: string -> bool, storeFault: bool, languageLogFault: bool)
    ensures OnlyOwnTable(t, ActionEvents(t, sessionId, action, post, isValidEmail, storeFault, languageLogFault), action)
  {
    if ActionResponse(action, post, isValidEmail, storeFault, languageLogFault).success {
      ActionResponseSucceeds(action, post, isValidEmail, storeFault, languageLogFault);
      LoggedOwnTable(t, sessionId, action, post);
    }
  }

  /** Every table other than the action's own is the same in `t` and `r`. */
  predicate OnlyOwnTable(t: EventTables, r: EventTables, action: Action)
  {
    && (action != ContactForm ==> r.contactSubmissions == t.contactSubmissions)
    && (action != NewsletterSignup ==> r.newsletterSubscriptions == t.newsletterSubscriptions)
    && (action != ServiceRequestAction ==> r.serviceRequests == t.serviceRequests)
    && (action != ChatbotMessage ==> r.chatbotConversations == t.chatbotConversations)
    && (action != PageVisitAction ==> r.pageVisits == t.pageVisits)
    && (action != LanguageChangeAction ==> r.languageChanges == t.languageChanges)
    && (action != AIAgentInteractionAction ==> r.aiAgentInteractions == t.aiAgentInteractions)
    && (action != FileDownloadAction ==> r.fileDownloads == t.fileDownloads)
  }

  lemma LoggedOwnTable(t: EventTables, sessionId: string, action: Action, post: map<string, string>)
    requires Loggable(action, post)
    ensures OnlyOwnTable(t, Logged(t, sessionId, action, post), action)
  {
  }

  /** The users table after the action: only a language change whose UPDATE runs touches it,
      even when the INSERT after it fails. */
  function ActionUsers(users: map<string, User>, sessionId: string, action: Action, post: map<string, string>,
                       storeFault: bool): (r: map<string, User>)
    ensures UsersKeyed(users) ==> UsersKeyed(r)
    ensures r.Keys == users.Keys
    ensures action != LanguageChangeAction || storeFault ==> r == users
    ensures action == LanguageChangeAction && !storeFault && sessionId in users ==>
      r[sessionId] == users[sessionId].(preferredLanguage := Some(LanguageChangeRow(sessionId, post).newLanguage))
    ensures forall k :: k in users && k != sessionId ==> r[k] == users[k]
  {
    if action == LanguageChangeAction && !storeFault then
      SetPreferredLanguageFrame(users, sessionId, LanguageChangeRow(sessionId, post).newLanguage);
      SetPreferredLanguage(users, sessionId, LanguageChangeRow(sessionId, post).newLanguage)
    else users
  }

  /** The `switch` on the action. */
  method RunAction(db: Database, sessionId: string, action: Action, post: map<string, string>,
                   isValidEmail: string -> bool, env: Environment) returns (resp: Response)
    requires db.Valid()
    modifies db
    ensures db.Valid()
    ensures resp == ActionResponse(action, post, isValidEmail, env.storeFault, env.languageLogFault)
    ensures db.Events() == ActionEvents(old(db.Events()), sessionId, action, post, isValidEmail, env.storeFault, env.languageLogFault)
    ensures db.users == ActionUsers(old(db.users), sessionId, action, post, env.storeFault)
  {
    if action.ContactForm? || action.NewsletterSignup? || action.ServiceRequestAction? {
      resp := RunFormAction(db, sessionId, action, post, isValidEmail, env);
    } else if action.InvalidAction? {
      resp := Failure("Invalid action");
    } else if action.PageVisitAction? || action.LanguageChangeAction? {
      resp := RunVisitAction(db, sessionId, action, post, isValidEmail, env);
    } else {
      resp := RunInteractionAction(db, sessionId, action, post, isValidEmail, env);
    }
  }

  /** The three forms that validate their input. */
  method RunFormAction(db: Database, sessionId: string, action: Action, post: map<string, string>,
                       isValidEmail: string -> bool, env: Environment) returns (resp: Response)
    requires action.ContactForm? || action.NewsletterSignup? || action.ServiceRequestAction?
    modifies db`contactSubmissions, db`newsletterSubscriptions, db`serviceRequests
    ensures unchanged(db`users)
    ensures resp == ActionResponse(action, post, isValidEmail, env.storeFault, env.languageLogFault)
    ensures db.Events() == ActionEvents(old(db.Events()), sessionId, action, post, isValidEmail, env.storeFault, env.languageLogFault)
  {
    if action == ContactForm {
      resp := HandleContactForm(db, sessionId, post, isValidEmail, env.storeFault);
    } else if action == NewsletterSignup {
      resp := HandleNewsletterSignup(db, sessionId, post, isValidEmail, env.storeFault);
    } else {
      resp := HandleServiceRequest(db, sessionId, post, isValidEmail, env.storeFault);
    }
  }

  /** The visit-tracking actions: a page visit and a language change. */
  method RunVisitAction(db: Database, sessionId: string, action: Action, post: map<string, string>,
                        isValidEmail: string -> bool, env: Environment) returns (resp: Response)
    requires db.Valid()
    requires action.PageVisitAction? || action.LanguageChangeAction?
    modifies db`users, db`languageChanges, db`pageVisits
    ensures db.Valid()
    ensures resp == ActionResponse(action, post, isValidEmail, env.storeFault, env.languageLogFault)
    ensures db.Events() == ActionEvents(old(db.Events()), sessionId, action, post, isValidEmail, env.storeFault, env.languageLogFault)
    ensures db.users == ActionUsers(old(db.users), sessionId, action, post, env.storeFault)
  {
    if action.LanguageChangeAction? {
      resp := HandleLanguageChange(db, sessionId, post, env.storeFault, env.languageLogFault);
    } else {
      resp := HandlePageVisit(db, sessionId, post, env.storeFault);
    }
  }

  /** The interaction logs: chatbot messages, AI agent interactions and file downloads. */
  method RunInteractionAction(db: Database, sessionId: string, action: Action, post: map<string, string>,
                              isValidEmail: string -> bool, env: Environment) returns (resp: Response)
    requires action.ChatbotMessage? || action.AIAgentInteractionAction? || action.FileDownloadAction?
    modifies db`chatbotConversations, db`aiAgentInteractions, db`fileDownloads
    ensures unchanged(db`users)
    ensures resp == ActionResponse(action, post, isValidEmail, env.storeFault, env.languageLogFault)
    ensures db.Events() == ActionEvents(old(db.Events()), sessionId, action, post, isValidEmail, env.storeFault, env.languageLogFault)
  {
    if action == ChatbotMessage {
      resp := HandleChatbotMessage(db, sessionId, post, env.storeFault);
    } else if action == AIAgentInteractionAction {
      resp := HandleAIAgentInteraction(db, sessionId, post, env.storeFault);
    } else {
      resp := HandleFileDownload(db, sessionId, post, env.storeFault);
    }
  }

  /** The body of the `if ($_SERVER['REQUEST_METHOD'] === 'POST')` block and its default reply. */
  method Dispatch(db: Database, sessionId: string, isPost: bool, post: map<string, string>,
                  isValidEmail: string -> bool, env: Environment) returns (resp: Response)
    requires db.Valid()
    modifies db
    ensures db.Valid()
    ensures !isPost ==> resp == Response(false, "", None) && unchanged(db)
    ensures isPost ==> resp == ActionResponse(ActionOf(post), post, isValidEmail, env.storeFault, env.languageLogFault)
    ensures isPost ==>
      db.Events() == ActionEvents(old(db.Events()), sessionId, ActionOf(post), post, isValidEmail, env.storeFault, env.languageLogFault)
    ensures isPost ==> db.users == ActionUsers(old(db.users), sessionId, ActionOf(post), post, env.storeFault)
  {
    if !isPost {
      return Response(false, "", None);
    }
    resp := RunAction(db, sessionId, ActionOf(post), post, isValidEmail, env);
  }

  // ---------------------------------------------------------------------------
  // One request

  function RequestMethod(server: map<string, string>): Option<string>
  {
    Lookup(server, "REQUEST_METHOD")
  }

  /** The users table after `getOrCreateUser`: unchanged when its statements throw. */
  function Resolved(users: map<string, User>, sessionId: string, server: map<string, string>, env: Environment)
    : (r: map<string, User>)
    ensures UsersKeyed(users) ==> UsersKeyed(r)
  {
    if env.resolveFault then users
    else ResolveUser(users, sessionId, Some(ClientIP(server)), Some(GetOr(server, "HTTP_USER_AGENT", "")), env.now)
  }

  /** The whole script for one request. `None` is the empty body of the OPTIONS preflight.
      A connection failure is the only exception that reaches the outer `catch`. The visitor is
      resolved before the action runs, and a failed lookup does not stop the action: the reply
      and the stored event do not depend on `env.resolveFault`. */
  method HandleRequest(db: Database, session: PhpSession, server: map<string, string>, post: map<string, string>,
                       isValidEmail: string -> bool, env: Environment) returns (resp: Option<Response>)
    requires db.Valid() && |env.random| == 16
    modifies db, session
    ensures db.Valid()
    ensures RequestMethod(server) == Some("OPTIONS") ==>
      resp == None && unchanged(db) && unchanged(session)
    ensures RequestMethod(server) != Some("OPTIONS") && env.connectFault ==>
      resp == Some(Failure("Server error occurred")) && unchanged(db) && unchanged(session)
    ensures RequestMethod(server) != Some("OPTIONS") && !env.connectFault ==>
      session.data == WithSessionId(old(session.data), env.random)
    ensures RequestMethod(server) != Some("OPTIONS") && !env.connectFault && RequestMethod(server) != Some("POST") ==>
      && resp == Some(Response(false, "", None))
      && db.users == Resolved(old(db.users), session.data[SessionKey], server, env)
      && db.Events() == old(db.Events())
    ensures RequestMethod(server) == Some("POST") && !env.connectFault ==>
      && resp == Some(ActionResponse(ActionOf(post), post, isValidEmail, env.storeFault, env.languageLogFault))
      && db.users == ActionUsers(Resolved(old(db.users), session.data[SessionKey], server, env),
                                 session.data[SessionKey], ActionOf(post), post, env.storeFault)
      && db.Events() == ActionEvents(old(db.Events()), session.data[SessionKey], ActionOf(post), post,
                                     isValidEmail, env.storeFault, env.languageLogFault)
  {
    if RequestMethod(server) == Some("OPTIONS") {
      return None;
    }
    if env.connectFault {
      return Some(Failure("Server error occurred"));
    }
    var sessionId := GetSessionId(session, env.random);
    var clientIP := GetClientIP(server);
    var userAgent := GetOr(server, "HTTP_USER_AGENT", "");
    var _ := db.GetOrCreateUser(sessionId, Some(clientIP), Some(userAgent), env.now, env.resolveFault);
    var r := Dispatch(db, sessionId, RequestMethod(server) == Some("POST"), post, isValidEmail, env);
    return Some(r);
  }
}
