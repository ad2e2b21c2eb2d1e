/** The visitor and event store of `DatabaseConnection` (dulieuSQL/db_connection.php), as an
    in-memory database: a `users` table keyed by session id and one append-only sequence per
    event table. A storage exception (PDOException) is a `fault` flag the caller supplies;
    the clock is the `now` parameter. */
module Store {
  import opened Text
  import opened PhpBuiltins

  // ---------------------------------------------------------------------------
  // Rows

  /** A row of `users`. `None` stands for SQL NULL. */
  datatype User = User(
    sessionId: string,
    ipAddress: Option<string>,
    userAgent: Option<string>,
    firstVisit: int,
    lastVisit: int,
    totalVisits: nat,
    preferredLanguage: Option<string>)

  datatype PageVisit = PageVisit(sessionId: string, pageUrl: string, pageTitle: Option<string>, visitDuration: Option<int>)

  datatype ContactSubmission = ContactSubmission(
    sessionId: string, name: string, email: string, company: Option<string>,
    phone: Option<string>, message: string, pageSource: Option<string>)

  datatype ServiceRequest = ServiceRequest(
    sessionId: string, serviceType: string, companyName: Option<string>, contactPerson: string,
    email: string, phone: Option<string>, companySize: Option<string>, industry: Option<string>,
    specificNeeds: Option<string>, budgetRange: Option<string>, timeline: Option<string>,
    pageSource: Option<string>)

  datatype ChatbotConversation = ChatbotConversation(
    sessionId: string, userMessage: string, botResponse: Option<string>, pageContext: Option<string>)

  /** `json_encode($v)` of a string value, kept symbolic: the text that was encoded. */
  datatype Json = JsonString(text: string)

  datatype AIAgentInteraction = AIAgentInteraction(
    sessionId: string, agentType: string, interactionType: string, interactionData: Option<Json>)

  datatype FileDownload = FileDownload(
    sessionId: string, fileName: string, fileType: string, fileCategory: string, downloadUrl: string)

  datatype LanguageChange = LanguageChange(
    sessionId: string, previousLanguage: string, newLanguage: string, pageUrl: string)

  datatype NewsletterSubscription = NewsletterSubscription(sessionId: string, email: string, name: string, status: string)

  /** Every event table at once, for "nothing else changed" statements. */
  datatype EventTables = EventTables(
    pageVisits: seq<PageVisit>,
    contactSubmissions: seq<ContactSubmission>,
    serviceRequests: seq<ServiceRequest>,
    chatbotConversations: seq<ChatbotConversation>,
    aiAgentInteractions: seq<AIAgentInteraction>,
    fileDownloads: seq<FileDownload>,
    languageChanges: seq<LanguageChange>,
    newsletterSubscriptions: map<string, NewsletterSubscription>)

  // ---------------------------------------------------------------------------
  // The users table as a value

  /** Each row is stored under its own session id and has been visited at least once. */
  ghost predicate UsersKeyed(users: map<string, User>)
  {
    forall sid :: sid in users ==> users[sid].sessionId == sid && users[sid].totalVisits >= 1
  }

  /** The row `getOrCreateUser` inserts for an unseen session id. */
  function NewUser(sid: string, ip: Option<string>, agent: Option<string>, now: int): User
  {
    User(sid, ip, agent, now, now, 1, None)
  }

  /** The users table after `getOrCreateUser`: a known session id gets `last_visit = now` and
      one more visit; an unseen one gets a new row. */
  function ResolveUser(users: map<string, User>, sid: string, ip: Option<string>, agent: Option<string>, now: int)
    : (r: map<string, User>)
    ensures UsersKeyed(users) ==> UsersKeyed(r)
  {
    if sid in users then users[sid := users[sid].(lastVisit := now, totalVisits := users[sid].totalVisits + 1)]
    else users[sid := NewUser(sid, ip, agent, now)]
  }

  /** An unseen session id gets exactly one new row, with one visit; no other row changes. */
  lemma ResolveUnseenInsertsOne(users: map<string, User>, sid: string, ip: Option<string>, agent: Option<string>, now: int)
    requires sid !in users
    ensures var r := ResolveUser(users, sid, ip, agent, now);
      && r.Keys == users.Keys + {sid}
      && |r| == |users| + 1
      && r[sid].totalVisits == 1 && r[sid].firstVisit == now
      && r[sid].ipAddress == ip && r[sid].userAgent == agent
      && forall k :: k in users ==> r[k] == users[k]
  {
  }

  /** A known session id adds no row: its visit count goes up by exactly one, `last_visit` is
      refreshed and the rest of the row, like every other row, stays as it was. */
  lemma ResolveKnownIncrements(users: map<string, User>, sid: string, ip: Option<string>, agent: Option<string>, now: int)
    requires sid in users
    ensures var r := ResolveUser(users, sid, ip, agent, now);
      && r.Keys == users.Keys
      && |r| == |users|
      && r[sid].totalVisits == users[sid].totalVisits + 1
      && r[sid].lastVisit == now
      && r[sid].firstVisit == users[sid].firstVisit
      && r[sid].ipAddress == users[sid].ipAddress
      && r[sid].userAgent == users[sid].userAgent
      && r[sid].preferredLanguage == users[sid].preferredLanguage
      && forall k :: k in users && k != sid ==> r[k] == users[k]
  {
  }

  /** The users table after one resolution per timestamp in `times`, in order. */
  function ResolveMany(users: map<string, User>, sid: string, ip: Option<string>, agent: Option<string>, times: seq<int>)
    : map<string, User>
    decreases |times|
  {
    if times == [] then users
    else ResolveMany(ResolveUser(users, sid, ip, agent, times[0]), sid, ip, agent, times[1..])
  }

  /** Resolving the same session id n times counts n visits and never adds a second row. */
  lemma {:induction false} ResolveManyCounts(users: map<string, User>, sid: string, ip: Option<string>, agent: Option<string>, times: seq<int>)
    requires times != []
    ensures var r := ResolveMany(users, sid, ip, agent, times);
      && r.Keys == users.Keys + {sid}
      && r[sid].totalVisits == (if sid in users then users[sid].totalVisits else 0) + |times|
      && r[sid].lastVisit == times[|times| - 1]
      && forall k :: k in users && k != sid ==> r[k] == users[k]
    decreases |times|
  {
    var u1 := ResolveUser(users, sid, ip, agent, times[0]);
    if sid in users {
      ResolveKnownIncrements(users, sid, ip, agent, times[0]);
    } else {
      ResolveUnseenInsertsOne(users, sid, ip, agent, times[0]);
    }
    assert ResolveMany(users, sid, ip, agent, times) == ResolveMany(u1, sid, ip, agent, times[1..]);
    if |times| > 1 {
      ResolveManyCounts(u1, sid, ip, agent, times[1..]);
      assert times[1..][|times[1..]| - 1] == times[|times| - 1];
    } else {
      assert ResolveMany(u1, sid, ip, agent, times[1..]) == u1;
    }
  }

  /** `UPDATE users SET preferred_language = ? WHERE session_id = ?`: changes nothing when there is no such row. */
  function SetPreferredLanguage(users: map<string, User>, sid: string, lang: string): (r: map<string, User>)
    ensures UsersKeyed(users) ==> UsersKeyed(r)
  {
    if sid in users then users[sid := users[sid].(preferredLanguage := Some(lang))] else users
  }

  /** The language update touches one field of one row and never adds or removes a row. */
  lemma SetPreferredLanguageFrame(users: map<string, User>, sid: string, lang: string)
    ensures var r := SetPreferredLanguage(users, sid, lang);
      && r.Keys == users.Keys
      && (sid in users ==> r[sid] == users[sid].(preferredLanguage := Some(lang)))
      && forall k :: k in users && k != sid ==> r[k] == users[k]
  {
  }

  /** `$interactionData ? json_encode($interactionData) : null` */
  function StoredInteractionData(d: Option<string>): (r: Option<Json>)
    ensures r.None? <==> !Truthy(d)
    ensures r.Some? ==> r.value.text == d.value
  {
    if Truthy(d) then Some(JsonString(d.value)) else None
  }

  // ---------------------------------------------------------------------------
  // Rows built from the `$data` arrays the save methods receive

  function ContactRow(data: map<string, string>): ContactSubmission
    requires "session_id" in data && "name" in data && "email" in data && "message" in data
  {
    ContactSubmission(data["session_id"], data["name"], data["email"], Lookup(data, "company"),
                      Lookup(data, "phone"), data["message"], Lookup(data, "page_source"))
  }

  function ServiceRow(data: map<string, string>): ServiceRequest
    requires "session_id" in data && "service_type" in data && "contact_person" in data && "email" in data
  {
    ServiceRequest(data["session_id"], data["service_type"], Lookup(data, "company_name"),
                   data["contact_person"], data["email"], Lookup(data, "phone"),
                   Lookup(data, "company_size"), Lookup(data, "industry"), Lookup(data, "specific_needs"),
                   Lookup(data, "budget_range"), Lookup(data, "timeline"), Lookup(data, "page_source"))
  }

  /** Optional keys missing from `$data` are stored as NULL, present ones as given. */
  lemma ContactRowOptionalFields(data: map<string, string>)
    requires "session_id" in data && "name" in data && "email" in data && "message" in data
    ensures var row := ContactRow(data);
      && (row.company.None? <==> "company" !in data)
      && (row.phone.None? <==> "phone" !in data)
      && (row.pageSource.None? <==> "page_source" !in data)
      && row.name == data["name"] && row.email == data["email"] && row.message == data["message"]
  {
  }

  // ---------------------------------------------------------------------------
  // Analytics queries (the views behind them are not modelled, only the LIMIT)

  const DefaultUserAnalyticsLimit: nat := 100
  const DefaultPopularPagesLimit: nat := 20

  /** `SELECT * FROM <view> ... LIMIT ?` over the view's rows in the view's order; `[]` on a storage exception. */
  function SelectWithLimit<R>(view: seq<R>, limit: nat, fault: bool): (rows: seq<R>)
    ensures |rows| <= limit
    ensures !fault ==> |rows| == (if |view| <= limit then |view| else limit) && rows == view[..|rows|]
    ensures fault ==> rows == []
  {
    if fault then [] else if |view| <= limit then view else view[..limit]
  }

  /** A larger limit only adds rows at the end: the first rows never depend on the limit. */
  lemma SelectWithLimitPrefix<R>(view: seq<R>, small: nat, large: nat, fault: bool)
    requires small <= large
    ensures var few := SelectWithLimit(view, small, fault);
      few == SelectWithLimit(view, large, fault)[..|few|]
  {
  }

  /** `SELECT * FROM service_analytics` without a limit: every row, or `[]` on a storage exception. */
  function SelectAll<R>(view: seq<R>, fault: bool): (rows: seq<R>)
    ensures fault ==> rows == []
    ensures !fault ==> rows == view
  {
    SelectWithLimit(view, |view|, fault)
  }

  // ---------------------------------------------------------------------------
  // The database

  class Database {
    var users: map<string, User>
    var pageVisits: seq<PageVisit>
    var contactSubmissions: seq<ContactSubmission>
    var serviceRequests: seq<ServiceRequest>
    var chatbotConversations: seq<ChatbotConversation>
    var aiAgentInteractions: seq<AIAgentInteraction>
    var fileDownloads: seq<FileDownload>
    var languageChanges: seq<LanguageChange>
    var newsletterSubscriptions: map<string, NewsletterSubscription>

    ghost predicate Valid()
      reads this`users
    {
      UsersKeyed(users)
    }

    ghost function Events(): EventTables
      reads this
    {
      EventTables(pageVisits, contactSubmissions, serviceRequests, chatbotConversations,
                  aiAgentInteractions, fileDownloads, languageChanges, newsletterSubscriptions)
    }

    /** The connection opened by `__construct`, over the tables as the database holds them. */
    constructor (users: map<string, User>, events: EventTables)
      requires UsersKeyed(users)
      ensures Valid()
      ensures this.users == users
      ensures Events() == events
    {
      this.users := users;
      pageVisits, contactSubmissions, serviceRequests := events.pageVisits, events.contactSubmissions, events.serviceRequests;
      chatbotConversations, aiAgentInteractions := events.chatbotConversations, events.aiAgentInteractions;
      fileDownloads, languageChanges := events.fileDownloads, events.languageChanges;
      newsletterSubscriptions := events.newsletterSubscriptions;
    }

    /** Get-or-create by session id. Returns the row as it was BEFORE the visit was counted
        (or the new row), and `None` (PHP `false`) on a storage exception. */
    method GetOrCreateUser(sessionId: string, ipAddress: Option<string>, userAgent: Option<string>, now: int, fault: bool)
      returns (user: Option<User>)
      requires Valid()
      modifies this`users
      ensures Valid()
      ensures fault ==> user == None && users == old(users)
      ensures !fault ==> users == ResolveUser(old(users), sessionId, ipAddress, userAgent, now)
      ensures !fault && sessionId in old(users) ==> user == Some(old(users)[sessionId])
      ensures !fault && sessionId !in old(users) ==> user == Some(NewUser(sessionId, ipAddress, userAgent, now))
    {
      if fault {
        return None;
      }
      if sessionId in users {
        var existing := users[sessionId];
        users := users[sessionId := existing.(lastVisit := now, totalVisits := existing.totalVisits + 1)];
        return Some(existing);
      } else {
        var created := NewUser(sessionId, ipAddress, userAgent, now);
        users := users[sessionId := created];
        return Some(created);
      }
    }

    method LogPageVisit(sessionId: string, pageUrl: string, pageTitle: Option<string>, visitDuration: Option<int>, fault: bool)
      returns (ok: bool)
      modifies this`pageVisits
      ensures ok == !fault
      ensures pageVisits == if ok then old(pageVisits) + [PageVisit(sessionId, pageUrl, pageTitle, visitDuration)] else old(pageVisits)
    {
      ok := !fault;
      if ok {
        pageVisits := pageVisits + [PageVisit(sessionId, pageUrl, pageTitle, visitDuration)];
      }
    }

    method SaveContactSubmission(data: map<string, string>, fault: bool) returns (ok: bool)
      requires "session_id" in data && "name" in data && "email" in data && "message" in data
      modifies this`contactSubmissions
      ensures ok == !fault
      ensures contactSubmissions == if ok then old(contactSubmissions) + [ContactRow(data)] else old(contactSubmissions)
    {
      ok := !fault;
      if ok {
        contactSubmissions := contactSubmissions + [ContactRow(data)];
      }
    }

    method SaveServiceRequest(data: map<string, string>, fault: bool) returns (ok: bool)
      requires "session_id" in data && "service_type" in data && "contact_person" in data && "email" in data
      modifies this`serviceRequests
      ensures ok == !fault
      ensures serviceRequests == if ok then old(serviceRequests) + [ServiceRow(data)] else old(serviceRequests)
    {
      ok := !fault;
      if ok {
        serviceRequests := serviceRequests + [ServiceRow(data)];
      }
    }

    method LogChatbotConversation(sessionId: string, userMessage: string, botResponse: Option<string>, pageContext: Option<string>, fault: bool)
      returns (ok: bool)
      modifies this`chatbotConversations
      ensures ok == !fault
      ensures chatbotConversations == if ok then old(chatbotConversations) + [ChatbotConversation(sessionId, userMessage, botResponse, pageContext)]
                                      else old(chatbotConversations)
    {
      ok := !fault;
      if ok {
        chatbotConversations := chatbotConversations + [ChatbotConversation(sessionId, userMessage, botResponse, pageContext)];
      }
    }

    method LogAIAgentInteraction(sessionId: string, agentType: string, interactionType: string, interactionData: Option<string>, fault: bool)
      returns (ok: bool)
      modifies this`aiAgentInteractions
      ensures ok == !fault
      ensures aiAgentInteractions == if ok then old(aiAgentInteractions) + [AIAgentInteraction(sessionId, agentType, interactionType, StoredInteractionData(interactionData))]
                                     else old(aiAgentInteractions)
    {
      ok := !fault;
      if ok {
        aiAgentInteractions := aiAgentInteractions + [AIAgentInteraction(sessionId, agentType, interactionType, StoredInteractionData(interactionData))];
      }
    }

    method LogFileDownload(sessionId: string, fileName: string, fileType: string, fileCategory: string, downloadUrl: string, fault: bool)
      returns (ok: bool)
      modifies this`fileDownloads
      ensures ok == !fault
      ensures fileDownloads == if ok then old(fileDownloads) + [FileDownload(sessionId, fileName, fileType, fileCategory, downloadUrl)] else old(fileDownloads)
    {
      ok := !fault;
      if ok {
        fileDownloads := fileDownloads + [FileDownload(sessionId, fileName, fileType, fileCategory, downloadUrl)];
      }
    }

    /** Two statements without a transaction: an exception in the UPDATE changes nothing; one in
        the INSERT leaves the updated preference in place and logs no row. */
    method UpdateLanguagePreference(sessionId: string, previousLang: string, newLang: string, pageUrl: string,
                                    updateFault: bool, insertFault: bool)
      returns (ok: bool)
      requires Valid()
      modifies this`users, this`languageChanges
      ensures Valid()
      ensures users == if updateFault then old(users) else SetPreferredLanguage(old(users), sessionId, newLang)
      ensures ok == (!updateFault && !insertFault)
      ensures languageChanges == if ok then old(languageChanges) + [LanguageChange(sessionId, previousLang, newLang, pageUrl)]
                                 else old(languageChanges)
    {
      if updateFault {
        return false;
      }
      if sessionId in users {
        users := users[sessionId := users[sessionId].(preferredLanguage := Some(newLang))];
      }
      if insertFault {
        return false;
      }
      languageChanges := languageChanges + [LanguageChange(sessionId, previousLang, newLang, pageUrl)];
      return true;
    }
  }

  // ---------------------------------------------------------------------------
  // getSessionId(): the server-side session id

  const SessionKey := "digitizedbrains_session_id"

  /** `$_SESSION`, the server-side session store. */
  class PhpSession {
    var data: map<string, string>

    constructor (data: map<string, string>)
      ensures this.data == data
    {
      this.data := data;
    }
  }

  /** `$_SESSION` after `getSessionId()`: an id is minted from the random bytes only when none is stored. */
  function WithSessionId(data: map<string, string>, random: seq<byte>): (d: map<string, string>)
    requires |random| == 16
    ensures SessionKey in d
  {
    if SessionKey in data then data else data[SessionKey := Bin2Hex(random)]
  }

  /** A second call finds the id the first call stored and changes nothing, whatever bytes it is given. */
  lemma WithSessionIdStable(data: map<string, string>, r1: seq<byte>, r2: seq<byte>)
    requires |r1| == 16 && |r2| == 16
    ensures WithSessionId(WithSessionId(data, r1), r2) == WithSessionId(data, r1)
  {
  }

  /** `getSessionId()`; `random` stands for `random_bytes(16)`. */
  method GetSessionId(session: PhpSession, random: seq<byte>) returns (id: string)
    requires |random| == 16
    modifies session
    ensures session.data == WithSessionId(old(session.data), random)
    ensures id == session.data[SessionKey]
    ensures SessionKey in old(session.data) ==> id == old(session.data)[SessionKey] && session.data == old(session.data)
    ensures SessionKey !in old(session.data) ==> |id| == 32 && forall c :: c in id ==> IsLowerHexDigit(c)
  {
    if SessionKey !in session.data {
      session.data := session.data[SessionKey := Bin2Hex(random)];
    }
    id := session.data[SessionKey];
  }

  // ---------------------------------------------------------------------------
  // getClientIP()

  const IpHeaderKeys: seq<string> := ["HTTP_X_FORWARDED_FOR", "HTTP_X_REAL_IP", "HTTP_CLIENT_IP", "REMOTE_ADDR"]

  /** The value of the first key, in order, whose entry is not `empty()`. */
  function FirstSetHeader(server: map<string, string>, keys: seq<string>): Option<string>
  {
    if keys == [] then None
    else if !IsEmptyEntry(server, keys[0]) then Some(server[keys[0]])
    else FirstSetHeader(server, keys[1..])
  }

  /** The search finds the first non-empty entry in key order, and finds none only when all are empty. */
  lemma {:induction false} FirstSetHeaderIsFirst(server: map<string, string>, keys: seq<string>)
    ensures FirstSetHeader(server, keys).None? <==> forall i :: 0 <= i < |keys| ==> IsEmptyEntry(server, keys[i])
    ensures FirstSetHeader(server, keys).Some? ==>
      exists i :: 0 <= i < |keys| && !IsEmptyEntry(server, keys[i]) && FirstSetHeader(server, keys).value == server[keys[i]]
        && forall j :: 0 <= j < i ==> IsEmptyEntry(server, keys[j])
  {
    if keys != [] {
      FirstSetHeaderIsFirst(server, keys[1..]);
      if !IsEmptyEntry(server, keys[0]) {
        assert FirstSetHeader(server, keys).value == server[keys[0]];
      } else {
        assert forall i :: 1 <= i < |keys| ==> keys[i] == keys[1..][i - 1];
        if FirstSetHeader(server, keys).Some? {
          var i :| 0 <= i < |keys[1..]| && !IsEmptyEntry(server, keys[1..][i])
            && FirstSetHeader(server, keys[1..]).value == server[keys[1..][i]]
            && forall j :: 0 <= j < i ==> IsEmptyEntry(server, keys[1..][j]);
          assert !IsEmptyEntry(server, keys[i + 1]);
        }
      }
    }
  }

  /** The client address: the trimmed text before the first comma of the first non-empty header;
      with none, REMOTE_ADDR as it is (possibly "" or "0"), or "unknown". */
  function ClientIP(server: map<string, string>): string
  {
    match FirstSetHeader(server, IpHeaderKeys)
    case Some(v) => Trim(BeforeFirst(v, ','))
    case None => GetOr(server, "REMOTE_ADDR", "unknown")
  }

  /** An address taken from a header is a single entry of the list: it holds no comma. */
  lemma ClientIPFromHeaderHasNoComma(server: map<string, string>)
    requires FirstSetHeader(server, IpHeaderKeys).Some?
    ensures ',' !in ClientIP(server)
  {
    var b := BeforeFirst(FirstSetHeader(server, IpHeaderKeys).value, ',');
    var t := TrimStart(b);
    TrimStartShape(b);
    TrimEndShape(t);
    assert forall c :: c in t ==> c in b;
    assert forall c :: c in TrimEnd(t) ==> c in t;
  }

  method GetClientIP(server: map<string, string>) returns (ip: string)
    ensures ip == ClientIP(server)
  {
    var i := 0;
    while i < |IpHeaderKeys|
      invariant 0 <= i <= |IpHeaderKeys|
      invariant FirstSetHeader(server, IpHeaderKeys) == FirstSetHeader(server, IpHeaderKeys[i..])
    {
      var key := IpHeaderKeys[i];
      if !IsEmptyEntry(server, key) {
        var first := BeforeFirst(server[key], ',');
        return Trim(first);
      }
      assert IpHeaderKeys[i..][1..] == IpHeaderKeys[i + 1..];
      i := i + 1;
    }
    return GetOr(server, "REMOTE_ADDR", "unknown");
  }
}
