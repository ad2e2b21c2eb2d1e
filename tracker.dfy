/** The decision rules of the browser tracker (dulieuSQL/data_tracker.js): the session id kept
    in `localStorage`, the classification of clicked download links, the language watcher that
    reports only real changes, and the feedback shown after a form is sent. The clock
    (`Date.now()`) and `Math.random()` are parameters; DOM events are method calls. */
module Tracker {
  import opened Text
  import opened PhpBuiltins
  import FormHandler

  // ---------------------------------------------------------------------------
  // localStorage and JavaScript values

  const SessionIdKey := "digitizedbrains_session_id"
  const LanguageKey := "preferredLanguage"

  /** `window.localStorage`: `getItem` gives `null` (None) for a missing key. */
  class LocalStorage {
    var items: map<string, string>

    constructor (items: map<string, string>)
      ensures this.items == items
    {
      this.items := items;
    }

    function GetItem(key: string): (v: Option<string>)
      reads this
      ensures v.Some? <==> key in items
      ensures v.Some? ==> v.value == items[key]
    {
      if key in items then Some(items[key]) else None
    }
  }

  /** JavaScript truthiness of a string that may be `null`: `null` and "" are falsy. */
  predicate JsTruthy(v: Option<string>)
  {
    v.Some? && v.value != ""
  }

  /** `v || fallback` for a nullable string. */
  function OrElse(v: Option<string>, fallback: string): (r: string)
    ensures JsTruthy(v) ==> r == v.value
    ensures !JsTruthy(v) ==> r == fallback
  {
    if JsTruthy(v) then v.value else fallback
  }

  /** `FormData.append(key, v)` turns `null` into the text "null". */
  function FormValue(v: Option<string>): string
  {
    match v
    case Some(s) => s
    case None => "null"
  }

  // ---------------------------------------------------------------------------
  // getOrCreateSessionId()

  /** `'db_' + Date.now() + '_' + suffix`, where `suffix` stands for
      `Math.random().toString(36).substr(2, 9)`. */
  function NewSessionId(now: nat, suffix: string): (id: string)
    ensures StartsWith(id, "db_") && id != []
  {
    "db_" + NatToDecimal(now) + "_" + suffix
  }

  /** The id can be read back: the timestamp is the digits between the first two `_`, and the
      random suffix is everything after the second. */
  lemma NewSessionIdParts(now: nat, suffix: string)
    ensures var id := NewSessionId(now, suffix);
      var stamp := BeforeFirst(id[3..], '_');
      && stamp == NatToDecimal(now)
      && DigitsValue(stamp) == now
      && id[3 + |stamp| + 1..] == suffix
  {
    var id := NewSessionId(now, suffix);
    var d := NatToDecimal(now);
    assert id[3..] == d + "_" + suffix;
    BeforeFirstAt(d, suffix);
    DigitsValueOfDecimal(now);
  }

  /** Splitting at the first `_` of digits, `_` and a rest finds the digits. */
  lemma {:induction false} BeforeFirstAt(d: string, rest: string)
    requires forall c :: c in d ==> IsDigit(c)
    ensures BeforeFirst(d + "_" + rest, '_') == d
    decreases |d|
  {
    if d == [] {
      assert (d + "_" + rest)[0] == '_';
    } else {
      assert d[0] in d;
      assert (d + "_" + rest)[1..] == d[1..] + "_" + rest;
      assert forall c :: c in d[1..] ==> c in d;
      BeforeFirstAt(d[1..], rest);
    }
  }

  /** The storage after `getOrCreateSessionId`: an id is written only when the stored one is
      missing or "". */
  function WithTrackerSessionId(items: map<string, string>, now: nat, suffix: string): (r: map<string, string>)
    ensures SessionIdKey in r && r[SessionIdKey] != ""
  {
    if SessionIdKey in items && items[SessionIdKey] != "" then items
    else items[SessionIdKey := NewSessionId(now, suffix)]
  }

  /** A second call, at any time and with any random suffix, keeps the id of the first. */
  lemma WithTrackerSessionIdStable(items: map<string, string>, now1: nat, suffix1: string, now2: nat, suffix2: string)
    ensures var once := WithTrackerSessionId(items, now1, suffix1);
      WithTrackerSessionId(once, now2, suffix2) == once
  {
  }

  /** `getOrCreateSessionId()`. */
  method GetOrCreateSessionId(storage: LocalStorage, now: nat, suffix: string) returns (id: string)
    modifies storage
    ensures storage.items == WithTrackerSessionId(old(storage.items), now, suffix)
    ensures id == storage.items[SessionIdKey]
    ensures JsTruthy(old(storage.GetItem(SessionIdKey))) ==> id == old(storage.items)[SessionIdKey]
    ensures !JsTruthy(old(storage.GetItem(SessionIdKey))) ==> id == NewSessionId(now, suffix)
  {
    var stored := storage.GetItem(SessionIdKey);
    if !JsTruthy(stored) {
      id := NewSessionId(now, suffix);
      storage.items := storage.items[SessionIdKey := id];
    } else {
      id := stored.value;
    }
  }

  /** The `DigitizedBrainsTracker` object: its session id and the page it was created on. */
  class DigitizedBrainsTracker {
    var sessionId: string
    var startTime: nat
    var pageUrl: string
    var pageTitle: string

    constructor (storage: LocalStorage, now: nat, suffix: string, pageUrl: string, pageTitle: string)
      modifies storage
      ensures storage.items == WithTrackerSessionId(old(storage.items), now, suffix)
      ensures sessionId == storage.items[SessionIdKey]
      ensures startTime == now && this.pageUrl == pageUrl && this.pageTitle == pageTitle
    {
      var id := GetOrCreateSessionId(storage, now, suffix);
      sessionId := id;
      startTime := now;
      this.pageUrl := pageUrl;
      this.pageTitle := pageTitle;
    }
  }

  // ---------------------------------------------------------------------------
  // trackFileDownloads(): classifying a clicked link

  /** A clicked `<a>`: its `href` and its `download` attribute, `None` when absent. */
  datatype Link = Link(href: string, download: Option<string>)

  /** The `file_download` event's fields. */
  datatype DownloadEvent = DownloadEvent(fileName: string, fileType: string, fileCategory: string, downloadUrl: string)

  predicate IsDownloadLink(link: Link)
  {
    var isPdf := Contains(link.href, ".pdf");
    var isDoc := Contains(link.href, ".doc") || Contains(link.href, ".docx");
    link.download.Some? || isPdf || isDoc
  }

  /** `link.getAttribute('download') || href.split('/').pop()` */
  function DownloadFileName(link: Link): (name: string)
    ensures JsTruthy(link.download) ==> name == link.download.value
    ensures !JsTruthy(link.download) ==> name == LastSegment(link.href, '/') && '/' !in name
  {
    OrElse(link.download, LastSegment(link.href, '/'))
  }

  /** `fileName.split('.').pop().toLowerCase()` */
  function DownloadFileType(fileName: string): (t: string)
    ensures '.' !in t && |t| <= |fileName|
  {
    Lower(LastSegment(fileName, '.'))
  }

  const CategoryKeywords: seq<string> := ["guide", "whitepaper", "case-study", "template"]
  const CategoryNames: seq<string> := ["guide", "whitepaper", "case_study", "template"]

  /** The category of the first keyword, from position `i` on, that occurs in `href`; else "document". */
  function CategoryFrom(href: string, i: nat): string
    requires i <= |CategoryKeywords|
    decreases |CategoryKeywords| - i
  {
    if i == |CategoryKeywords| then "document"
    else if Contains(href, CategoryKeywords[i]) then CategoryNames[i]
    else CategoryFrom(href, i + 1)
  }

  /** The `let fileCategory = 'document'; if ... else if ...` chain. */
  function DownloadCategory(href: string): string
  {
    CategoryFrom(href, 0)
  }

  /** The first keyword in the chain's order that the URL contains decides; with none, "document". */
  lemma {:induction false} CategoryFromIsFirstMatch(href: string, i: nat)
    requires i <= |CategoryKeywords|
    ensures (forall j :: i <= j < |CategoryKeywords| ==> !Contains(href, CategoryKeywords[j])) ==> CategoryFrom(href, i) == "document"
    ensures forall k :: i <= k < |CategoryKeywords| && Contains(href, CategoryKeywords[k])
                        && (forall j :: i <= j < k ==> !Contains(href, CategoryKeywords[j]))
                        ==> CategoryFrom(href, i) == CategoryNames[k]
    decreases |CategoryKeywords| - i
  {
    if i < |CategoryKeywords| {
      CategoryFromIsFirstMatch(href, i + 1);
    }
  }

  /** The category is one of the five fixed names. */
  lemma DownloadCategoryIsKnown(href: string)
    ensures DownloadCategory(href) in CategoryNames || DownloadCategory(href) == "document"
  {
    CategoryFromIsFirstMatch(href, 0);
  }

  /** The click handler's decision: no event for an ordinary link, otherwise the event it sends. */
  function ClassifyDownload(link: Link): (e: Option<DownloadEvent>)
    ensures e.Some? <==> IsDownloadLink(link)
  {
    if IsDownloadLink(link) then
      var fileName := DownloadFileName(link);
      Some(DownloadEvent(fileName, DownloadFileType(fileName), DownloadCategory(link.href), link.href))
    else None
  }

  /** `.docx` adds nothing: every URL containing ".docx" contains ".doc". */
  lemma DocxIsDoc(href: string)
    ensures Contains(href, ".docx") ==> Contains(href, ".doc")
  {
    ContainsIff(href, ".docx");
    ContainsIff(href, ".doc");
    if Contains(href, ".docx") {
      var i :| OccursAt(href, ".docx", i);
      assert href[i..i + 4] == href[i..i + 5][..4];
      assert OccursAt(href, ".doc", i);
    }
  }

  /** So a link is a download exactly when it has a `download` attribute (even an empty one) or
      its URL contains ".pdf" or ".doc". */
  lemma IsDownloadLinkIff(link: Link)
    ensures IsDownloadLink(link) <==> link.download.Some? || Contains(link.href, ".pdf") || Contains(link.href, ".doc")
  {
    DocxIsDoc(link.href);
  }

  /** The event's URL is the link's, its type has no dot, and its name comes from the attribute
      when that is non-empty and from the URL's last path segment otherwise. */
  lemma ClassifyDownloadFields(link: Link)
    requires IsDownloadLink(link)
    ensures var e := ClassifyDownload(link).value;
      && e.downloadUrl == link.href
      && '.' !in e.fileType
      && (JsTruthy(link.download) ==> e.fileName == link.download.value)
      && (!JsTruthy(link.download) ==> e.fileName == LastSegment(link.href, '/'))
      && ('.' !in e.fileName ==> e.fileType == Lower(e.fileName))
      && (e.fileCategory in CategoryNames || e.fileCategory == "document")
  {
    DownloadCategoryIsKnown(link.href);
    var name := DownloadFileName(link);
    if '.' !in name {
      LastSegmentWhole(name, '.');
    }
  }

  // ---------------------------------------------------------------------------
  // trackLanguageChanges(): report a language only when it changed

  /** A `language_change` event as the tracker sends it. `None` is JavaScript `null`, which a
      storage event can carry. */
  datatype LanguageEvent = LanguageEvent(previous: Option<string>, next: Option<string>, pageUrl: string)

  /** The `previous_language` / `new_language` values as they reach the server. */
  function LanguageEventFields(e: LanguageEvent): (fields: (string, string))
    ensures e.previous.Some? ==> fields.0 == e.previous.value
    ensures e.previous.None? ==> fields.0 == "null"
    ensures e.next.Some? ==> fields.1 == e.next.value
    ensures e.next.None? ==> fields.1 == "null"
  {
    (FormValue(e.previous), FormValue(e.next))
  }

  /** The closure variable `currentLanguage` with the events sent so far. */
  class LanguageWatcher {
    var currentLanguage: Option<string>
    var sent: seq<LanguageEvent>
    var pageUrl: string
    ghost var initialLanguage: Option<string>

    /** The events form a chain of real changes from the initial language to the current one. */
    ghost predicate Valid()
      reads this
    {
      && (forall i :: 0 <= i < |sent| ==> sent[i].previous != sent[i].next && sent[i].pageUrl == pageUrl)
      && (forall i :: 0 <= i < |sent| - 1 ==> sent[i].next == sent[i + 1].previous)
      && (sent == [] ==> currentLanguage == initialLanguage)
      && (sent != [] ==> sent[0].previous == initialLanguage && sent[|sent| - 1].next == currentLanguage)
    }

    /** `let currentLanguage = localStorage.getItem('preferredLanguage') || 'vi'` */
    constructor (storage: LocalStorage, pageUrl: string)
      ensures Valid()
      ensures currentLanguage == Some(OrElse(storage.GetItem(LanguageKey), "vi"))
      ensures sent == [] && this.pageUrl == pageUrl
    {
      currentLanguage := Some(OrElse(storage.GetItem(LanguageKey), "vi"));
      initialLanguage := currentLanguage;
      sent := [];
      this.pageUrl := pageUrl;
    }

    /** Report `newLanguage` if it differs from the current one, then make it current. */
    method Observe(newLanguage: Option<string>)
      requires Valid()
      modifies this`currentLanguage, this`sent
      ensures Valid()
      ensures currentLanguage == newLanguage
      ensures sent == if newLanguage != old(currentLanguage)
                      then old(sent) + [LanguageEvent(old(currentLanguage), newLanguage, pageUrl)]
                      else old(sent)
    {
      if newLanguage != currentLanguage {
        sent := sent + [LanguageEvent(currentLanguage, newLanguage, pageUrl)];
        currentLanguage := newLanguage;
      }
    }

    /** The MutationObserver callback: a missing or empty stored language reads as 'vi'. */
    method OnMutation(storage: LocalStorage)
      requires Valid()
      modifies this`currentLanguage, this`sent
      ensures Valid()
      ensures currentLanguage == Some(OrElse(storage.GetItem(LanguageKey), "vi"))
      ensures |sent| == |old(sent)| + (if currentLanguage != old(currentLanguage) then 1 else 0)
      ensures sent[..|old(sent)|] == old(sent)
    {
      var newLanguage := OrElse(storage.GetItem(LanguageKey), "vi");
      Observe(Some(newLanguage));
    }

    /** The `storage` event listener: only the language key counts; its new value may be null. */
    method OnStorageEvent(key: string, newValue: Option<string>)
      requires Valid()
      modifies this`currentLanguage, this`sent
      ensures Valid()
      ensures key != LanguageKey ==> currentLanguage == old(currentLanguage) && sent == old(sent)
      ensures key == LanguageKey ==> currentLanguage == newValue
      ensures |sent| == |old(sent)| + (if key == LanguageKey && newValue != old(currentLanguage) then 1 else 0)
      ensures sent[..|old(sent)|] == old(sent)
    {
      if key == LanguageKey {
        Observe(newValue);
      }
    }
  }

  /** The same language observed twice in a row is reported at most once. */
  method ObserveTwiceSendsOnce(w: LanguageWatcher, lang: Option<string>)
    requires w.Valid()
    modifies w`currentLanguage, w`sent
    ensures w.Valid()
    ensures |w.sent| <= |old(w.sent)| + 1
    ensures w.currentLanguage == lang
  {
    w.Observe(lang);
    w.Observe(lang);
  }

  // ---------------------------------------------------------------------------
  // sendData() results and the form feedback

  /** What `sendData` resolves to: the server's JSON, or `{success: false, error}` when the
      request or the JSON parse failed (no `message` then). */
  datatype SendResult = SendResult(success: bool, message: Option<string>)

  /** `reply` is the server's parsed answer, `None` when `fetch` or `response.json()` threw. */
  function SendData(reply: Option<SendResult>): (r: SendResult)
    ensures reply.None? ==> !r.success && r.message.None?
    ensures reply.Some? ==> r == reply.value
  {
    match reply
    case Some(res) => res
    case None => SendResult(false, None)
  }

  datatype FormKind = ContactFormKind | NewsletterFormKind | ServiceRequestFormKind

  datatype ToastKind = SuccessToast | ErrorToast

  /** The toast shown after a form is sent and whether the form is cleared. */
  datatype Feedback = Feedback(kind: ToastKind, text: string, resetForm: bool)

  function SuccessText(kind: FormKind): string
  {
    match kind
    case ContactFormKind => "Cảm ơn bạn đã liên hệ! Chúng tôi sẽ phản hồi sớm nhất có thể."
    case NewsletterFormKind => "Đăng ký newsletter thành công!"
    case ServiceRequestFormKind => "Yêu cầu dịch vụ đã được gửi thành công! Chúng tôi sẽ liên hệ với bạn sớm."
  }

  function DefaultErrorText(kind: FormKind): string
  {
    match kind
    case ContactFormKind => "Có lỗi xảy ra. Vui lòng thử lại."
    case NewsletterFormKind => "Đăng ký thất bại. Vui lòng thử lại."
    case ServiceRequestFormKind => "Gửi yêu cầu thất bại. Vui lòng thử lại."
  }

  /** `if (result.success) { showSuccessMessage(...); form.reset(); } else showErrorMessage(result.message || ...)` */
  function FormFeedback(kind: FormKind, result: SendResult): (f: Feedback)
    ensures f.resetForm <==> result.success
    ensures f.kind == SuccessToast <==> result.success
  {
    if result.success then Feedback(SuccessToast, SuccessText(kind), true)
    else Feedback(ErrorToast, OrElse(result.message, DefaultErrorText(kind)), false)
  }

  /** A form is cleared only after the server accepted it; a failed send keeps what the visitor
      typed and shows the form's default error. */
  lemma FailedSendKeepsForm(kind: FormKind)
    ensures var f := FormFeedback(kind, SendData(None));
      !f.resetForm && f.kind == ErrorToast && f.text == DefaultErrorText(kind)
  {
  }

  /** A server refusal shows the server's own message when it has one. */
  lemma RefusalShowsServerMessage(kind: FormKind, message: string)
    requires message != ""
    ensures FormFeedback(kind, SendResult(false, Some(message))) == Feedback(ErrorToast, message, false)
  {
  }

  // ---------------------------------------------------------------------------
  // What the server receives: `sendData(action, data)` posts `action` and then each field

  /** The `file_download` post. */
  function DownloadPost(e: DownloadEvent): map<string, string>
  {
    map["action" := "file_download", "file_name" := e.fileName, "file_type" := e.fileType,
        "file_category" := e.fileCategory, "download_url" := e.downloadUrl]
  }

  /** Every download post reaches the server's file download handler with its fields. */
  lemma DownloadPostFields(e: DownloadEvent)
    ensures var post := DownloadPost(e);
      && FormHandler.ActionOf(post) == FormHandler.FileDownloadAction
      && post["file_name"] == e.fileName && post["file_type"] == e.fileType
      && post["file_category"] == e.fileCategory && post["download_url"] == e.downloadUrl
  {
    FormHandler.ActionOfName(FormHandler.FileDownloadAction, DownloadPost(e));
  }

  /** So a classified link is posted to that handler under its own URL and category. */
  lemma DownloadPostDispatches(link: Link)
    requires IsDownloadLink(link)
    ensures var post := DownloadPost(ClassifyDownload(link).value);
      && FormHandler.ActionOf(post) == FormHandler.FileDownloadAction
      && post["download_url"] == link.href
      && post["file_category"] == DownloadCategory(link.href)
  {
    var e := ClassifyDownload(link).value;
    assert e.downloadUrl == link.href && e.fileCategory == DownloadCategory(link.href);
    DownloadPostFields(e);
  }

  /** The `language_change` post. */
  function LanguagePost(e: LanguageEvent): map<string, string>
  {
    var (previous, next) := LanguageEventFields(e);
    map["action" := "language_change", "previous_language" := previous, "new_language" := next,
        "page_url" := e.pageUrl]
  }

  /** A language event reaches the server's language handler; a `null` new language arrives as
      the text "null". */
  lemma LanguagePostDispatches(e: LanguageEvent)
    ensures FormHandler.ActionOf(LanguagePost(e)) == FormHandler.LanguageChangeAction
    ensures e.next.None? ==> LanguagePost(e)["new_language"] == "null"
    ensures e.next.Some? ==> LanguagePost(e)["new_language"] == e.next.value
  {
    FormHandler.ActionOfName(FormHandler.LanguageChangeAction, LanguagePost(e));
  }

  /** The `page_visit` beacon sent on `beforeunload`, `seconds` being the rounded visit time. */
  function BeaconPost(pageUrl: string, pageTitle: string, seconds: nat): map<string, string>
  {
    map["action" := "page_visit", "page_url" := pageUrl, "page_title" := pageTitle,
        "visit_duration" := NatToDecimal(seconds)]
  }

  /** The beacon reaches the page visit handler, which stores the duration it carries. */
  lemma BeaconDurationStored(pageUrl: string, pageTitle: string, seconds: nat)
    requires seconds <= PhpIntMax
    ensures FormHandler.ActionOf(BeaconPost(pageUrl, pageTitle, seconds)) == FormHandler.PageVisitAction
    ensures FormHandler.VisitDuration(BeaconPost(pageUrl, pageTitle, seconds)) == seconds
  {
    var post := BeaconPost(pageUrl, pageTitle, seconds);
    FormHandler.ActionOfName(FormHandler.PageVisitAction, post);
    FormHandler.VisitDurationOfNumber(post, seconds);
  }
}
