/** The pure string functions of the form handler (dulieuSQL/form_handler.php):
    `sanitizeInput` and the keyword table of `generateBotResponse`. */
module FormInput {
  import opened Text
  import opened PhpBuiltins

  // ---------------------------------------------------------------------------
  // sanitizeInput()

  /** `htmlspecialchars(stripslashes(trim($data)))` */
  function SanitizeInput(data: string): (r: string)
    ensures NoRawMarkup(r)
  {
    HtmlSpecialChars(StripSlashes(Trim(data)))
  }

  /** The markup escaping is lossless: what was lost is only the surrounding white space and the
      backslashes. */
  lemma SanitizeInputUnescapes(data: string)
    ensures HtmlUnescape(SanitizeInput(data)) == StripSlashes(Trim(data))
  {
    HtmlRoundTrip(StripSlashes(Trim(data)));
  }

  /** For text without surrounding white space that the transport escaped with `addslashes`,
      sanitising gives back the text with only its markup escaped. */
  lemma SanitizeInputOfSlashedText(s: string)
    requires s == [] || (!IsTrimChar(s[0]) && !IsTrimChar(s[|s| - 1]))
    ensures SanitizeInput(AddSlashes(s)) == HtmlSpecialChars(s)
  {
    var a := AddSlashes(s);
    if s != [] {
      AddSlashesEnds(s);
      assert !IsTrimChar(a[0]) && !IsTrimChar(a[|a| - 1]);
    }
    TrimUnchanged(a);
    StripSlashesAddSlashes(s);
    assert StripSlashes(Trim(a)) == s;
  }

  /** `addslashes` output starts with the first character or a backslash and ends with the
      last character or the `0` of an escaped NUL. */
  lemma {:induction false} AddSlashesEnds(s: string)
    requires s != []
    ensures var a := AddSlashes(s);
      && a != []
      && (a[0] == s[0] || a[0] == '\\')
      && (a[|a| - 1] == s[|s| - 1] || (a[|a| - 1] == '0' && s[|s| - 1] == '\0'))
  {
    var e, t := SlashEscape(s[0]), AddSlashes(s[1..]);
    assert AddSlashes(s) == e + t;
    if |s| > 1 {
      AddSlashesEnds(s[1..]);
      assert (e + t)[|e + t| - 1] == t[|t| - 1];
      assert s[1..][|s[1..]| - 1] == s[|s| - 1];
    }
  }

  /** Sanitising is not idempotent: `&` becomes `&amp;`, which becomes `&amp;amp;`. */
  lemma SanitizeInputNotIdempotent()
    ensures SanitizeInput("&") == "&amp;"
    ensures SanitizeInput(SanitizeInput("&")) == "&amp;amp;"
    ensures SanitizeInput(SanitizeInput("&")) != SanitizeInput("&")
  {
    SanitizeAmpersand();
    SanitizeEscapedAmpersand();
  }

  lemma SanitizeAmpersand()
    ensures SanitizeInput("&") == "&amp;"
  {
    TrimUnchanged("&");
    NoBackslashUnchanged("&");
    assert HtmlSpecialChars("&") == HtmlEntity('&') + HtmlSpecialChars([]);
  }

  lemma SanitizeEscapedAmpersand()
    ensures SanitizeInput("&amp;") == "&amp;amp;"
  {
    EscapedAmpersandKept();
    EscapedAmpersandEscaped();
  }

  lemma EscapedAmpersandKept()
    ensures StripSlashes(Trim("&amp;")) == "&amp;"
  {
    TrimUnchanged("&amp;");
    NoBackslashUnchanged("&amp;");
  }

  lemma EscapedAmpersandEscaped()
    ensures HtmlSpecialChars("&amp;") == "&amp;amp;"
  {
    AmpersandPrefixEscaped("amp;");
    assert "&" + "amp;" == "&amp;";
    assert "&amp;" + "amp;" == "&amp;amp;";
  }

  /** An ampersand before markup-free text is the only character escaped. */
  lemma AmpersandPrefixEscaped(t: string)
    requires forall i :: 0 <= i < |t| ==> !IsMarkupChar(t[i])
    ensures HtmlSpecialChars("&" + t) == "&amp;" + t
  {
    var s := "&" + t;
    assert s[0] == '&' && s[1..] == t;
    HtmlSpecialCharsPlain(t);
  }

  lemma {:induction false} NoBackslashUnchanged(s: string)
    requires '\\' !in s
    ensures StripSlashes(s) == s
  {
    if s != [] {
      assert s[0] in s;
      NoBackslashUnchanged(s[1..]);
    }
  }

  lemma HtmlSpecialCharsPlain(s: string)
    requires forall i :: 0 <= i < |s| ==> !IsMarkupChar(s[i])
    ensures HtmlSpecialChars(s) == s
  {
    HtmlSpecialCharsFixpointIff(s);
  }

  /** A value made only of white space is not `empty()`, yet sanitises to "". */
  lemma WhitespaceSanitizesToEmpty(data: string)
    requires forall k :: 0 <= k < |data| ==> IsTrimChar(data[k])
    ensures SanitizeInput(data) == ""
  {
    TrimEmptyIff(data);
  }

  // ---------------------------------------------------------------------------
  // generateBotResponse()

  /** The keyword table, in the order it is searched. */
  const BotKeywords: seq<string> := ["hello", "help", "services", "contact", "ai", "price"]

  /** The answer for the keyword at position `k` of the keyword table; the position just past
      the table holds the answer given when no keyword occurs. */
  function BotAnswer(k: nat): string
    requires k <= |BotKeywords|
  {
    match k
    case 0 => "Xin chào! Tôi có thể giúp gì cho bạn về dịch vụ chuyển đổi số của DigitizedBrains?"
    case 1 => "Tôi có thể giúp bạn tìm hiểu về các dịch vụ AI Agent, chuyển đổi số, và giải pháp doanh nghiệp của chúng tôi."
    case 2 => "Chúng tôi cung cấp: AI Agents, Digital Transformation, Cybersecurity, Data Analytics, và Staff Training."
    case 3 => "Bạn có thể liên hệ với chúng tôi qua email: ducnguyen@digitizedbrains.online hoặc điện thoại: 0913 723 667"
    case 4 => "AI Agents của chúng tôi bao gồm: Data Analysis, Process Automation, Business Intelligence, và nhiều giải pháp khác."
    case 5 => "Để biết thêm thông tin về giá cả, vui lòng liên hệ trực tiếp với chúng tôi để được tư vấn phù hợp với nhu cầu doanh nghiệp."
    case _ => "Cảm ơn bạn đã liên hệ! Để được hỗ trợ tốt nhất, vui lòng để lại thông tin liên hệ hoặc gọi điện thoại: 0913 723 667"
  }

  /** The position of the first keyword, from position `i` on, that occurs in `msg`;
      `|BotKeywords|` when none does. */
  function FirstKeyword(msg: string, i: nat): (k: nat)
    requires i <= |BotKeywords|
    ensures i <= k <= |BotKeywords|
    decreases |BotKeywords| - i
  {
    if i == |BotKeywords| then i
    else if Contains(msg, BotKeywords[i]) then i
    else FirstKeyword(msg, i + 1)
  }

  /** The reply `generateBotResponse` gives to an already lower-cased message. */
  function BotReply(msg: string): string
  {
    BotAnswer(FirstKeyword(msg, 0))
  }

  /** The search stops at a keyword that occurs and skips only keywords that do not. */
  lemma {:induction false} FirstKeywordIsFirstMatch(msg: string, i: nat)
    requires i <= |BotKeywords|
    ensures var k := FirstKeyword(msg, i);
      && (k < |BotKeywords| ==> Contains(msg, BotKeywords[k]))
      && (forall j :: i <= j < k ==> !Contains(msg, BotKeywords[j]))
    decreases |BotKeywords| - i
  {
    if i < |BotKeywords| && !Contains(msg, BotKeywords[i]) {
      FirstKeywordIsFirstMatch(msg, i + 1);
    }
  }

  /** So the reply belongs to the first keyword in table order that occurs in the message. */
  lemma BotReplyIsFirstMatch(msg: string, k: nat)
    requires k < |BotKeywords| && Contains(msg, BotKeywords[k])
    requires forall j :: 0 <= j < k ==> !Contains(msg, BotKeywords[j])
    ensures BotReply(msg) == BotAnswer(k)
  {
    FirstKeywordIsFirstMatch(msg, 0);
    assert FirstKeyword(msg, 0) == k;
  }

  /** The default answer is given exactly when no keyword occurs. */
  lemma BotReplyDefaultIff(msg: string)
    ensures FirstKeyword(msg, 0) == |BotKeywords| <==> forall j :: 0 <= j < |BotKeywords| ==> !Contains(msg, BotKeywords[j])
  {
    FirstKeywordIsFirstMatch(msg, 0);
  }

  /** `generateBotResponse`: lower-case the message, then search the table in order. */
  method GenerateBotResponse(userMessage: string) returns (reply: string)
    ensures reply == BotReply(Lower(userMessage))
  {
    var msg := Lower(userMessage);
    for i := 0 to |BotKeywords|
      invariant FirstKeyword(msg, 0) == FirstKeyword(msg, i)
    {
      if Contains(msg, BotKeywords[i]) {
        return BotAnswer(i);
      }
    }
    return BotAnswer(|BotKeywords|);
  }

  /** "email" contains "ai". */
  lemma EmailContainsAi(msg: string)
    ensures Contains(msg, "email") ==> Contains(msg, "ai")
  {
    ContainsIff(msg, "email");
    ContainsIff(msg, "ai");
    if Contains(msg, "email") {
      var i :| OccursAt(msg, "email", i);
      var w := msg[i..i + 5];
      assert w == "email";
      assert msg[i + 2] == w[2] == 'a' && msg[i + 3] == w[3] == 'i';
      assert msg[i + 2..i + 4] == "ai";
      assert OccursAt(msg, "ai", i + 2);
    }
  }

  /** Keywords match as plain substrings, in table order: a message that mentions "email" and
      none of the four earlier keywords gets the AI Agents reply, because "ai" occurs in "email". */
  lemma SubstringMatchQuirk(msg: string)
    requires Contains(msg, "email")
    requires !Contains(msg, "hello") && !Contains(msg, "help") && !Contains(msg, "services") && !Contains(msg, "contact")
    ensures FirstKeyword(msg, 0) == 4
  {
    EmailContainsAi(msg);
  }
}
