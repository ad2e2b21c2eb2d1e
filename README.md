# DigitizedBrains visitor analytics, modelled in Dafny

This project models the data-collection core of the DigitizedBrains website.

- **The visitor and event store** (`dulieuSQL/db_connection.php`). The `DatabaseConnection` class holds a `users` table keyed by session id and one append-only table per kind of event: page visits, contact submissions, service requests, chatbot conversations, AI agent interactions, file downloads and language changes. It also has the newsletter subscription table and the session and client-address helpers.
- **The request handler** (`dulieuSQL/form_handler.php`). For each request it:
  1. answers the CORS preflight;
  2. mints or reuses the PHP session id;
  3. resolves the visitor row;
  4. dispatches on `action` to one handler.

  Each handler checks its required fields in order, sanitises the input, validates the e-mail address, stores one row and replies `{success, message[, bot_response]}`.
- **The browser tracker's decision rules** (`dulieuSQL/data_tracker.js`):
  - the tracker's own session id kept in `localStorage`;
  - the classification of a clicked link as a download, with its file name, type and category;
  - the watcher that reports a language change only when the language really changed;
  - the feedback a form shows after it is sent.

The files:

| file | module | what it holds |
|---|---|---|
| `text.dfy` | `Text` | `Option`, substring search, `split(..).pop()`, `explode(..)[0]`, ASCII lower-casing |
| `php_builtins.dfy` | `PhpBuiltins` | the PHP built-ins the handler relies on, each with an inverse or a reference property: `empty()`, `??`, `trim`, `stripslashes`/`addslashes`, `htmlspecialchars` and its decoding, `FILTER_SANITIZE_EMAIL`, `intval`, `bin2hex`/`hex2bin` |
| `store.dfy` | `Store` | the row types, the users table as a value, `class Database` with one method per store operation, `class PhpSession` with `getSessionId`, and `getClientIP` |
| `form_input.dfy` | `FormInput` | `sanitizeInput` and `generateBotResponse` |
| `form_handler.dfy` | `FormHandler` | the required-field check, the eight handlers, the action switch and the whole request |
| `tracker.dfy` | `Tracker` | the browser tracker's rules, and what its posts look like to the request handler |

## How the model is built

**Store.**
- The database is a Dafny `class` whose fields are the tables: a `map` for `users` and for the newsletter table, a `seq` for each event table.
- Each store method names in its `modifies` clause the one table it writes, so "every other table is unchanged" is checked by Dafny.
- The `users` table is also a value (`Store.ResolveUser`, `Store.SetPreferredLanguage`), so that the counting properties can be proved as lemmas.

**Abstracted environment.**
- A storage exception is a `bool` parameter of the operation it can interrupt (`fault`). `updateLanguagePreference` runs two statements without a transaction, so it gets two: `updateFault` and `insertFault`.
- `FILTER_VALIDATE_EMAIL` is an uninterpreted parameter `isValidEmail: string -> bool`.
- `random_bytes(16)`, `Date.now()`, `Math.random()` and the database clock are parameters.
- `FormHandler.Environment` groups them for a whole request.

**Loops.** Loops in the source are loops in the model, each proved against a recursive specification function:
- the required-field `foreach` (`FormHandler.CheckRequired`);
- the keyword search (`FormInput.GenerateBotResponse`);
- the header search (`Store.GetClientIP`).

**Tracker state.** The tracker's mutable state is in classes:
- `Tracker.LocalStorage`;
- `Tracker.DigitizedBrainsTracker`;
- `Tracker.LanguageWatcher`, whose closure variable `currentLanguage` is a field. Its ghost invariant says the sent events form a chain of real changes from the initial language to the current one.

**Behaviours of the code worth knowing.**
- **Sanitising is not idempotent.** `htmlspecialchars` re-encodes `&`, so sanitising an already sanitised value escapes it again. `FormInput.SanitizeInputNotIdempotent` proves `&` → `&amp;` → `&amp;amp;`.
- **A failed lookup does not stop the request.** `getOrCreateUser` catches its own exception and returns `false`; the script ignores the result and the action still runs. `FormHandler.HandleRequest` gives the reply and the stored event of a POST without any condition on `env.resolveFault`.
- **Only the connection failure reaches the catch.** The only exception that reaches the script's `catch` is the connection failure ("Server error occurred"): every store method catches its own.

**The action switch.** Each handler's reply is a function of the request (`FormHandler.ContactResponse` and its siblings, gathered by `FormHandler.ActionResponse`). Its stored row is `FormHandler.Logged`, kept only when the reply reports success (`FormHandler.ActionEvents`). The users table after the action is `FormHandler.ActionUsers`. `RunAction`, `Dispatch` and `HandleRequest` ensure their reply and new tables equal these functions, and lemmas state what the functions mean.

## Model

| member | source | states |
|---|---|---|
| Text.ContainsIff | dulieuSQL/form_handler.php:288 | `strpos(..) !== false` (and `includes`) holds exactly when the keyword occurs at some position of the text |
| Text.LastSegment | dulieuSQL/data_tracker.js:280-281 | `split(sep).pop()` is a suffix of the text that holds no separator |
| Text.LastSegmentBoundary | dulieuSQL/data_tracker.js:280-281 | when the segment is shorter than the text, the character before it is the separator: the cut is at the last separator |
| Text.LastSegmentWhole | dulieuSQL/data_tracker.js:281 | a name without a dot is its own last segment, so its file type is the whole lower-cased name |
| Text.BeforeFirst | dulieuSQL/db_connection.php:290-291 | `explode(',', ..)[0]` is a prefix with no comma, followed by a comma whenever it is shorter than the text |
| Text.Lower | dulieuSQL/form_handler.php:285 | `strtolower` keeps the length and lower-cases each ASCII letter, position by position |
| Text.LowerIdempotent | dulieuSQL/form_handler.php:285 | lower-casing an already lower-cased text changes nothing |
| PhpBuiltins.GetOr | dulieuSQL/form_handler.php:34 | `$a[$k] ?? $d` is the stored value when the key is present and the default otherwise |
| PhpBuiltins.Lookup | dulieuSQL/db_connection.php:105-113 | an absent optional key reads as NULL, a present one as its value |
| PhpBuiltins.TrimStartShape | dulieuSQL/form_handler.php:300 | the left trim removes exactly the leading run of white space: what it drops is all white space, and what it keeps is the rest of the text unchanged, starting with a non-space |
| PhpBuiltins.TrimEndShape | dulieuSQL/form_handler.php:300 | the right trim removes exactly the trailing run of white space and keeps the rest unchanged |
| PhpBuiltins.Trim | dulieuSQL/form_handler.php:300 | the trimmed text neither starts nor ends with one of the six characters `trim` removes, and is no longer than the input |
| PhpBuiltins.TrimIdempotent | dulieuSQL/form_handler.php:300 | trimming twice equals trimming once |
| PhpBuiltins.TrimUnchanged | dulieuSQL/form_handler.php:300 | text without surrounding white space is left as it is |
| PhpBuiltins.TrimEmptyIff | dulieuSQL/form_handler.php:300 | the trimmed text is empty exactly when every character is white space |
| PhpBuiltins.StripSlashes | dulieuSQL/form_handler.php:301 | `stripslashes` never lengthens the text |
| PhpBuiltins.StripSlashesEscaped | dulieuSQL/form_handler.php:301 | an escaped character (`\'`, `\"`, `\\`, `\0`) collapses back to the one character |
| PhpBuiltins.AddSlashes | dulieuSQL/form_handler.php:301 | `addslashes` never shortens the text |
| PhpBuiltins.StripSlashesAddSlashes | dulieuSQL/form_handler.php:301 | `stripslashes(addslashes(s)) == s` for every text |
| PhpBuiltins.HtmlSpecialChars | dulieuSQL/form_handler.php:302 | the output holds no raw `<`, `>`, `"` or `'` and is at least as long as the input |
| PhpBuiltins.HtmlEntityShape | dulieuSQL/form_handler.php:302 | each of `& " ' < >` becomes a multi-character entity with no raw markup, and every other character is kept as it is |
| PhpBuiltins.HtmlRoundTrip | dulieuSQL/form_handler.php:302 | decoding the five entities gives back exactly the input: the escaping loses nothing |
| PhpBuiltins.HtmlSpecialCharsFixpointIff | dulieuSQL/form_handler.php:302 | the escaping leaves a text unchanged exactly when it holds none of `& " ' < >` |
| PhpBuiltins.UnescapeEntity | dulieuSQL/form_handler.php:302 | each character's entity decodes back to that character in front of whatever follows |
| PhpBuiltins.FilterSanitizeEmail | dulieuSQL/form_handler.php:96 | the sanitised address holds only letters, digits and ``!#$%&'*+-=?^_`{|}~@.[]`` and is no longer than the input |
| PhpBuiltins.FilterSanitizeEmailIsSubsequence | dulieuSQL/form_handler.php:96 | the filter only deletes characters: its output is a subsequence of its input |
| PhpBuiltins.FilterSanitizeEmailFixpointIff | dulieuSQL/form_handler.php:96 | an address is left unchanged exactly when all its characters are allowed |
| PhpBuiltins.FilterSanitizeEmailIdempotent | dulieuSQL/form_handler.php:164 | filtering a filtered address changes nothing |
| PhpBuiltins.SkipNumericSpace | dulieuSQL/form_handler.php:216 | `intval` skips leading white space: the rest is a suffix that starts with a non-space |
| PhpBuiltins.LeadingDigits | dulieuSQL/form_handler.php:216 | the digit run `intval` reads is the longest prefix of digits |
| PhpBuiltins.SaturateInt64 | dulieuSQL/form_handler.php:216 | an in-range value is kept; one above the range becomes `PHP_INT_MAX` and one below it `PHP_INT_MIN` |
| PhpBuiltins.IntVal | dulieuSQL/form_handler.php:216 | `intval` lies in the 64-bit range, is 0 when no digit follows the space and sign, and has the sign of the text |
| PhpBuiltins.NatToDecimal | dulieuSQL/data_tracker.js:98-100 | a whole number is sent as a non-empty string of decimal digits |
| PhpBuiltins.DigitsValueOfDecimal | dulieuSQL/data_tracker.js:98-100 | reading the decimal digits back gives the number |
| PhpBuiltins.LeadingDigitsOfDigits | dulieuSQL/form_handler.php:216 | the digit run stops exactly where the digits end |
| PhpBuiltins.IntValOfDecimal | dulieuSQL/form_handler.php:216 | `intval` of a number's decimal text, followed by anything that does not start with a digit, is that number |
| PhpBuiltins.IntValOfSignedDecimal | dulieuSQL/form_handler.php:216 | after leading white space and an optional `+` or `-`, the leading integer is kept with its sign |
| PhpBuiltins.SignedBody | dulieuSQL/form_handler.php:216 | `intval` skips the white space and the sign to reach the digits, and the sign alone decides negativity |
| PhpBuiltins.NumberBodyOfDigits | dulieuSQL/form_handler.php:216 | a text starting with a digit has no sign and no leading space to skip |
| PhpBuiltins.IntValNonNumeric | dulieuSQL/form_handler.php:216 | a text with no digit after the space and sign reads as 0 |
| PhpBuiltins.Bin2Hex | dulieuSQL/db_connection.php:278 | `bin2hex` writes two lower-case hex digits per byte |
| PhpBuiltins.Hex2BinBin2Hex | dulieuSQL/db_connection.php:278 | the hex id decodes back to the random bytes it was made from |
| Store.ResolveUser | dulieuSQL/db_connection.php:41-71 | a get-or-create keeps every row keyed by its own session id with at least one visit |
| Store.ResolveUnseenInsertsOne | dulieuSQL/db_connection.php:57-71 | an unseen session id adds exactly one row, with one visit, the given address and agent, and `first_visit` = now; no other row changes |
| Store.ResolveKnownIncrements | dulieuSQL/db_connection.php:44-56 | a known session id adds no row: its visit count goes up by one, `last_visit` is refreshed, the rest of the row and every other row are kept |
| Store.ResolveManyCounts | dulieuSQL/db_connection.php:41-71 | n resolutions of one session id count n visits on a single row and change no other row |
| Store.SetPreferredLanguage | dulieuSQL/db_connection.php:213-214 | the language update keeps every row keyed by its own session id |
| Store.SetPreferredLanguageFrame | dulieuSQL/db_connection.php:213-214 | the UPDATE touches only `preferred_language` of the one row, adds and removes no row, and changes nothing when the row is missing |
| Store.StoredInteractionData | dulieuSQL/db_connection.php:182 | the interaction data is stored as NULL exactly when it is falsy (absent, "" or "0"), otherwise as its JSON encoding |
| Store.ContactRowOptionalFields | dulieuSQL/db_connection.php:98-113 | an optional key missing from `$data` is stored as NULL, a present one as given; required fields are stored as given |
| Store.SelectWithLimit | dulieuSQL/db_connection.php:232-255 | `getUserAnalytics`/`getPopularPages` return at most `limit` rows, the first rows of the view, and `[]` on a storage exception |
| Store.SelectWithLimitPrefix | dulieuSQL/db_connection.php:232-255 | raising the limit only adds rows at the end |
| Store.SelectAll | dulieuSQL/db_connection.php:260-268 | `getServiceAnalytics` returns every row of the view, or `[]` on a storage exception |
| Store.Database.constructor | dulieuSQL/db_connection.php:14-16 | the connection opens the tables as the database holds them: the given users, keyed by session id, and the given event tables |
| Store.Database.GetOrCreateUser | dulieuSQL/db_connection.php:41-77 | returns the row as it was before the visit was counted (or the new row), updates `users` by `ResolveUser`, and on an exception returns `false` and changes nothing |
| Store.Database.LogPageVisit | dulieuSQL/db_connection.php:82-93 | appends exactly the one page-visit row, or returns `false` and appends nothing; no other table changes |
| Store.Database.SaveContactSubmission | dulieuSQL/db_connection.php:98-118 | appends exactly the row built from `$data`, or returns `false` and appends nothing |
| Store.Database.SaveServiceRequest | dulieuSQL/db_connection.php:123-149 | appends exactly the row built from `$data`, or returns `false` and appends nothing |
| Store.Database.LogChatbotConversation | dulieuSQL/db_connection.php:154-166 | appends exactly the one conversation row, or returns `false` and appends nothing |
| Store.Database.LogAIAgentInteraction | dulieuSQL/db_connection.php:171-188 | appends one row whose data is NULL or the encoding of the given data, or returns `false` and appends nothing |
| Store.Database.LogFileDownload | dulieuSQL/db_connection.php:193-205 | appends exactly the one download row, or returns `false` and appends nothing |
| Store.Database.UpdateLanguagePreference | dulieuSQL/db_connection.php:210-227 | sets the preferred language of that session only and appends one language-change row; a failing UPDATE changes nothing; a failing INSERT keeps the update and logs no row |
| Store.PhpSession.constructor | dulieuSQL/db_connection.php:272-275 | the session store starts from the given data |
| Store.WithSessionId | dulieuSQL/db_connection.php:277-279 | after `getSessionId` the session always holds an id |
| Store.WithSessionIdStable | dulieuSQL/db_connection.php:277-281 | a second call returns the stored id and changes nothing, whatever random bytes it is given |
| Store.GetSessionId | dulieuSQL/db_connection.php:272-282 | reuses a stored id unchanged; otherwise stores and returns a 32-character lower-case hex id |
| Store.FirstSetHeaderIsFirst | dulieuSQL/db_connection.php:286-293 | the header search (`Store.FirstSetHeader`) takes the first key, in the order X_FORWARDED_FOR, X_REAL_IP, CLIENT_IP, REMOTE_ADDR, whose value is not `empty()`, and finds none only when all are empty |
| Store.ClientIPFromHeaderHasNoComma | dulieuSQL/db_connection.php:290-291 | an address taken from a header is one entry of the list: it holds no comma |
| Store.GetClientIP | dulieuSQL/db_connection.php:285-296 | the loop with early return computes `Store.ClientIP`: the trimmed first comma segment of the first non-empty header, else `REMOTE_ADDR ?? 'unknown'` |
| FormInput.SanitizeInput | dulieuSQL/form_handler.php:299-304 | a sanitised value holds no raw `<`, `>`, `"` or `'` |
| FormInput.SanitizeInputUnescapes | dulieuSQL/form_handler.php:299-304 | decoding a sanitised value gives back the input with only its surrounding white space and backslash escapes removed |
| FormInput.SanitizeInputOfSlashedText | dulieuSQL/form_handler.php:299-304 | for text without surrounding white space that was escaped with `addslashes`, sanitising gives back the text with only its markup escaped |
| FormInput.SanitizeInputNotIdempotent | dulieuSQL/form_handler.php:299-304 | `&` sanitises to `&amp;` and that to `&amp;amp;`: sanitising twice differs from once |
| FormInput.SanitizeAmpersand | dulieuSQL/form_handler.php:299-304 | a bare `&` is sanitised to `&amp;` |
| FormInput.SanitizeEscapedAmpersand | dulieuSQL/form_handler.php:299-304 | an already escaped `&amp;` is escaped again, to `&amp;amp;` |
| FormInput.AmpersandPrefixEscaped | dulieuSQL/form_handler.php:302 | `&` before plain text is escaped and the text after it kept: `htmlspecialchars` does not recognise existing entities |
| FormInput.NoBackslashUnchanged | dulieuSQL/form_handler.php:301 | text without a backslash passes `stripslashes` unchanged |
| FormInput.HtmlSpecialCharsPlain | dulieuSQL/form_handler.php:302 | text without `& " ' < >` passes `htmlspecialchars` unchanged |
| FormInput.WhitespaceSanitizesToEmpty | dulieuSQL/form_handler.php:299-304 | a white-space-only value sanitises to "" |
| FormInput.FirstKeyword | dulieuSQL/form_handler.php:287-291 | the search position never goes back and stays within the table |
| FormInput.FirstKeywordIsFirstMatch | dulieuSQL/form_handler.php:287-291 | the search stops at a keyword that occurs and skips only keywords that do not |
| FormInput.BotReplyIsFirstMatch | dulieuSQL/form_handler.php:276-291 | the reply (`FormInput.BotReply`) is the answer (`FormInput.BotAnswer`) of the first keyword in the order hello, help, services, contact, ai, price that occurs in the message |
| FormInput.BotReplyDefaultIff | dulieuSQL/form_handler.php:287-293 | the default reply is given exactly when no keyword occurs |
| FormInput.GenerateBotResponse | dulieuSQL/form_handler.php:274-294 | the `foreach` with early return gives the first-match reply of the lower-cased message |
| FormInput.EmailContainsAi | dulieuSQL/form_handler.php:288 | a message containing "email" contains the keyword "ai" |
| FormInput.SubstringMatchQuirk | dulieuSQL/form_handler.php:276-291 | a message that mentions "email" and none of the four earlier keywords gets the AI Agents reply |
| FormHandler.FirstEmpty | dulieuSQL/form_handler.php:87-91 | the field reported is one of the required fields and is `empty()` (`PhpBuiltins.IsEmptyEntry`: absent, "" or "0"); when none is reported, all are filled |
| FormHandler.FirstEmptyIsFirst | dulieuSQL/form_handler.php:87-91 | the reported field is the first `empty()` one in the listed order, and nothing is reported exactly when none is empty |
| FormHandler.RequiredCheckPasses | dulieuSQL/form_handler.php:85-91 | the check passes exactly when every required field of the form is filled |
| FormHandler.CheckRequired | dulieuSQL/form_handler.php:87-91 | the `foreach` with early return finds the first `empty()` field |
| FormHandler.WhitespaceNamePassesCheck | dulieuSQL/form_handler.php:85-101 | a white-space-only name is not `empty()`, so the contact form's required check passes, yet the stored name is "" |
| FormHandler.OptionalField | dulieuSQL/form_handler.php:97 | a sanitised optional field holds no raw markup |
| FormHandler.OptionalFieldMissing | dulieuSQL/form_handler.php:97 | a missing optional field is stored as "", not NULL |
| FormHandler.ContactData | dulieuSQL/form_handler.php:93-101 | the `$data` array of the contact form is stored as the row `ContactRecord` builds field by field |
| FormHandler.ContactArray | dulieuSQL/form_handler.php:93-101 | the `$data` array carries every contact field, so the stored row has the given values and no NULL optional field |
| FormHandler.ContactRowSanitized | dulieuSQL/form_handler.php:93-101 | a stored contact row has no raw markup in its text fields, only e-mail characters in its address (a subsequence of the submitted one), and "" for an omitted company |
| FormHandler.ContactRowUnescapes | dulieuSQL/form_handler.php:93-101 | the stored name and message decode to the submitted text up to surrounding white space and backslashes |
| FormHandler.ServiceData | dulieuSQL/form_handler.php:159-172 | the `$data` array of the service form is stored as the row `ServiceRecord` builds field by field |
| FormHandler.ServiceArray | dulieuSQL/form_handler.php:159-172 | the `$data` array carries every service field, so the stored row has the given values and no NULL optional field |
| FormHandler.ServiceRowSanitized | dulieuSQL/form_handler.php:159-172 | a stored service request has no raw markup in any of its ten text fields and only e-mail characters in its address (a subsequence of the submitted one); every optional field is stored, never NULL |
| FormHandler.Subscribe | dulieuSQL/form_handler.php:130-136 | the upsert keys the subscription by its address |
| FormHandler.SubscribeActivates | dulieuSQL/form_handler.php:130-136 | after a signup the address is subscribed and active, and other subscriptions are kept |
| FormHandler.SubscribeIdempotent | dulieuSQL/form_handler.php:130-136 | signing up the same address twice leaves the table as one signup does |
| FormHandler.VisitDuration | dulieuSQL/form_handler.php:216 | the stored duration is within the 64-bit range |
| FormHandler.VisitDurationOfNumber | dulieuSQL/form_handler.php:216 | a duration sent as a decimal number is stored as that number |
| FormHandler.ContactResponse | dulieuSQL/form_handler.php:84-112 | the first `empty()` field in the order name, email, message → "Field '<f>' is required"; then an invalid sanitised address → "Invalid email address"; then "Failed to save contact form" on a storage exception, else success; success exactly when all three checks pass |
| FormHandler.NewsletterResponse | dulieuSQL/form_handler.php:117-145 | empty address → "Email is required"; invalid → "Invalid email address"; a storage exception → "Database error"; success exactly when none of these happens |
| FormHandler.ServiceResponse | dulieuSQL/form_handler.php:150-183 | the first `empty()` field in the order service_type, contact_person, email → "Field '<f>' is required"; then "Invalid email address"; then "Failed to save service request" or success |
| FormHandler.ChatbotResponse | dulieuSQL/form_handler.php:188-208 | empty message → "Message is required"; a storage exception → "Failed to log conversation"; otherwise success with the bot's reply (`FormHandler.ChatbotReply`) to the lower-cased sanitised message |
| FormHandler.HandleContactForm | dulieuSQL/form_handler.php:84-112 | replies `ContactResponse`; the contact row is stored exactly when the reply reports success, and no other table changes |
| FormHandler.HandleNewsletterSignup | dulieuSQL/form_handler.php:117-145 | replies `NewsletterResponse`; the sanitised address is subscribed exactly when the reply reports success |
| FormHandler.HandleServiceRequest | dulieuSQL/form_handler.php:150-183 | replies `ServiceResponse`; the service row is stored exactly when the reply reports success |
| FormHandler.HandleChatbotMessage | dulieuSQL/form_handler.php:188-208 | replies `ChatbotResponse`; the conversation row (`FormHandler.ChatbotRow`) is logged exactly on success, and the reply carries exactly the bot answer that was logged |
| FormHandler.HandlePageVisit | dulieuSQL/form_handler.php:213-223 | logs the row `FormHandler.PageVisitRow` (sanitised URL and title, `intval` duration) and replies "Page visit logged", or "Failed to log page visit" and logs nothing |
| FormHandler.HandleLanguageChange | dulieuSQL/form_handler.php:228-238 | unless the UPDATE fails, sets the visitor's language to the sanitised new language; logs `FormHandler.LanguageChangeRow` and replies success only when both statements run |
| FormHandler.HandleAIAgentInteraction | dulieuSQL/form_handler.php:243-253 | logs `FormHandler.AIAgentInteractionRow` (sanitised types, raw interaction data) and replies success, or "Failed to log AI interaction" and logs nothing |
| FormHandler.HandleFileDownload | dulieuSQL/form_handler.php:258-269 | logs `FormHandler.FileDownloadRow` (four sanitised fields) and replies success, or "Failed to log file download" and logs nothing |
| FormHandler.PageVisitRowSanitized | dulieuSQL/form_handler.php:214-216 | a stored page visit has no raw markup in URL or title, its duration is within the 64-bit range, and it is 0 when none was sent |
| FormHandler.LanguageChangeRowSanitized | dulieuSQL/form_handler.php:229-231 | a stored language change has no raw markup in any field |
| FormHandler.AIAgentInteractionRowSanitized | dulieuSQL/form_handler.php:244-246 | the types of a stored AI interaction have no raw markup, and its data is what `logAIAgentInteraction` makes of the sent value: NULL when falsy, else its encoding |
| FormHandler.FileDownloadRowSanitized | dulieuSQL/form_handler.php:259-262 | a stored download has no raw markup in any field |
| FormHandler.ChatbotRowSanitized | dulieuSQL/form_handler.php:193-194 | a stored conversation has no raw markup in the message or page context |
| FormHandler.AIInteractionDataKeepsMarkup | dulieuSQL/form_handler.php:246 | the interaction data is not sanitised: `<b>` is stored as sent |
| FormHandler.ActionOfName | dulieuSQL/form_handler.php:34-67 | the switch (`FormHandler.ActionOf`) reaches each handler by exactly its own action name |
| FormHandler.ActionOfIsName | dulieuSQL/form_handler.php:34-70 | a request with no `action` is an invalid action |
| FormHandler.ActionResponseSucceeds | dulieuSQL/form_handler.php:36-71 | the switch's reply reports success exactly when the chosen handler's checks pass and its statements run; an unknown action gets "Invalid action"; only the chatbot reply carries a bot answer, the one for the sanitised message |
| FormHandler.ActionEventsLogsOne | dulieuSQL/form_handler.php:36-71 | a successful action logs exactly one event, except the newsletter signup, which adds or re-activates its address; a failed or unknown action stores nothing |
| FormHandler.ActionEventsOwnTable | dulieuSQL/form_handler.php:36-71 | each action writes its own event table only |
| FormHandler.ActionUsers | dulieuSQL/form_handler.php:57-59 | only a language change whose UPDATE runs changes the users table, even when its INSERT then fails: it sets the visitor's preferred language to the sanitised new language and leaves every other row as it was; the table stays keyed by session id and gains no row |
| FormHandler.RunAction | dulieuSQL/form_handler.php:36-71 | the reply is `ActionResponse` of the action, the event tables become `ActionEvents` and the users table `ActionUsers` |
| FormHandler.RunFormAction | dulieuSQL/form_handler.php:37-47 | the contact, newsletter and service cases reply as their handler and change the event tables as `ActionEvents` says; the users table is unchanged |
| FormHandler.RunVisitAction | dulieuSQL/form_handler.php:53-59 | the page-visit and language cases reply as their handler and change the event tables and the users table as `ActionEvents` and `ActionUsers` say |
| FormHandler.RunInteractionAction | dulieuSQL/form_handler.php:49-67 | the chatbot, AI and download cases reply as their handler and change the event tables as `ActionEvents` says; the users table is unchanged |
| FormHandler.Dispatch | dulieuSQL/form_handler.php:31-72 | a non-POST request gets `{success: false, message: ''}` and changes nothing; a POST gets the reply and new tables of the action its `action` field names |
| FormHandler.Resolved | dulieuSQL/form_handler.php:24-29 | the users table after the visitor lookup stays keyed by session id; a failed lookup leaves it as it was |
| FormHandler.HandleRequest | dulieuSQL/form_handler.php:18-79 | OPTIONS → empty body and no change; a connection failure → "Server error occurred" and no change; otherwise the session id is minted or reused, the visitor is resolved (`Resolved`), and a POST gets the reply, events and users of its action whether or not the lookup failed; any other method stores no event |
| Tracker.LocalStorage.constructor | dulieuSQL/data_tracker.js:41 | the storage starts with the given items |
| Tracker.LocalStorage.GetItem | dulieuSQL/data_tracker.js:41 | `getItem` gives `null` exactly for a missing key |
| Tracker.OrElse | dulieuSQL/data_tracker.js:303 | `v \|\| fallback` is the value when it is truthy (present and non-empty) and the fallback otherwise |
| Tracker.NewSessionId | dulieuSQL/data_tracker.js:43 | a minted id starts with `db_` and is never empty |
| Tracker.NewSessionIdParts | dulieuSQL/data_tracker.js:43 | the id reads back as the timestamp between the first two `_` and the random suffix after them |
| Tracker.WithTrackerSessionId | dulieuSQL/data_tracker.js:40-47 | afterwards the storage always holds a non-empty id |
| Tracker.WithTrackerSessionIdStable | dulieuSQL/data_tracker.js:40-47 | a second call, at any time and with any suffix, keeps the first id |
| Tracker.GetOrCreateSessionId | dulieuSQL/data_tracker.js:40-47 | returns the stored id when it is truthy; otherwise stores and returns `db_<now>_<suffix>` |
| Tracker.DigitizedBrainsTracker.constructor | dulieuSQL/data_tracker.js:7-12 | the tracker holds the stored-or-minted session id, the start time and the page |
| Tracker.DownloadFileName | dulieuSQL/data_tracker.js:280 | the file name is the non-empty `download` attribute, else the last `/` segment of the URL |
| Tracker.DownloadFileType | dulieuSQL/data_tracker.js:281 | the file type holds no dot |
| Tracker.CategoryFromIsFirstMatch | dulieuSQL/data_tracker.js:283-287 | the category (`Tracker.CategoryFrom`, `Tracker.DownloadCategory`) is that of the first of guide, whitepaper, case-study, template contained in the URL, else "document" |
| Tracker.DownloadCategoryIsKnown | dulieuSQL/data_tracker.js:283-287 | the category is one of guide, whitepaper, case_study, template, document |
| Tracker.ClassifyDownload | dulieuSQL/data_tracker.js:275-294 | an event is sent exactly for download links |
| Tracker.DocxIsDoc | dulieuSQL/data_tracker.js:276 | the `.docx` test is redundant: every URL containing ".docx" contains ".doc" |
| Tracker.IsDownloadLinkIff | dulieuSQL/data_tracker.js:275-277 | a link is a download (`Tracker.IsDownloadLink`) iff it has a `download` attribute (even an empty one) or its URL contains ".pdf" or ".doc" |
| Tracker.ClassifyDownloadFields | dulieuSQL/data_tracker.js:280-292 | the event carries the link's URL, a dot-free type (the whole lower-cased name when it has no dot), the attribute or last-segment name, and a known category |
| Tracker.LanguageEventFields | dulieuSQL/data_tracker.js:306-329 | a language event posts its values as they are, `null` being sent as the text "null" |
| Tracker.LanguageWatcher.constructor | dulieuSQL/data_tracker.js:303 | the current language starts as the stored one, or 'vi' when that is missing or empty |
| Tracker.LanguageWatcher.Observe | dulieuSQL/data_tracker.js:308-315 | an event is sent exactly when the new language differs from the current one, after which the current language is the new one |
| Tracker.LanguageWatcher.OnMutation | dulieuSQL/data_tracker.js:306-316 | the observer reads the stored language ('vi' when missing or empty), reports it only if it changed, and makes it current |
| Tracker.LanguageWatcher.OnStorageEvent | dulieuSQL/data_tracker.js:321-329 | only the `preferredLanguage` key counts; its new value, possibly null, is reported only if it differs and then becomes current |
| Tracker.ObserveTwiceSendsOnce | dulieuSQL/data_tracker.js:308-315 | observing the same language twice sends at most one event |
| Tracker.SendData | dulieuSQL/data_tracker.js:52-77 | a failed request or unreadable reply yields `success: false` with no message; otherwise the server's reply |
| Tracker.FormFeedback | dulieuSQL/data_tracker.js:148-153 | the form is reset, and a success toast shown, exactly when the send succeeded |
| Tracker.FailedSendKeepsForm | dulieuSQL/data_tracker.js:135-154 | a failed send keeps the form and shows the form's default error |
| Tracker.RefusalShowsServerMessage | dulieuSQL/data_tracker.js:152 | a refusal shows the server's non-empty message |
| Tracker.DownloadPostFields | dulieuSQL/data_tracker.js:289-294 | a download post reaches the file-download handler with the event's four fields |
| Tracker.DownloadPostDispatches | dulieuSQL/data_tracker.js:274-294 | a classified link is posted to that handler with its own URL and category |
| Tracker.LanguagePostDispatches | dulieuSQL/data_tracker.js:309-313 | a language event reaches the language handler, a null new language arriving as "null" |
| Tracker.BeaconDurationStored | dulieuSQL/data_tracker.js:94-103 | the unload beacon reaches the page-visit handler, which stores the duration it carries |

## Left out

- Concurrency: two requests may both miss the visitor row and both insert it. The model is sequential.
- The SQL views behind the analytics queries are not part of this model. `ORDER BY last_visit DESC` and the views' aggregation are taken as given: the view is passed in the order the query returns it.
- Store.SelectWithLimit: states the LIMIT bound and the prefix, not the ordering the database applies.
- PDO and MySQL mechanics, the table schemas and column defaults, and the `users` columns a fresh row receives from the database rather than from the INSERT.
- The array `getOrCreateUser` returns for a new visitor lacks `last_visit` and `preferred_language`. The model returns the full new row.
- Store.StoredInteractionData: `json_encode` is kept symbolic as the encoded text; its escaping of quotes, slashes and non-ASCII characters is not modelled.
- The exact `FILTER_VALIDATE_EMAIL` rule. E-mail validity is a parameter.
- FormHandler.Subscribe: the newsletter table's unique key is not shown; the upsert is modelled as keyed by the e-mail address.
- The newsletter handler's "Failed to subscribe" branch is unreachable, because the connection runs in exception mode, so it is not modelled.
- The PHP version: `htmlspecialchars` is modelled with the default flags of PHP 8.1 and later, which include `ENT_QUOTES`, so `'` becomes `&#039;`. Before PHP 8.1 the default left `'` as it is, and `FormInput.SanitizeInput` would not remove raw `'`.
- PhpBuiltins.IntVal: reads white space, a sign and a digit run, and saturates to 64 bits. Exponent notation, which PHP 8 honours in numeric strings, is not modelled.
- Text.Lower: lower-cases ASCII letters only. That is PHP 8's `strtolower`, but JavaScript's `toLowerCase` also maps non-ASCII letters.
- Tracker.DownloadFileType: inherits the ASCII-only lower-casing above.
- The visit duration is `Math.round` of a float division of clock readings. The model takes the resulting whole number of seconds as a parameter, and does not model a negative value from a clock that went back.
- `random_bytes`, `Math.random`, `Date.now` and the database clock are parameters. The tracker's random suffix may be any text.
- The HTTP layer: response headers, CORS, `json_encode` of the response and `exit` are not modelled. The preflight is the `None` result of `FormHandler.HandleRequest`.
- Browser plumbing is not modelled: `fetch`, `sendBeacon`, `FormData` ordering, DOM events, the MutationObserver registration, toasts and timers. So are the chatbot and AI-agent event listeners, which only forward fields.
- PHP array-valued POST fields (`name[]=..`) are not modelled: every POST value is a string.
- `admin_dashboard.php` and `export_data.php` are not part of this model. They only format and stream query results.
