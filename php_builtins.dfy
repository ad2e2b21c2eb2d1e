/** The PHP built-ins the form handler and the store rely on, modelled on strings:
    `empty()`, `??`, `trim`, `stripslashes`, `htmlspecialchars`, the
    `FILTER_SANITIZE_EMAIL` filter, `intval` on strings and `bin2hex`.
    Each comes with the inverse or the reference property it is checked against. */
module PhpBuiltins {
  import opened Text

  // ---------------------------------------------------------------------------
  // Arrays of strings ($_POST, $_SERVER, $_SESSION)

  /** `empty($a[$k])` for an array of strings: the key is absent, or its value is "" or "0". */
  predicate IsEmptyEntry(a: map<string, string>, k: string)
  {
    k !in a || a[k] == "" || a[k] == "0"
  }

  /** Truthiness of a nullable string: null, "" and "0" are falsy. */
  predicate Truthy(v: Option<string>)
  {
    v.Some? && v.value != "" && v.value != "0"
  }

  /** `$a[$k] ?? $default` */
  function GetOr(a: map<string, string>, k: string, default: string): (r: string)
    ensures k in a ==> r == a[k]
    ensures k !in a ==> r == default
  {
    if k in a then a[k] else default
  }

  /** `$a[$k] ?? null` */
  function Lookup(a: map<string, string>, k: string): (r: Option<string>)
    ensures r.Some? <==> k in a
    ensures r.Some? ==> r.value == a[k]
  {
    if k in a then Some(a[k]) else None
  }

  // ---------------------------------------------------------------------------
  // trim()

  /** The characters `trim` removes by default: space, tab, line feed, carriage return, NUL, vertical tab. */
  predicate IsTrimChar(c: char)
  {
    c == ' ' || c == '\t' || c == '\n' || c == '\r' || c == '\0' || c == '\U{000B}'
  }

  function TrimStart(s: string): (r: string)
    ensures |r| <= |s|
    decreases |s|
  {
    if s != [] && IsTrimChar(s[0]) then TrimStart(s[1..]) else s
  }

  /** The left trim removes exactly the leading run of trimmed characters: what it keeps is the
      rest of the text, unchanged, and starts with a character that is not trimmed. */
  lemma {:induction false} TrimStartShape(s: string)
    ensures var r := TrimStart(s);
      && (forall k :: 0 <= k < |r| ==> r[k] == s[|s| - |r| + k])
      && (forall k :: 0 <= k < |s| - |r| ==> IsTrimChar(s[k]))
      && (r == [] || !IsTrimChar(r[0]))
    decreases |s|
  {
    if s != [] && IsTrimChar(s[0]) {
      TrimStartShape(s[1..]);
    }
  }

  function TrimEnd(s: string): (r: string)
    ensures |r| <= |s|
    decreases |s|
  {
    if s != [] && IsTrimChar(s[|s| - 1]) then TrimEnd(s[..|s| - 1]) else s
  }

  /** The right trim removes exactly the trailing run of trimmed characters. */
  lemma {:induction false} TrimEndShape(s: string)
    ensures var r := TrimEnd(s);
      && (forall k :: 0 <= k < |r| ==> r[k] == s[k])
      && (forall k :: |r| <= k < |s| ==> IsTrimChar(s[k]))
      && (r == [] || !IsTrimChar(r[|r| - 1]))
    decreases |s|
  {
    if s != [] && IsTrimChar(s[|s| - 1]) {
      TrimEndShape(s[..|s| - 1]);
    }
  }

  function Trim(s: string): (r: string)
    ensures |r| <= |s|
    ensures r == [] || (!IsTrimChar(r[0]) && !IsTrimChar(r[|r| - 1]))
  {
    TrimStartShape(s);
    TrimEndShape(TrimStart(s));
    TrimEnd(TrimStart(s))
  }

  /** Trimming twice removes nothing more. */
  lemma TrimIdempotent(s: string)
    ensures Trim(Trim(s)) == Trim(s)
  {
    var r := Trim(s);
    TrimStartShape(r);
    TrimEndShape(r);
    assert TrimStart(r) == r;
    assert TrimEnd(r) == r;
  }

  /** Text that neither starts nor ends with a trimmed character is left as it is. */
  lemma TrimUnchanged(s: string)
    requires s == [] || (!IsTrimChar(s[0]) && !IsTrimChar(s[|s| - 1]))
    ensures Trim(s) == s
  {
    TrimStartShape(s);
    TrimEndShape(s);
    assert TrimStart(s) == s;
    assert TrimEnd(s) == s;
  }

  /** A value trims to "" exactly when it is made only of the trimmed characters. */
  lemma TrimEmptyIff(s: string)
    ensures Trim(s) == [] <==> forall k :: 0 <= k < |s| ==> IsTrimChar(s[k])
  {
    if forall k :: 0 <= k < |s| ==> IsTrimChar(s[k]) {
      TrimStartAllTrimmed(s);
    }
    if Trim(s) == [] {
      TrimStartShape(s);
      TrimEndShape(TrimStart(s));
    }
  }

  lemma {:induction false} TrimStartAllTrimmed(s: string)
    requires forall k :: 0 <= k < |s| ==> IsTrimChar(s[k])
    ensures TrimStart(s) == []
  {
    if s != [] {
      TrimStartAllTrimmed(s[1..]);
    }
  }

  // ---------------------------------------------------------------------------
  // stripslashes() and its inverse addslashes()

  /** `stripslashes`: a backslash is dropped and the character after it kept as it is, except
      that `\0` becomes NUL; a lone backslash at the end is dropped. */
  function StripSlashes(s: string): (r: string)
    ensures |r| <= |s|
    decreases |s|
  {
    if s == [] then []
    else if s[0] == '\\' then
      if |s| == 1 then []
      else [if s[1] == '0' then '\0' else s[1]] + StripSlashes(s[2..])
    else [s[0]] + StripSlashes(s[1..])
  }

  /** `addslashes`, the transport escaping that `stripslashes` undoes: a backslash before
      `'`, `"` and `\`, and NUL written as `\0`. */
  function AddSlashes(s: string): (r: string)
    ensures |r| >= |s|
  {
    if s == [] then []
    else SlashEscape(s[0]) + AddSlashes(s[1..])
  }

  function SlashEscape(c: char): string
  {
    if c == '\0' then "\\0"
    else if c == '\'' || c == '"' || c == '\\' then ['\\', c]
    else [c]
  }

  lemma StripSlashesEscaped(c: char, t: string)
    ensures StripSlashes(SlashEscape(c) + t) == [c] + StripSlashes(t)
  {
    var u := SlashEscape(c) + t;
    if c == '\0' || c == '\'' || c == '"' || c == '\\' {
      assert u[0] == '\\' && u[2..] == t;
    } else {
      assert u[1..] == t;
    }
  }

  /** Stripping the slashes that `addslashes` added gives back the original text. */
  lemma {:induction false} StripSlashesAddSlashes(s: string)
    ensures StripSlashes(AddSlashes(s)) == s
  {
    if s != [] {
      StripSlashesEscaped(s[0], AddSlashes(s[1..]));
      StripSlashesAddSlashes(s[1..]);
    }
  }

  // ---------------------------------------------------------------------------
  // htmlspecialchars() with the default flags of PHP 8.1 and later (ENT_QUOTES)

  predicate IsMarkupChar(c: char)
  {
    c == '&' || c == '"' || c == '\'' || c == '<' || c == '>'
  }

  /** No raw `<`, `>`, `"` or `'`: text that cannot open a tag or close an attribute. */
  predicate NoRawMarkup(s: string)
  {
    '<' !in s && '>' !in s && '"' !in s && '\'' !in s
  }

  function HtmlEntity(c: char): string
  {
    if c == '&' then "&amp;"
    else if c == '"' then "&quot;"
    else if c == '\'' then "&#039;"
    else if c == '<' then "&lt;"
    else if c == '>' then "&gt;"
    else [c]
  }

  /** Each character becomes markup-free text: an entity of several characters for the five
      special ones, itself otherwise. */
  lemma HtmlEntityShape(c: char)
    ensures NoRawMarkup(HtmlEntity(c))
    ensures IsMarkupChar(c) ==> |HtmlEntity(c)| > 1
    ensures !IsMarkupChar(c) ==> HtmlEntity(c) == [c]
  {
  }

  function HtmlSpecialChars(s: string): (r: string)
    ensures NoRawMarkup(r)
    ensures |r| >= |s|
  {
    if s == [] then []
    else
      HtmlEntityShape(s[0]);
      HtmlEntity(s[0]) + HtmlSpecialChars(s[1..])
  }

  /** The reference inverse: turns the five entities `HtmlSpecialChars` writes back into
      their characters and keeps everything else. */
  function HtmlUnescape(s: string): string
    decreases |s|
  {
    if s == [] then []
    else if s[0] != '&' then [s[0]] + HtmlUnescape(s[1..])
    else if StartsWith(s, "&amp;") then "&" + HtmlUnescape(s[5..])
    else if StartsWith(s, "&quot;") then "\"" + HtmlUnescape(s[6..])
    else if StartsWith(s, "&#039;") then "'" + HtmlUnescape(s[6..])
    else if StartsWith(s, "&lt;") then "<" + HtmlUnescape(s[4..])
    else if StartsWith(s, "&gt;") then ">" + HtmlUnescape(s[4..])
    else "&" + HtmlUnescape(s[1..])
  }

  lemma UnescapeEntity(c: char, t: string)
    ensures HtmlUnescape(HtmlEntity(c) + t) == [c] + HtmlUnescape(t)
  {
    if c == '&' {
      UnescapeAmp(t);
    } else if c == '"' {
      UnescapeQuot(t);
    } else if c == '\'' {
      UnescapeApos(t);
    } else if c == '<' {
      UnescapeLt(t);
    } else if c == '>' {
      UnescapeGt(t);
    } else {
      assert ([c] + t)[1..] == t;
    }
  }

  lemma UnescapeAmp(t: string)
    ensures HtmlUnescape("&amp;" + t) == "&" + HtmlUnescape(t)
  {
    var u := "&amp;" + t;
    assert u[..5] == "&amp;" && u[5..] == t;
  }

  lemma UnescapeQuot(t: string)
    ensures HtmlUnescape("&quot;" + t) == "\"" + HtmlUnescape(t)
  {
    var u := "&quot;" + t;
    assert u[1] == 'q' && u[..6] == "&quot;" && u[6..] == t;
    assert !StartsWith(u, "&amp;");
  }

  lemma UnescapeApos(t: string)
    ensures HtmlUnescape("&#039;" + t) == "'" + HtmlUnescape(t)
  {
    var u := "&#039;" + t;
    assert u[1] == '#' && u[..6] == "&#039;" && u[6..] == t;
    assert !StartsWith(u, "&amp;") && !StartsWith(u, "&quot;");
  }

  lemma UnescapeLt(t: string)
    ensures HtmlUnescape("&lt;" + t) == "<" + HtmlUnescape(t)
  {
    var u := "&lt;" + t;
    assert u[1] == 'l' && u[..4] == "&lt;" && u[4..] == t;
    assert !StartsWith(u, "&amp;") && !StartsWith(u, "&quot;") && !StartsWith(u, "&#039;");
  }

  lemma UnescapeGt(t: string)
    ensures HtmlUnescape("&gt;" + t) == ">" + HtmlUnescape(t)
  {
    var u := "&gt;" + t;
    assert u[1] == 'g' && u[..4] == "&gt;" && u[4..] == t;
    assert !StartsWith(u, "&amp;") && !StartsWith(u, "&quot;") && !StartsWith(u, "&#039;");
    assert !StartsWith(u, "&lt;");
  }

  /** Escaping loses nothing: unescaping gives back the original text. */
  lemma {:induction false} HtmlRoundTrip(s: string)
    ensures HtmlUnescape(HtmlSpecialChars(s)) == s
  {
    if s != [] {
      UnescapeEntity(s[0], HtmlSpecialChars(s[1..]));
      HtmlRoundTrip(s[1..]);
    }
  }

  /** Escaping leaves a text unchanged exactly when it holds none of `& " ' < >`. */
  lemma {:induction false} HtmlSpecialCharsFixpointIff(s: string)
    ensures HtmlSpecialChars(s) == s <==> forall i :: 0 <= i < |s| ==> !IsMarkupChar(s[i])
  {
    if s != [] {
      HtmlSpecialCharsFixpointIff(s[1..]);
      var e, t := HtmlEntity(s[0]), HtmlSpecialChars(s[1..]);
      HtmlEntityShape(s[0]);
      assert HtmlSpecialChars(s) == e + t;
      if IsMarkupChar(s[0]) {
        assert |e| > 1;
        assert |e + t| > |s|;
      } else {
        assert e == [s[0]];
        if HtmlSpecialChars(s) == s {
          assert t == s[1..];
        }
        assert forall i :: 1 <= i < |s| ==> s[i] == s[1..][i - 1];
      }
    }
  }

  // ---------------------------------------------------------------------------
  // filter_var($x, FILTER_SANITIZE_EMAIL)

  /** The characters the e-mail filter keeps: ASCII letters, digits and !#$%&'*+-=?^_`{|}~@.[] */
  predicate IsEmailChar(c: char)
  {
    || ('a' <= c <= 'z') || ('A' <= c <= 'Z') || ('0' <= c <= '9')
    || c == '!' || c == '#' || c == '$' || c == '%' || c == '&' || c == '\'' || c == '*' || c == '+'
    || c == '-' || c == '=' || c == '?' || c == '^' || c == '_' || c == '`' || c == '{' || c == '|'
    || c == '}' || c == '~' || c == '@' || c == '.' || c == '[' || c == ']'
  }

  function FilterSanitizeEmail(s: string): (r: string)
    ensures |r| <= |s|
    ensures forall c :: c in r ==> IsEmailChar(c)
  {
    if s == [] then []
    else if IsEmailChar(s[0]) then [s[0]] + FilterSanitizeEmail(s[1..])
    else FilterSanitizeEmail(s[1..])
  }

  /** `r` can be obtained from `s` by deleting characters. */
  predicate IsSubsequence(r: string, s: string)
    decreases |s|
  {
    r == [] || (s != [] && if r[0] == s[0] then IsSubsequence(r[1..], s[1..]) else IsSubsequence(r, s[1..]))
  }

  /** The filter only deletes characters; it never adds or reorders any. */
  lemma {:induction false} FilterSanitizeEmailIsSubsequence(s: string)
    ensures IsSubsequence(FilterSanitizeEmail(s), s)
  {
    if s != [] {
      FilterSanitizeEmailIsSubsequence(s[1..]);
      var t := FilterSanitizeEmail(s[1..]);
      if IsEmailChar(s[0]) {
        assert ([s[0]] + t)[1..] == t;
      } else if t != [] {
        assert t[0] in t;
      }
    }
  }

  /** The filter leaves a text unchanged exactly when every character of it is allowed. */
  lemma {:induction false} FilterSanitizeEmailFixpointIff(s: string)
    ensures FilterSanitizeEmail(s) == s <==> forall i :: 0 <= i < |s| ==> IsEmailChar(s[i])
  {
    if s != [] {
      FilterSanitizeEmailFixpointIff(s[1..]);
      assert forall i :: 1 <= i < |s| ==> s[i] == s[1..][i - 1];
      if !IsEmailChar(s[0]) {
        assert |FilterSanitizeEmail(s)| < |s|;
      } else if FilterSanitizeEmail(s) == s {
        assert FilterSanitizeEmail(s[1..]) == s[1..];
      }
    }
  }

  /** Filtering an already filtered address changes nothing. */
  lemma FilterSanitizeEmailIdempotent(s: string)
    ensures FilterSanitizeEmail(FilterSanitizeEmail(s)) == FilterSanitizeEmail(s)
  {
    FilterSanitizeEmailFixpointIff(FilterSanitizeEmail(s));
  }

  // ---------------------------------------------------------------------------
  // intval() on a string

  const PhpIntMax: int := 0x7FFF_FFFF_FFFF_FFFF
  const PhpIntMin: int := -0x8000_0000_0000_0000

  predicate IsDigit(c: char)
  {
    '0' <= c <= '9'
  }

  /** The leading white space a numeric string may start with: space, \t, \n, \r, \v, \f. */
  predicate IsNumericSpace(c: char)
  {
    c == ' ' || c == '\t' || c == '\n' || c == '\r' || c == '\U{000B}' || c == '\U{000C}'
  }

  function SkipNumericSpace(s: string): (r: string)
    ensures |r| <= |s| && forall k :: 0 <= k < |r| ==> r[k] == s[|s| - |r| + k]
    ensures r == [] || !IsNumericSpace(r[0])
    decreases |s|
  {
    if s != [] && IsNumericSpace(s[0]) then SkipNumericSpace(s[1..]) else s
  }

  /** The longest prefix of `s` made of decimal digits. */
  function LeadingDigits(s: string): (r: string)
    ensures |r| <= |s| && forall k :: 0 <= k < |r| ==> r[k] == s[k]
    ensures forall i :: 0 <= i < |r| ==> IsDigit(r[i])
    ensures |r| < |s| ==> !IsDigit(s[|r|])
    decreases |s|
  {
    if s != [] && IsDigit(s[0]) then [s[0]] + LeadingDigits(s[1..]) else []
  }

  function DigitValue(c: char): nat
    requires IsDigit(c)
  {
    c as int - '0' as int
  }

  /** The value of a string of decimal digits, most significant first. */
  function DigitsValue(d: string): nat
    requires forall i :: 0 <= i < |d| ==> IsDigit(d[i])
  {
    if d == [] then 0 else 10 * DigitsValue(d[..|d| - 1]) + DigitValue(d[|d| - 1])
  }

  /** The 64-bit integer range; `intval` saturates a numeric string outside it. */
  function SaturateInt64(n: int): (r: int)
    ensures PhpIntMin <= r <= PhpIntMax
    ensures PhpIntMin <= n <= PhpIntMax ==> r == n
    ensures n > PhpIntMax ==> r == PhpIntMax
    ensures n < PhpIntMin ==> r == PhpIntMin
  {
    if n > PhpIntMax then PhpIntMax else if n < PhpIntMin then PhpIntMin else n
  }

  /** The part of the string after leading white space and an optional sign. */
  function NumberBody(s: string): string
  {
    var t := SkipNumericSpace(s);
    if t != [] && (t[0] == '-' || t[0] == '+') then t[1..] else t
  }

  predicate IsNegative(s: string)
  {
    var t := SkipNumericSpace(s);
    t != [] && t[0] == '-'
  }

  /** `intval($s)`: leading white space, an optional sign, then the longest run of digits;
      whatever follows is ignored, and no digits at all gives 0. */
  function IntVal(s: string): (r: int)
    ensures PhpIntMin <= r <= PhpIntMax
    ensures LeadingDigits(NumberBody(s)) == [] ==> r == 0
    ensures IsNegative(s) ==> r <= 0
    ensures !IsNegative(s) ==> r >= 0
  {
    var v: int := DigitsValue(LeadingDigits(NumberBody(s)));
    SaturateInt64(if IsNegative(s) then -v else v)
  }

  /** Decimal notation of a natural number, the way JavaScript sends a whole number. */
  function NatToDecimal(n: nat): (r: string)
    ensures r != []
    ensures forall i :: 0 <= i < |r| ==> IsDigit(r[i])
  {
    var d := [('0' as int + n % 10) as char];
    if n < 10 then d
    else
      var p := NatToDecimal(n / 10);
      assert forall i :: 0 <= i < |p| ==> (p + d)[i] == p[i];
      p + d
  }

  lemma {:induction false} DigitsValueOfDecimal(n: nat)
    ensures DigitsValue(NatToDecimal(n)) == n
  {
    if n >= 10 {
      var r := NatToDecimal(n);
      DigitsValueOfDecimal(n / 10);
      assert r[..|r| - 1] == NatToDecimal(n / 10);
    }
  }

  lemma {:induction false} LeadingDigitsOfDigits(d: string, rest: string)
    requires forall i :: 0 <= i < |d| ==> IsDigit(d[i])
    requires rest == [] || !IsDigit(rest[0])
    ensures LeadingDigits(d + rest) == d
  {
    if d != [] {
      assert (d + rest)[0] == d[0] && (d + rest)[1..] == d[1..] + rest;
      LeadingDigitsOfDigits(d[1..], rest);
    } else {
      assert d + rest == rest;
    }
  }

  /** A whole number written in decimal and followed by anything that is not a digit
      reads back as that number: the leading integer prefix is kept. */
  lemma IntValOfDecimal(n: nat, rest: string)
    requires n <= PhpIntMax
    requires rest == [] || !IsDigit(rest[0])
    ensures IntVal(NatToDecimal(n) + rest) == n
  {
    var d := NatToDecimal(n);
    var s := d + rest;
    assert s[0] == d[0];
    NumberBodyOfDigits(s);
    LeadingDigitsOfDigits(d, rest);
    DigitsValueOfDecimal(n);
  }

  /** An optional `+` or `-` in front of a number, as `intval` accepts it. */
  predicate IsSign(sign: string)
  {
    sign == [] || (|sign| == 1 && (sign[0] == '-' || sign[0] == '+'))
  }

  /** Leading white space and a sign are read as `intval` reads them: a signed decimal number,
      followed by anything that is not a digit, reads back as that signed number. */
  lemma IntValOfSignedDecimal(space: string, sign: string, n: nat, rest: string)
    requires forall i :: 0 <= i < |space| ==> IsNumericSpace(space[i])
    requires IsSign(sign)
    requires n <= PhpIntMax
    requires rest == [] || !IsDigit(rest[0])
    ensures IntVal(space + sign + NatToDecimal(n) + rest) == if sign == ['-'] then -(n as int) else n as int
  {
    var d := NatToDecimal(n);
    assert space + sign + d + rest == space + sign + (d + rest);
    SignedBody(space, sign, d + rest);
    LeadingDigitsOfDigits(d, rest);
    DigitsValueOfDecimal(n);
  }

  /** After the white space and the sign comes the number body; the sign decides negativity. */
  lemma SignedBody(space: string, sign: string, body: string)
    requires forall i :: 0 <= i < |space| ==> IsNumericSpace(space[i])
    requires IsSign(sign)
    requires body != [] && IsDigit(body[0])
    ensures NumberBody(space + sign + body) == body
    ensures IsNegative(space + sign + body) <==> sign == ['-']
  {
    var t := sign + body;
    assert space + sign + body == space + t;
    assert t[0] == if sign == [] then body[0] else sign[0];
    SkipNumericSpaceOfSpaces(space, t);
    NumberBodyAfterSpace(space + t, t);
    if sign != [] {
      assert t[1..] == body;
    }
  }

  lemma NumberBodyAfterSpace(s: string, t: string)
    requires SkipNumericSpace(s) == t
    ensures NumberBody(s) == if t != [] && (t[0] == '-' || t[0] == '+') then t[1..] else t
    ensures IsNegative(s) <==> t != [] && t[0] == '-'
  {
  }

  /** `intval` skips exactly the leading white space. */
  lemma {:induction false} SkipNumericSpaceOfSpaces(space: string, t: string)
    requires forall i :: 0 <= i < |space| ==> IsNumericSpace(space[i])
    requires t == [] || !IsNumericSpace(t[0])
    ensures SkipNumericSpace(space + t) == t
    decreases |space|
  {
    if space != [] {
      assert (space + t)[1..] == space[1..] + t;
      SkipNumericSpaceOfSpaces(space[1..], t);
    }
  }

  lemma NumberBodyOfDigits(s: string)
    requires s != [] && IsDigit(s[0])
    ensures NumberBody(s) == s && !IsNegative(s)
  {
    assert !IsNumericSpace(s[0]);
    assert SkipNumericSpace(s) == s;
    assert s[0] != '-' && s[0] != '+';
  }

  /** Text with no digit after the white space and sign reads as 0. */
  lemma IntValNonNumeric(s: string)
    requires NumberBody(s) == [] || !IsDigit(NumberBody(s)[0])
    ensures IntVal(s) == 0
  {
  }

  // ---------------------------------------------------------------------------
  // bin2hex() and its inverse hex2bin()

  type byte = x: int | 0 <= x < 256

  predicate IsLowerHexDigit(c: char)
  {
    ('0' <= c <= '9') || ('a' <= c <= 'f')
  }

  function HexDigit(v: nat): (c: char)
    requires v < 16
    ensures IsLowerHexDigit(c)
  {
    if v < 10 then ('0' as int + v) as char else ('a' as int + v - 10) as char
  }

  function HexValue(c: char): (v: nat)
    ensures v < 16
  {
    if '0' <= c <= '9' then c as int - '0' as int
    else if 'a' <= c <= 'f' then c as int - 'a' as int + 10
    else 0
  }

  /** `bin2hex`: two lower-case hexadecimal digits per byte, high nibble first. */
  function Bin2Hex(b: seq<byte>): (r: string)
    ensures |r| == 2 * |b|
    ensures forall i :: 0 <= i < |r| ==> IsLowerHexDigit(r[i])
  {
    if b == [] then []
    else
      var h, t := [HexDigit(b[0] / 16), HexDigit(b[0] % 16)], Bin2Hex(b[1..]);
      assert forall i :: 2 <= i < |h + t| ==> (h + t)[i] == t[i - 2];
      h + t
  }

  /** `hex2bin` on text of even length. */
  function Hex2Bin(s: string): (b: seq<byte>)
    requires |s| % 2 == 0
  {
    if s == [] then [] else [HexValue(s[0]) * 16 + HexValue(s[1])] + Hex2Bin(s[2..])
  }

  /** Decoding the hexadecimal text gives back the bytes. */
  lemma {:induction false} Hex2BinBin2Hex(b: seq<byte>)
    ensures Hex2Bin(Bin2Hex(b)) == b
  {
    if b != [] {
      var r := Bin2Hex(b);
      assert r[2..] == Bin2Hex(b[1..]);
      assert HexValue(r[0]) == b[0] / 16 && HexValue(r[1]) == b[0] % 16;
      Hex2BinBin2Hex(b[1..]);
    }
  }
}
