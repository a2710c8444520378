/**
 * The input validators of utils/validators.py. Each regular expression is
 * written out as the character-class predicate it denotes; the scheduler's
 * own crontab parser is an input.
 */
module Validators {
  import opened Wrappers
  import opened PyStr

  /** A value that may be an `int` or a `str`, as the validators accept. */
  datatype IntOrStr = IntValue(i: int) | StrValue(s: string)

  /** `int(value)`; None where Python raises `ValueError`. */
  function ToInt(v: IntOrStr): (r: Option<int>)
    ensures v.IntValue? ==> r == Some(v.i)
    ensures v.StrValue? ==> r == ParseInt(v.s)
  {
    match v
    case IntValue(i) => Some(i)
    case StrValue(s) => ParseInt(s)
  }

  // ---------------------------------------------------------------- phone

  /** `^\+\d{10,15}$` on a string without a trailing newline. */
  predicate PhonePattern(t: string)
  {
    11 <= |t| <= 16 && t[0] == '+' && AllDigits(t[1..])
  }

  /**
   * `validate_phone`: a non-empty input whose stripped form is '+' and 10 to
   * 15 digits; the valid phones are exactly those, up to surrounding whitespace.
   */
  predicate ValidatePhone(phone: string)
    ensures ValidatePhone(phone) <==>
      exists digits :: 10 <= |digits| <= 15 && AllDigits(digits) && Strip(phone) == "+" + digits
  {
    PhoneShape(Strip(phone));
    phone != "" && PhonePattern(Strip(phone))
  }

  /** The pattern matches exactly '+' followed by 10 to 15 digits. */
  lemma PhoneShape(t: string)
    ensures PhonePattern(t) <==> exists digits :: 10 <= |digits| <= 15 && AllDigits(digits) && t == "+" + digits
  {
    if PhonePattern(t) {
      assert t == "+" + t[1..];
    }
    if exists digits :: 10 <= |digits| <= 15 && AllDigits(digits) && t == "+" + digits {
      var digits :| 10 <= |digits| <= 15 && AllDigits(digits) && t == "+" + digits;
      assert t[1..] == digits;
    }
  }

  /** Surrounding whitespace never changes the verdict on a non-blank phone. */
  lemma PhoneIgnoresWhitespace(phone: string)
    requires Strip(phone) != ""
    ensures ValidatePhone(Strip(phone)) == ValidatePhone(phone)
  {
    StripIdempotent(phone);
  }

  // ---------------------------------------------------------------- chat id

  /** Below 10^12 in absolute value. */
  const ChatIdBound: int := 1_000_000_000_000

  /** `validate_chat_id`: an int-parsable value of absolute value below 10^12. */
  predicate ValidateChatId(chatId: IntOrStr)
    ensures chatId.IntValue? ==> (ValidateChatId(chatId) <==> -ChatIdBound < chatId.i < ChatIdBound)
    ensures ValidateChatId(chatId) ==> ToInt(chatId).Some?
  {
    var parsed := ToInt(chatId);
    parsed.Some? && -ChatIdBound < parsed.value < ChatIdBound
  }

  /** A channel id in the "-100…" form with ten more digits lies beyond the bound and is rejected. */
  lemma ChannelIdsRejected(n: nat)
    ensures !ValidateChatId(IntValue(-(ChatIdBound + n)))
    ensures !ValidateChatId(StrValue(IntToString(-(ChatIdBound + n))))
  {
    ChatIdTextAgrees(-(ChatIdBound + n));
  }

  /** An id and its decimal text are judged alike. */
  lemma ChatIdTextAgrees(i: int)
    ensures ValidateChatId(StrValue(IntToString(i))) == ValidateChatId(IntValue(i))
    ensures ValidateChatId(IntValue(i)) <==> -ChatIdBound < i < ChatIdBound
  {
    ParseIntOfIntToString(i);
  }

  // ---------------------------------------------------------------- API credentials

  predicate IsHexChar(c: char)
  {
    IsDigit(c) || 'a' <= c <= 'f' || 'A' <= c <= 'F'
  }

  predicate AllHex(s: string)
  {
    forall k :: 0 <= k < |s| ==> IsHexChar(s[k])
  }

  /**
   * `re.match(r'^[a-fA-F0-9]+$', s)`: Python's `$` also matches just before
   * a final "\n", so one trailing newline is allowed after the hex run.
   */
  predicate HexRunAsMatched(s: string)
  {
    (s != [] && AllHex(s))
    || (|s| >= 2 && s[|s| - 1] == '\n' && AllHex(s[..|s| - 1]))
  }

  /** `validate_api_credentials` as written: a length test and the pattern above. */
  predicate ValidateApiCredentialsAsWritten(apiId: IntOrStr, apiHash: string)
    ensures ValidateApiCredentialsAsWritten(apiId, apiHash) ==> ToInt(apiId).Some? && |apiHash| == 32
    ensures ValidateApiCredentialsAsWritten(apiId, apiHash) && apiHash[31] != '\n' ==> AllHex(apiHash)
  {
    ToInt(apiId).Some? && apiHash != "" && |apiHash| == 32 && HexRunAsMatched(apiHash)
  }

  /** `validate_api_credentials` as intended: an int-parsable id and exactly 32 hex digits. */
  predicate ValidateApiCredentials(apiId: IntOrStr, apiHash: string)
    ensures ValidateApiCredentials(apiId, apiHash) ==> ValidateApiCredentialsAsWritten(apiId, apiHash)
    ensures ValidateApiCredentials(apiId, apiHash) ==> forall k :: 0 <= k < |apiHash| ==> apiHash[k] != '\n'
  {
    ToInt(apiId).Some? && |apiHash| == 32 && AllHex(apiHash)
  }

  /** 31 hex digits and a newline pass the check as written, but are no 32-digit hash. */
  lemma NewlineHashAccepted(apiId: IntOrStr, digits: string)
    requires ToInt(apiId).Some? && |digits| == 31 && AllHex(digits)
    ensures ValidateApiCredentialsAsWritten(apiId, digits + "\n")
    ensures !ValidateApiCredentials(apiId, digits + "\n")
  {
    var h := digits + "\n";
    assert h[..|h| - 1] == digits;
    assert !IsHexChar(h[31]);
  }

  /** The intended check accepts exactly the 32-hex-digit hashes, and only what the written check accepts. */
  lemma ApiCredentialsIntended(apiId: IntOrStr, apiHash: string)
    ensures ValidateApiCredentials(apiId, apiHash) <==>
      ToInt(apiId).Some? && |apiHash| == 32 && forall k :: 0 <= k < 32 ==> IsHexChar(apiHash[k])
    ensures ValidateApiCredentials(apiId, apiHash) ==> ValidateApiCredentialsAsWritten(apiId, apiHash)
    ensures ValidateApiCredentialsAsWritten(apiId, apiHash) && apiHash[31] != '\n' ==> ValidateApiCredentials(apiId, apiHash)
  {
  }

  // ---------------------------------------------------------------- cron

  /** The verdict of `validate_cron_expression`. */
  datatype CronVerdict = CronValid | CronEmpty | WrongFieldCount(count: nat) | SchedulerRejected

  /**
   * `validate_cron_expression`: empty input and field counts other than five
   * are rejected before the scheduler's parser (`schedulerAccepts`) is consulted.
   */
  function ValidateCron(cron: string, schedulerAccepts: bool): (r: CronVerdict)
    ensures r == CronValid ==> cron != "" && |SplitWs(Strip(cron))| == 5 && schedulerAccepts
    ensures r.WrongFieldCount? ==> r.count != 5 && r.count == |SplitWs(Strip(cron))|
    ensures r == CronEmpty <==> cron == ""
  {
    if cron == "" then CronEmpty
    else
      var parts := SplitWs(Strip(cron));
      if |parts| != 5 then WrongFieldCount(|parts|)
      else if schedulerAccepts then CronValid
      else SchedulerRejected
  }

  /** Words with no whitespace joined by single spaces. */
  predicate IsWord(w: string)
  {
    w != [] && forall k :: 0 <= k < |w| ==> !IsSpace(w[k])
  }

  lemma LeadingWord(w: string, rest: string)
    requires IsWord(w)
    ensures StripLeft(w + rest) == w + rest
    ensures rest == [] || IsSpace(rest[0]) ==> Word(w + rest) == w
  {
    var s := w + rest;
    assert s[0] == w[0];
    if rest == [] || IsSpace(rest[0]) {
      WordOfPrefix(w, rest);
    }
  }

  lemma {:induction false} WordOfPrefix(w: string, rest: string)
    requires forall k :: 0 <= k < |w| ==> !IsSpace(w[k])
    requires rest == [] || IsSpace(rest[0])
    ensures Word(w + rest) == w
    decreases |w|
  {
    if w == [] {
      assert w + rest == rest;
    } else {
      assert (w + rest)[1..] == w[1..] + rest;
      WordOfPrefix(w[1..], rest);
    }
  }

  /** `split()` of one word followed by a space and more text. */
  lemma SplitWsCons(w: string, rest: string)
    requires IsWord(w)
    ensures SplitWs(w + " " + rest) == [w] + SplitWs(rest)
  {
    var s := w + " " + rest;
    assert s == w + (" " + rest);
    LeadingWord(w, " " + rest);
    assert s[|w|..] == " " + rest;
    assert StripLeft(" " + rest) == StripLeft(rest) by {
      assert (" " + rest)[1..] == rest;
    }
  }

  /** `" ".join` of words, front first. */
  function Spaced(ws: seq<string>): string
  {
    if ws == [] then "" else if |ws| == 1 then ws[0] else ws[0] + " " + Spaced(ws[1..])
  }

  /** `split()` of a single word. */
  lemma SplitWsSingle(w: string)
    requires IsWord(w)
    ensures SplitWs(w) == [w]
  {
    WholeWord(w);
    var e := w[|w|..];
    assert e == [];
    assert SplitWs(e) == [];
  }

  /** A word is its own `lstrip()` and its own leading word. */
  lemma WholeWord(w: string)
    requires IsWord(w)
    ensures StripLeft(w) == w && Word(w) == w
  {
    LeadingWord(w, []);
    assert w + [] == w;
  }

  /** Splitting words joined by single spaces gives the words back. */
  lemma {:induction false} SplitWsOfSpaced(ws: seq<string>)
    requires forall k :: 0 <= k < |ws| ==> IsWord(ws[k])
    ensures SplitWs(Spaced(ws)) == ws
  {
    if |ws| == 1 {
      SplitWsSingle(ws[0]);
    } else if |ws| > 1 {
      var rest := ws[1..];
      assert Spaced(ws) == ws[0] + " " + Spaced(rest);
      assert IsWord(ws[0]);
      SplitWsCons(ws[0], Spaced(rest));
      SplitWsOfSpaced(rest);
      assert ws == [ws[0]] + rest;
    }
  }

  /** `split()` of a spaced expression has no surrounding whitespace to strip. */
  lemma SpacedIsStripped(ws: seq<string>)
    requires |ws| >= 1 && forall k :: 0 <= k < |ws| ==> IsWord(ws[k])
    ensures Strip(Spaced(ws)) == Spaced(ws)
  {
    var s := Spaced(ws);
    SpacedEdges(ws);
    StripNoEdgeSpace(s);
  }

  lemma {:induction false} SpacedEdges(ws: seq<string>)
    requires |ws| >= 1 && forall k :: 0 <= k < |ws| ==> IsWord(ws[k])
    ensures var s := Spaced(ws);
      (s != [] && !IsSpace(s[0]) && !IsSpace(s[|s| - 1]) && (|ws| == 1 ==> s == ws[0]) && s[0] == ws[0][0])
  {
    if |ws| > 1 {
      SpacedEdges(ws[1..]);
      var s := Spaced(ws);
      var t := Spaced(ws[1..]);
      assert s == ws[0] + " " + t;
      assert s[|s| - 1] == t[|t| - 1];
      assert s[0] == ws[0][0];
    }
  }

  /** The fields of the expressions `get_cron_examples` lists. */
  const CronExampleFields: seq<seq<string>> := [
    ["0", "9", "*", "*", "*"],
    ["30", "18", "*", "*", "*"],
    ["0", "*/2", "*", "*", "*"],
    ["0", "9", "*", "*", "1"],
    ["0", "9", "1", "*", "*"],
    ["0", "0", "*", "*", "*"],
    ["*/15", "*", "*", "*", "*"]]

  /** The example expressions themselves. */
  function CronExamples(): (r: seq<string>)
    ensures |r| == |CronExampleFields|
  {
    seq(|CronExampleFields|, k requires 0 <= k < |CronExampleFields| => Spaced(CronExampleFields[k]))
  }

  /** Every listed example splits into exactly five fields, so none fails the field-count test. */
  lemma CronExamplesHaveFiveFields(schedulerAccepts: bool)
    ensures forall k :: 0 <= k < |CronExamples()| ==>
      |SplitWs(Strip(CronExamples()[k]))| == 5
      && ValidateCron(CronExamples()[k], schedulerAccepts) == (if schedulerAccepts then CronValid else SchedulerRejected)
  {
    forall k | 0 <= k < |CronExamples()|
      ensures |SplitWs(Strip(CronExamples()[k]))| == 5
      ensures ValidateCron(CronExamples()[k], schedulerAccepts) == (if schedulerAccepts then CronValid else SchedulerRejected)
    {
      var ws := CronExampleFields[k];
      assert |ws| == 5;
      assert forall j :: 0 <= j < |ws| ==> IsWord(ws[j]);
      SpacedIsStripped(ws);
      SplitWsOfSpaced(ws);
      SpacedEdges(ws);
    }
  }

  // ---------------------------------------------------------------- email

  predicate LocalChar(c: char)
  {
    IsAsciiLetter(c) || IsDigit(c) || c == '.' || c == '_' || c == '%' || c == '+' || c == '-'
  }

  predicate DomainChar(c: char)
  {
    IsAsciiLetter(c) || IsDigit(c) || c == '.' || c == '-'
  }

  predicate AllLocal(s: string) { forall k :: 0 <= k < |s| ==> LocalChar(s[k]) }
  predicate AllDomain(s: string) { forall k :: 0 <= k < |s| ==> DomainChar(s[k]) }
  predicate AllLetters(s: string) { forall k :: 0 <= k < |s| ==> IsAsciiLetter(s[k]) }

  /**
   * `^[a-zA-Z0-9._%+-]+@[a-zA-Z0-9.-]+\.[a-zA-Z]{2,}$` read as a
   * decomposition: a non-empty local part, '@' at `at`, a non-empty domain,
   * '.' at `dot`, and a top-level domain of two or more letters.
   */
  predicate EmailSplitAt(t: string, at: int, dot: int)
  {
    0 < at && at + 1 < dot && dot + 3 <= |t| && t[at] == '@' && t[dot] == '.'
    && AllLocal(t[..at]) && AllDomain(t[at + 1..dot]) && AllLetters(t[dot + 1..])
  }

  /** The pattern matches iff some decomposition exists. */
  ghost predicate EmailPatternMatches(t: string)
  {
    exists at, dot :: EmailSplitAt(t, at, dot)
  }

  /** The decomposition computed: the first '@' and the last '.'. */
  predicate EmailMatch(t: string)
  {
    '@' in t && '.' in t
    && var at := IndexOf(t, '@');
    var dot := |t| - |LastSegment(t, '.')| - 1;
    EmailSplitAt(t, at, dot)
  }

  /** `validate_email`: a non-empty input whose stripped form has the pattern's shape. */
  predicate ValidateEmail(email: string)
    ensures ValidateEmail(email) <==> email != "" && EmailPatternMatches(Strip(email))
  {
    EmailMatchIsPattern(Strip(email));
    email != "" && EmailMatch(Strip(email))
  }

  /** A '@' preceded only by local-part characters is the first '@'. */
  lemma FirstAt(t: string, at: int)
    requires 0 <= at < |t| && t[at] == '@' && AllLocal(t[..at])
    ensures '@' in t && IndexOf(t, '@') == at
  {
    assert '@' in t;
  }

  /** A '.' followed only by letters is the last '.'. */
  lemma LastDot(t: string, dot: int)
    requires 0 <= dot < |t| && t[dot] == '.' && AllLetters(t[dot + 1..])
    ensures '.' in t && |t| - |LastSegment(t, '.')| - 1 == dot
  {
    var tld := t[dot + 1..];
    assert '.' !in tld by {
      forall k | 0 <= k < |tld| ensures tld[k] != '.' { assert IsAsciiLetter(tld[k]); }
    }
    assert t == t[..dot] + ['.'] + tld;
    LastSegmentAfterSeparator(t[..dot], '.', tld);
  }

  /** Only the first '@' and the last '.' can split an address, so the computed test is the pattern. */
  lemma EmailMatchIsPattern(t: string)
    ensures EmailMatch(t) <==> EmailPatternMatches(t)
  {
    if EmailPatternMatches(t) {
      var at, dot :| EmailSplitAt(t, at, dot);
      FirstAt(t, at);
      LastDot(t, dot);
    }
  }
}
