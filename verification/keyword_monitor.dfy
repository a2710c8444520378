/**
 * Keyword monitor (monitors/keyword_monitor.py): exact, partial and regex
 * matching on the message text, the `matched_keyword` it records, the reply
 * content it offers, and the stand-alone `KeywordMatchStrategy`.
 */
module KeywordMonitor {
  import opened Wrappers
  import opened PyStr
  import opened Config
  import opened Message
  import opened Effects

  /**
   * `_match_condition`: whether the message matches, and the configuration
   * afterwards. A match with non-empty matched content records it in
   * `matched_keyword`; nothing else is ever written.
   */
  function MatchCondition(c: KeywordConfig, msg: TelegramMessage, search: (string, string) -> RegexOutcome): (r: (bool, KeywordConfig))
    ensures msg.text == "" ==> r == (false, c)
    ensures !r.0 ==> r.1 == c
    ensures r.1.(matchedKeyword := c.matchedKeyword) == c
    ensures msg.text != "" && c.matchType == Exact ==> (r.0 <==> TextLower(msg) == Lower(c.keyword))
    ensures msg.text != "" && c.matchType == Partial ==> (r.0 <==> Contains(TextLower(msg), Lower(c.keyword)))
    ensures msg.text != "" && c.matchType == Regex ==> (r.0 <==> search(c.keyword, msg.text).Hit?)
    ensures r.0 && c.matchType != Regex && c.keyword != "" ==> r.1.matchedKeyword == Some(c.keyword)
    ensures r.0 && c.matchType == Regex && search(c.keyword, msg.text).group0 != "" ==>
      r.1.matchedKeyword == Some(search(c.keyword, msg.text).group0)
  {
    if msg.text == "" then (false, c)
    else
      var text := TextLower(msg);
      var lowerKeyword := Lower(c.keyword);
      var (matched, content) :=
        match c.matchType
        case Exact => (text == lowerKeyword, c.keyword)
        case Partial => (Contains(text, lowerKeyword), c.keyword)
        case Regex =>
          match search(c.keyword, msg.text)
          case Hit(g) => (true, g)
          case _ => (false, "");
      if matched && content != "" then (true, c.(matchedKeyword := Some(content)))
      else (matched, c)
  }

  /** Every exact match is also a partial match: equal texts contain each other. */
  lemma ExactMatchImpliesPartialMatch(c: KeywordConfig, msg: TelegramMessage, search: (string, string) -> RegexOutcome)
    requires c.matchType == Exact && MatchCondition(c, msg, search).0
    ensures MatchCondition(c.(matchType := Partial), msg, search).0
  {
    ContainsSelf(TextLower(msg));
  }

  /** An empty partial keyword matches every message that has text, even whitespace only. */
  lemma EmptyKeywordMatchesAnyText(c: KeywordConfig, msg: TelegramMessage, search: (string, string) -> RegexOutcome)
    requires c.matchType == Partial && c.keyword == "" && msg.text != ""
    ensures MatchCondition(c, msg, search).0
  {
    ContainsEmpty(TextLower(msg));
  }

  /**
   * Only the text is stripped before an exact comparison, so a keyword that
   * ends in whitespace never matches exactly.
   */
  lemma TrailingSpaceKeywordNeverMatchesExactly(c: KeywordConfig, msg: TelegramMessage, search: (string, string) -> RegexOutcome)
    requires c.matchType == Exact && c.keyword != "" && IsSpace(c.keyword[|c.keyword| - 1])
    ensures !MatchCondition(c, msg, search).0
  {
    var k := Lower(c.keyword);
    assert k[|k| - 1] == LowerChar(c.keyword[|c.keyword| - 1]);
    StripEndsWithNonSpace(Lower(msg.text));
    EndsDifferently(TextLower(msg), k);
  }

  /** A string ending in a non-space (or empty) differs from one ending in a space. */
  lemma EndsDifferently(t: string, k: string)
    requires t == [] || !IsSpace(t[|t| - 1])
    requires k != [] && IsSpace(k[|k| - 1])
    ensures t != k
  {
  }

  /** A recorded keyword survives any later message that does not match. */
  lemma MatchedKeywordSurvivesMiss(
    c: KeywordConfig, m1: TelegramMessage, m2: TelegramMessage, search: (string, string) -> RegexOutcome)
    requires c.matchType == Partial && c.keyword != "" && MatchCondition(c, m1, search).0
    requires !MatchCondition(MatchCondition(c, m1, search).1, m2, search).0
    ensures MatchCondition(MatchCondition(c, m1, search).1, m2, search).1.matchedKeyword == Some(c.keyword)
  {
  }

  /**
   * `get_dynamic_reply_content`: nothing when replies come from the AI and a
   * prompt is set, else the configured texts, else the matched keyword.
   */
  function DynamicReplyContent(c: KeywordConfig): (r: seq<string>)
    ensures c.replyContentType == AiContent && c.reply.aiReplyPrompt != "" ==> r == []
    ensures !(c.replyContentType == AiContent && c.reply.aiReplyPrompt != "") && c.reply.texts != [] ==> r == c.reply.texts
    ensures !(c.replyContentType == AiContent && c.reply.aiReplyPrompt != "") && c.reply.texts == [] ==>
      r == (if Truthy(c.matchedKeyword) then [c.matchedKeyword.value] else [])
  {
    if c.replyContentType == AiContent && c.reply.aiReplyPrompt != "" then []
    else if c.reply.texts != [] then c.reply.texts
    else if Truthy(c.matchedKeyword) then [c.matchedKeyword.value]
    else []
  }

  /** With custom replies and no reply texts, a match makes the monitor answer with its own keyword. */
  lemma ReplyEchoesMatchedKeyword(c: KeywordConfig, msg: TelegramMessage, search: (string, string) -> RegexOutcome)
    requires c.matchType != Regex && c.keyword != "" && c.replyContentType == Custom && c.reply.texts == []
    requires MatchCondition(c, msg, search).0
    ensures DynamicReplyContent(MatchCondition(c, msg, search).1) == [c.keyword]
  {
  }

  /** `_execute_custom_actions`: a regex monitor with a send target reports forwarding its matches. */
  function CustomActions(c: KeywordConfig): (r: seq<string>)
    ensures r != [] <==> c.matchType == Regex && c.regexSendTargetId.Some? && c.regexSendTargetId.value != 0
    ensures |r| <= 1
  {
    if c.matchType == Regex && c.regexSendTargetId.Some? && c.regexSendTargetId.value != 0 then ["处理正则匹配结果"]
    else []
  }

  /** `KeywordMatchStrategy.exact_match`: both sides lowercased and stripped. */
  predicate StrategyExact(text: string, keyword: string)
  {
    Strip(Lower(text)) == Strip(Lower(keyword))
  }

  /** `KeywordMatchStrategy.partial_match` */
  predicate StrategyPartial(text: string, keyword: string)
  {
    Contains(Lower(text), Lower(keyword))
  }

  /** `KeywordMatchStrategy.regex_match`: a bad pattern is no match. */
  predicate StrategyRegex(text: string, pattern: string, search: (string, string) -> RegexOutcome)
  {
    search(pattern, text).Hit?
  }

  datatype Strategy = ExactStrategy | PartialStrategy | RegexStrategy

  /**
   * `get_match_function`: the strategy table is keyed by the enum members,
   * so a plain string (even "exact") falls back to partial matching.
   */
  function GetMatchFunction(m: EnumOrString<MatchType>): (r: Strategy)
    ensures m.Text? ==> r == PartialStrategy
    ensures m == Member(Exact) <==> r == ExactStrategy
    ensures m == Member(Regex) <==> r == RegexStrategy
  {
    match m
    case Member(Exact) => ExactStrategy
    case Member(Partial) => PartialStrategy
    case Member(Regex) => RegexStrategy
    case Text(_) => PartialStrategy
  }

  function ApplyStrategy(s: Strategy, text: string, keyword: string, search: (string, string) -> RegexOutcome): bool
  {
    match s
    case ExactStrategy => StrategyExact(text, keyword)
    case PartialStrategy => StrategyPartial(text, keyword)
    case RegexStrategy => StrategyRegex(text, keyword, search)
  }

  /**
   * The strategy's exact match strips the keyword, the monitor's does not: a
   * lowercase text with no surrounding whitespace matches the keyword made
   * of that text plus one trailing space under the strategy only.
   */
  lemma StrategyExactDiffersFromMonitor(
    c: KeywordConfig, msg: TelegramMessage, search: (string, string) -> RegexOutcome, sp: char)
    requires c.matchType == Exact && IsSpace(sp)
    requires msg.text != [] && Lower(msg.text) == msg.text
    requires !IsSpace(msg.text[0]) && !IsSpace(msg.text[|msg.text| - 1])
    requires c.keyword == msg.text + [sp]
    ensures StrategyExact(msg.text, c.keyword)
    ensures !MatchCondition(c, msg, search).0
  {
    var t := msg.text;
    var k := c.keyword;
    assert Lower(k) == k by {
      forall i | 0 <= i < |k| ensures Lower(k)[i] == k[i] {
        if i < |t| { assert Lower(t)[i] == t[i]; }
      }
    }
    StripNoEdgeSpace(t);
    assert StripLeft(k) == k;
    assert k[..|k| - 1] == t;
    assert StripRight(k) == StripRight(t);
    TrailingSpaceKeywordNeverMatchesExactly(c, msg, search);
  }

  /** The monitor's partial match on a non-empty text is the strategy's partial match on the stripped text. */
  lemma MonitorPartialIsStrategyPartial(c: KeywordConfig, msg: TelegramMessage, search: (string, string) -> RegexOutcome)
    requires c.matchType == Partial && msg.text != ""
    ensures MatchCondition(c, msg, search).0 == ApplyStrategy(GetMatchFunction(Member(Partial)), Strip(Lower(msg.text)), c.keyword, search)
  {
    LowerIdempotent(msg.text);
    StripKeepsLower(Lower(msg.text));
  }
}
