/**
 * AI monitor (monitors/ai_monitor.py): the prompt it sends, how it reads
 * the model's verdict (structured "判断:/回复:" answers first, keyword
 * sniffing otherwise), the reply text it derives from the answer, and the
 * `AIMonitorBuilder`.
 */
module AiMonitor {
  import opened Wrappers
  import opened PyStr
  import opened Config
  import opened Message
  import opened Effects

  /** The answer format is requested when replies are on but no fixed reply text exists. */
  predicate StructuredRequested(c: AIMonitorConfig)
  {
    c.reply.enabled && c.reply.texts == []
  }

  const StructuredFormat: seq<string> := [
    "",
    "请按照以下格式回复:",
    "判断: yes/no (是否符合监控条件)",
    "回复: [如果符合条件，请生成一条合适的回复内容；如果不符合，请写'无']",
    "",
    "示例:",
    "判断: yes",
    "回复: 您好！我注意到您提到了相关内容。"]

  const PlainFormat: seq<string> := [
    "",
    "请仅回答 'yes' 或 'no'，表示是否符合监控条件。",
    "如果符合条件回答 yes，不符合回答 no。"]

  /** The lines describing the message: text, sender, media, buttons, forwarding. */
  function MessageLines(c: AIMonitorConfig, msg: TelegramMessage): (r: seq<string>)
    ensures |r| >= 5 && r[0] == "用户提示词: " + c.aiPrompt && r[3] == "消息内容: " + msg.text
  {
    var head := ["用户提示词: " + c.aiPrompt, "", "请根据上述提示词判断以下消息是否符合条件:", "消息内容: " + msg.text];
    var sender := ["发送者: " + FullName(msg.sender)]
      + (if Truthy(msg.sender.username) then ["用户名: @" + msg.sender.username.value] else []);
    var media :=
      if msg.media.Some? && msg.media.value.hasMedia then
        ["包含媒体: " + msg.media.value.mediaType.GetOr("None")]
        + (if Truthy(msg.media.value.fileName) then ["文件名: " + msg.media.value.fileName.value] else [])
      else [];
    var buttons := if HasButtons(msg) then ["包含按钮: " + Join(StrippedTexts(Flatten(msg.buttons)), ", ")] else [];
    var forwarded := if msg.isForwarded then ["这是一条转发消息"] else [];
    head + sender + media + buttons + forwarded
  }

  /** `_build_ai_prompt`, line by line: the message description, then the requested answer format. */
  function PromptLines(c: AIMonitorConfig, msg: TelegramMessage): (r: seq<string>)
    ensures StructuredRequested(c) ==> r == MessageLines(c, msg) + StructuredFormat
    ensures !StructuredRequested(c) ==> r == MessageLines(c, msg) + PlainFormat
  {
    MessageLines(c, msg) + (if StructuredRequested(c) then StructuredFormat else PlainFormat)
  }

  /**
   * `_build_ai_prompt`: the lines joined by newlines; the prompt opens with
   * the user's instruction and closes with the answer format's last line.
   */
  function BuildAiPrompt(c: AIMonitorConfig, msg: TelegramMessage): (r: string)
    ensures StartsWith(r, "用户提示词: " + c.aiPrompt)
    ensures var last := if StructuredRequested(c) then StructuredFormat[7] else PlainFormat[2];
      |last| <= |r| && r[|r| - |last|..] == last
  {
    var lines := PromptLines(c, msg);
    JoinStartsWithFirst(lines, "\n");
    JoinEndsWithLast(lines, "\n");
    Join(lines, "\n")
  }

  /** The prompt asks for the "判断/回复" format exactly when replies are on without fixed texts. */
  lemma PromptFormatChoice(c: AIMonitorConfig, msg: TelegramMessage)
    ensures StructuredRequested(c) <==> |PromptLines(c, msg)| == |MessageLines(c, msg)| + |StructuredFormat|
    ensures !StructuredRequested(c) <==> |PromptLines(c, msg)| == |MessageLines(c, msg)| + |PlainFormat|
  {
  }

  /** What the line scan of a structured answer has found so far. */
  datatype ScanState = ScanState(judgment: Option<bool>, reply: Option<string>)

  predicate IsReplyText(s: string)
  {
    s != "" && Strip(s) == s && s != "无"
  }

  /** The verdict of a "判断:" line: "yes" or "是" anywhere after the marker. */
  predicate JudgmentOf(line: string)
  {
    var part := Lower(Strip(RemoveAll(line, "判断:")));
    Contains(part, "yes") || Contains(part, "是")
  }

  /** The reply of a "回复:" line, unless it is empty or "无". */
  function ReplyOf(line: string): (r: Option<string>)
    ensures r.Some? ==> IsReplyText(r.value)
  {
    var part := Strip(RemoveAll(line, "回复:"));
    StripIdempotent(RemoveAll(line, "回复:"));
    if part != "" && part != "无" then Some(part) else None
  }

  /** One answer line, stripped: a "判断:" line sets the verdict, a "回复:" line may set the reply. */
  function ScanLine(st: ScanState, line: string): (r: ScanState)
    ensures r.reply == st.reply || (r.reply.Some? && IsReplyText(r.reply.value))
  {
    var l := Strip(line);
    if StartsWith(l, "判断:") then st.(judgment := Some(JudgmentOf(l)))
    else if StartsWith(l, "回复:") && ReplyOf(l).Some? then st.(reply := ReplyOf(l))
    else st
  }

  /** The scan over all lines, in order; later lines overwrite earlier findings. */
  function ScanLines(lines: seq<string>): (r: ScanState)
    ensures r.reply.Some? ==> IsReplyText(r.reply.value)
  {
    if lines == [] then ScanState(None, None)
    else ScanLine(ScanLines(lines[..|lines| - 1]), lines[|lines| - 1])
  }

  lemma ScanLinesSnoc(lines: seq<string>, i: nat)
    requires i < |lines|
    ensures ScanLines(lines[..i + 1]) == ScanLine(ScanLines(lines[..i]), lines[i])
  {
    assert lines[..i + 1][..i] == lines[..i];
  }

  /** The loop of `_parse_ai_response` over the stripped answer's lines. */
  method ScanStructured(response: string) returns (st: ScanState)
    ensures st == ScanLines(SplitOn(Strip(response), '\n'))
  {
    var lines := SplitOn(Strip(response), '\n');
    st := ScanState(None, None);
    var i := 0;
    while i < |lines|
      invariant 0 <= i <= |lines|
      invariant st == ScanLines(lines[..i])
    {
      st := ScanLine(st, lines[i]);
      ScanLinesSnoc(lines, i);
      i := i + 1;
    }
    assert lines[..i] == lines;
  }

  const PositiveKeywords: seq<string> := ["yes", "y", "是", "符合", "匹配", "true", "1", "match"]
  const NegativeKeywords: seq<string> := ["no", "n", "否", "不符合", "不匹配", "false", "0", "nomatch"]

  /**
   * The characters `re.sub(r'[^\w\s]', '', ...)` keeps: ASCII letters,
   * digits, '_', whitespace, and (approximating Unicode word characters)
   * every non-ASCII character.
   */
  predicate KeptByCleanup(c: char)
    ensures c == '.' || c == ',' || c == '!' || c == '?' || c == ':' || c == '\'' ==> !KeptByCleanup(c)
    ensures c as int >= 128 ==> KeptByCleanup(c)
  {
    IsAsciiLetter(c) || IsDigit(c) || c == '_' || IsSpace(c) || c as int >= 128
  }

  function KeepWordChars(s: string): (r: string)
    ensures |r| <= |s|
    ensures forall i :: 0 <= i < |r| ==> KeptByCleanup(r[i])
  {
    if s == [] then []
    else (if KeptByCleanup(s[0]) then [s[0]] else []) + KeepWordChars(s[1..])
  }

  /** The answer as the keyword sniffing sees it: lowercased, stripped, punctuation removed. */
  function Sniffed(response: string): string
  {
    KeepWordChars(Strip(Lower(response)))
  }

  /**
   * The keyword fallback: a positive keyword anywhere decides for a match;
   * the negative list only ever confirms the default of no match.
   */
  predicate FallbackVerdict(response: string)
    ensures Contains(Sniffed(response), "y") ==> FallbackVerdict(response)
    ensures Contains(Sniffed(response), "1") ==> FallbackVerdict(response)
  {
    assert PositiveKeywords[1] == "y" && PositiveKeywords[6] == "1";
    AnyContained(Sniffed(response), PositiveKeywords)
  }

  /** The parsed verdict and, for a structured answer, the reply text it carried. */
  datatype ParseOutcome = ParseOutcome(verdict: bool, reply: Option<string>)

  /** `_parse_ai_response` as a function of the answer. */
  function ParsedResponse(response: string): (r: ParseOutcome)
    ensures r.reply.Some? ==> IsReplyText(r.reply.value)
    ensures !(Contains(response, "判断:") && Contains(response, "回复:")) ==>
      r == ParseOutcome(FallbackVerdict(response), None)
  {
    if Contains(response, "判断:") && Contains(response, "回复:") then
      var st := ScanLines(SplitOn(Strip(response), '\n'));
      ParseOutcome(if st.judgment.Some? then st.judgment.value else FallbackVerdict(response), st.reply)
    else ParseOutcome(FallbackVerdict(response), None)
  }

  /** The keyword loops of the fallback: positive keywords first, then negative ones. */
  method SniffVerdict(response: string) returns (matched: bool)
    ensures matched == FallbackVerdict(response)
  {
    var cleaned := Sniffed(response);
    var positive := ScanKeywords(cleaned, PositiveKeywords);
    if positive {
      return true;
    }
    var negative := ScanKeywords(cleaned, NegativeKeywords);
    if negative {
      return false;
    }
    return false;
  }

  /** One keyword loop of the fallback: stops at the first keyword the text contains. */
  method ScanKeywords(cleaned: string, keywords: seq<string>) returns (found: bool)
    ensures found == AnyContained(cleaned, keywords)
  {
    var k := 0;
    while k < |keywords|
      invariant 0 <= k <= |keywords|
      invariant forall j :: 0 <= j < k ==> !Contains(cleaned, keywords[j])
    {
      if Contains(cleaned, keywords[k]) {
        return true;
      }
      k := k + 1;
    }
    return false;
  }

  /** `_parse_ai_response`: the structured scan when both markers occur, the keyword fallback otherwise. */
  method ParseAiResponse(response: string) returns (r: ParseOutcome)
    ensures r == ParsedResponse(response)
  {
    var reply: Option<string> := None;
    if Contains(response, "判断:") && Contains(response, "回复:") {
      var st := ScanStructured(response);
      reply := st.reply;
      if st.judgment.Some? {
        return ParseOutcome(st.judgment.value, reply);
      }
    }
    var verdict := SniffVerdict(response);
    r := ParseOutcome(verdict, reply);
  }

  /** "nomatch" contains "match", so the sniffing reads it as a match. */
  lemma NomatchCountsAsMatch(response: string)
    requires Contains(Sniffed(response), "nomatch")
    ensures FallbackVerdict(response)
  {
    assert "nomatch"[2..] == "match";
    assert StartsWith("nomatch"[2..], "match");
    ContainsTrans(Sniffed(response), "nomatch", "match");
    assert PositiveKeywords[7] == "match";
  }

  /** A "yes" anywhere outweighs any negative keyword. */
  lemma PositiveBeatsNegative(response: string)
    requires Contains(Sniffed(response), "yes")
    ensures FallbackVerdict(response)
  {
    assert PositiveKeywords[0] == "yes";
  }

  /**
   * `_match_condition`: no verdict without a configured service and a
   * non-empty answer; otherwise the answer is stored, replaced by the
   * structured reply when there is one, and parsed.
   */
  function MatchCondition(c: AIMonitorConfig, env: Environment): (r: (bool, AIMonitorConfig))
    ensures !env.aiConfigured || !Truthy(env.aiCompletion) ==> r == (false, c)
    ensures r.1 == c.(aiResponseContent := r.1.aiResponseContent)
    ensures env.aiConfigured && Truthy(env.aiCompletion) ==>
      r.0 == ParsedResponse(env.aiCompletion.value).verdict
      && r.1.aiResponseContent == Some(ParsedResponse(env.aiCompletion.value).reply.GetOr(env.aiCompletion.value))
  {
    if !env.aiConfigured || !Truthy(env.aiCompletion) then (false, c)
    else
      var response := env.aiCompletion.value;
      var parsed := ParsedResponse(response);
      (parsed.verdict, c.(aiResponseContent := Some(parsed.reply.GetOr(response))))
  }

  const VerdictTokens: seq<string> := ["yes", "no", "是", "否", "true", "false"]
  const SimpleResponses: seq<string> := ["yes", "no", "y", "n", "是", "否", "true", "false", "1", "0"]
  const VerdictPrefixes: seq<string> := ["yes,", "no,", "是,", "否,", "符合,", "不符合,", "匹配,", "不匹配,"]

  /** The index of the first prefix the lowercased text starts with. */
  function FirstPrefix(s: string, prefixes: seq<string>): (r: Option<nat>)
    ensures r.Some? ==> r.value < |prefixes| && StartsWith(Lower(s), Lower(prefixes[r.value]))
    ensures r.Some? ==> forall j :: 0 <= j < r.value ==> !StartsWith(Lower(s), Lower(prefixes[j]))
    ensures r.None? ==> forall j :: 0 <= j < |prefixes| ==> !StartsWith(Lower(s), Lower(prefixes[j]))
  {
    if prefixes == [] then None
    else if StartsWith(Lower(s), Lower(prefixes[0])) then Some(0)
    else
      var rest := FirstPrefix(s, prefixes[1..]);
      if rest.None? then None else Some(rest.value + 1)
  }

  /** The prefix loop: cut the first verdict prefix the text starts with, if any, and strip the rest. */
  function CutVerdictPrefix(trimmed: string): (r: string)
    requires Strip(trimmed) == trimmed
    ensures Strip(r) == r
    ensures FirstPrefix(trimmed, VerdictPrefixes).None? ==> r == trimmed
    ensures FirstPrefix(trimmed, VerdictPrefixes).Some? ==>
      r == Strip(trimmed[|VerdictPrefixes[FirstPrefix(trimmed, VerdictPrefixes).value]|..])
  {
    var p := FirstPrefix(trimmed, VerdictPrefixes);
    if p.Some? then
      StripIdempotent(trimmed[|VerdictPrefixes[p.value]|..]);
      Strip(trimmed[|VerdictPrefixes[p.value]|..])
    else trimmed
  }

  /** An answer that holds a verdict word, stripped: a bare verdict becomes "", otherwise one prefix is cut. */
  function CleanVerdictAnswer(response: string): (r: string)
    ensures Strip(r) == r
    ensures Strip(Lower(Strip(response))) in SimpleResponses ==> r == ""
    ensures Strip(Lower(Strip(response))) !in SimpleResponses ==> r == CutVerdictPrefix(Strip(response))
  {
    StripIdempotent(response);
    if Strip(Lower(Strip(response))) in SimpleResponses then "" else CutVerdictPrefix(Strip(response))
  }

  /** The first test of the reply cleaning: does the lowercased answer hold a verdict word? */
  predicate HasVerdictWord(response: string)
  {
    AnyContained(Lower(response), VerdictTokens)
  }

  /**
   * `_clean_ai_response_for_reply`: an answer without verdict words is only
   * stripped; a bare verdict becomes ""; otherwise at most one leading
   * verdict prefix is cut off.
   */
  function CleanForReply(response: string): (r: string)
    ensures response == "" ==> r == ""
    ensures Strip(r) == r
    ensures response != "" && !HasVerdictWord(response) ==> r == Strip(response)
    ensures response != "" && HasVerdictWord(response) ==> r == CleanVerdictAnswer(response)
  {
    if response == "" then ""
    else
      StripIdempotent(response);
      if !HasVerdictWord(response) then Strip(response)
      else CleanVerdictAnswer(response)
  }

  /** `get_dynamic_reply_content`: fixed texts first, else the cleaned stored answer when non-empty. */
  function DynamicReplyContent(c: AIMonitorConfig): (r: seq<string>)
    ensures c.reply.texts != [] ==> r == c.reply.texts
    ensures c.reply.texts == [] ==> |r| <= 1
    ensures c.reply.texts == [] && r != [] ==>
      Truthy(c.aiResponseContent) && r == [CleanForReply(c.aiResponseContent.value)] && r[0] != ""
  {
    if c.reply.texts != [] then c.reply.texts
    else if Truthy(c.aiResponseContent) && CleanForReply(c.aiResponseContent.value) != "" then
      [CleanForReply(c.aiResponseContent.value)]
    else []
  }

  /**
   * A structured reply without verdict words reaches the chat unchanged:
   * it is stored by the match and returned as the reply content.
   */
  lemma StructuredReplyIsSent(c: AIMonitorConfig, env: Environment, x: string)
    requires env.aiConfigured && Truthy(env.aiCompletion) && c.reply.texts == []
    requires ParsedResponse(env.aiCompletion.value).reply == Some(x)
    requires !HasVerdictWord(x)
    ensures DynamicReplyContent(MatchCondition(c, env).1) == [x]
  {
    CleanKeepsPlainReply(x);
  }

  /** A stripped, non-empty text without verdict words passes the reply cleaning unchanged. */
  lemma CleanKeepsPlainReply(x: string)
    requires IsReplyText(x) && !HasVerdictWord(x)
    ensures CleanForReply(x) == x
  {
  }

  /** An unconfigured AI service never matches and leaves the configuration untouched. */
  lemma UnconfiguredNeverMatches(c: AIMonitorConfig, env: Environment)
    requires !env.aiConfigured
    ensures MatchCondition(c, env) == (false, c)
  {
  }

  /** `_execute_custom_actions`: a single fixed entry. */
  function CustomActions(c: AIMonitorConfig): (r: seq<string>)
    ensures |r| == 1
  {
    ["AI判断匹配成功"]
  }

  /** The configuration a fresh builder starts from: the dataclass defaults after `__post_init__`. */
  const DefaultAiConfig: AIMonitorConfig :=
    AIMonitorConfig(DefaultBase, DefaultAiMonitorPrompt, "gpt-4o", 0.7, DefaultReply, None)

  /** `AIMonitorBuilder`: each `with_*` call sets its own field and nothing else. */
  class AIMonitorBuilder {
    var config: AIMonitorConfig

    constructor ()
      ensures config == DefaultAiConfig
    {
      config := DefaultAiConfig;
    }

    /** Sets the prompt as given; unlike construction, an empty prompt is kept. */
    method WithPrompt(prompt: string)
      modifies this
      ensures config == old(config).(aiPrompt := prompt)
    {
      config := config.(aiPrompt := prompt);
    }

    method WithChats(chatIds: seq<int>)
      modifies this
      ensures config == old(config).(base := old(config).base.(chats := chatIds))
    {
      config := config.(base := config.base.(chats := chatIds));
    }

    method WithEmailNotify(enabled: bool)
      modifies this
      ensures config == old(config).(base := old(config).base.(emailNotify := enabled))
    {
      config := config.(base := config.base.(emailNotify := enabled));
    }

    /** Forward targets are replaced only by a non-empty list. */
    method WithAutoForward(enabled: bool, targets: seq<int>)
      modifies this
      ensures config.base.autoForward == enabled
      ensures config.base.forwardTargets == (if targets != [] then targets else old(config).base.forwardTargets)
      ensures config == old(config).(base := old(config).base.(autoForward := config.base.autoForward,
                                                               forwardTargets := config.base.forwardTargets))
    {
      var b := config.base.(autoForward := enabled);
      if targets != [] {
        b := b.(forwardTargets := targets);
      }
      config := config.(base := b);
    }

    /** The size limit is replaced only by a truthy (present, non-zero) value. */
    method WithEnhancedForward(enabled: bool, maxSizeMb: Option<real>)
      modifies this
      ensures config.base.enhancedForward == enabled
      ensures config.base.maxDownloadSizeMb ==
        (if maxSizeMb.Some? && maxSizeMb.value != 0.0 then maxSizeMb else old(config).base.maxDownloadSizeMb)
      ensures config == old(config).(base := old(config).base.(enhancedForward := enabled,
                                                               maxDownloadSizeMb := config.base.maxDownloadSizeMb))
    {
      var b := config.base.(enhancedForward := enabled);
      if maxSizeMb.Some? && maxSizeMb.value != 0.0 {
        b := b.(maxDownloadSizeMb := maxSizeMb);
      }
      config := config.(base := b);
    }

    method WithConfidenceThreshold(threshold: real)
      modifies this
      ensures config == old(config).(confidenceThreshold := threshold)
    {
      config := config.(confidenceThreshold := threshold);
    }

    method WithMaxExecutions(maxExecutions: int)
      modifies this
      ensures config == old(config).(base := old(config).base.(quota := old(config).base.quota.(maxExecutions := Some(maxExecutions))))
    {
      config := config.(base := config.base.(quota := config.base.quota.(maxExecutions := Some(maxExecutions))));
    }

    /** Reply texts are replaced only by a non-empty list; the other reply settings always. */
    method WithReply(enabled: bool, texts: seq<string>, delayMin: real, delayMax: real, mode: ReplyMode)
      modifies this
      ensures config.reply == old(config).reply.(enabled := enabled, delayMin := delayMin, delayMax := delayMax, mode := mode,
                                                 texts := if texts != [] then texts else old(config).reply.texts)
      ensures config == old(config).(reply := config.reply)
    {
      var r := config.reply.(enabled := enabled, delayMin := delayMin, delayMax := delayMax, mode := mode);
      if texts != [] {
        r := r.(texts := texts);
      }
      config := config.(reply := r);
    }

    method WithPriority(priority: int)
      modifies this
      ensures config == old(config).(base := old(config).base.(priority := priority))
    {
      config := config.(base := config.base.(priority := priority));
    }

    method WithExecutionMode(mode: string)
      modifies this
      ensures config == old(config).(base := old(config).base.(executionMode := mode))
    {
      config := config.(base := config.base.(executionMode := mode));
    }

    /** `build`: the monitor is created on the accumulated configuration. */
    method Build() returns (c: AIMonitorConfig)
      ensures c == config
    {
      c := config;
    }
  }
}
