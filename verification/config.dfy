/**
 * Monitor configuration records (models/config.py): the enums with their
 * string coercion, the execution quota every monitor carries, the six
 * monitor-specific configurations and the `MonitorConfig` container.
 */
module Config {
  import opened Wrappers

  datatype MatchType = Exact | Partial | Regex
  datatype MonitorMode = Manual | Ai
  datatype ReplyMode = Reply | Send
  datatype ReplyContentType = Custom | AiContent

  function MatchTypeValue(m: MatchType): string
  {
    match m
    case Exact => "exact"
    case Partial => "partial"
    case Regex => "regex"
  }

  function MonitorModeValue(m: MonitorMode): string
  {
    match m
    case Manual => "manual"
    case Ai => "ai"
  }

  function ReplyModeValue(m: ReplyMode): string
  {
    match m
    case Reply => "reply"
    case Send => "send"
  }

  function ReplyContentTypeValue(t: ReplyContentType): string
  {
    match t
    case Custom => "custom"
    case AiContent => "ai"
  }

  /** `MatchType(s)`: the member whose value is `s`; any other string raises ValueError (None). */
  function ParseMatchType(s: string): (r: Option<MatchType>)
    ensures r.Some? ==> MatchTypeValue(r.value) == s
  {
    if s == "exact" then Some(Exact)
    else if s == "partial" then Some(Partial)
    else if s == "regex" then Some(Regex)
    else None
  }

  function ParseMonitorMode(s: string): (r: Option<MonitorMode>)
    ensures r.Some? ==> MonitorModeValue(r.value) == s
  {
    if s == "manual" then Some(Manual) else if s == "ai" then Some(Ai) else None
  }

  function ParseReplyMode(s: string): (r: Option<ReplyMode>)
    ensures r.Some? ==> ReplyModeValue(r.value) == s
  {
    if s == "reply" then Some(Reply) else if s == "send" then Some(Send) else None
  }

  function ParseReplyContentType(s: string): (r: Option<ReplyContentType>)
    ensures r.Some? ==> ReplyContentTypeValue(r.value) == s
  {
    if s == "custom" then Some(Custom) else if s == "ai" then Some(AiContent) else None
  }

  /** Every enum member is recovered from its string value, so coercion loses nothing. */
  lemma EnumValuesRoundTrip(m: MatchType, o: MonitorMode, p: ReplyMode, t: ReplyContentType)
    ensures ParseMatchType(MatchTypeValue(m)) == Some(m)
    ensures ParseMonitorMode(MonitorModeValue(o)) == Some(o)
    ensures ParseReplyMode(ReplyModeValue(p)) == Some(p)
    ensures ParseReplyContentType(ReplyContentTypeValue(t)) == Some(t)
  {
  }

  /** A dataclass field that may hold the enum member itself or its string value. */
  datatype EnumOrString<E> = Member(member: E) | Text(text: string)

  /** The `isinstance(v, str)` coercion of `__post_init__`; an unknown string raises (None). */
  function Coerce<E>(v: EnumOrString<E>, parse: string -> Option<E>): (r: Option<E>)
    ensures v.Member? ==> r == Some(v.member)
    ensures v.Text? ==> r == parse(v.text)
  {
    match v
    case Member(e) => Some(e)
    case Text(s) => parse(s)
  }

  /** The per-monitor execution limit: `max_executions` (None = unlimited) and `execution_count`. */
  datatype Quota = Quota(maxExecutions: Option<int>, executionCount: int)

  /** `is_execution_limit_reached`, shared by monitor and scheduled-message configs. */
  predicate LimitReached(q: Quota)
    ensures q.maxExecutions.None? ==> !LimitReached(q)
    ensures q.maxExecutions.Some? ==> (LimitReached(q) <==> q.executionCount >= q.maxExecutions.value)
  {
    q.maxExecutions.Some? && q.executionCount >= q.maxExecutions.value
  }

  /** `increment_execution` */
  function Increment(q: Quota): (r: Quota)
    ensures r.maxExecutions == q.maxExecutions
    ensures r.executionCount == q.executionCount + 1
  {
    q.(executionCount := q.executionCount + 1)
  }

  /** `reset_execution_count` */
  function Reset(q: Quota): (r: Quota)
    ensures r.maxExecutions == q.maxExecutions && r.executionCount == 0
  {
    q.(executionCount := 0)
  }

  function IncrementTimes(q: Quota, n: nat): (r: Quota)
  {
    if n == 0 then q else Increment(IncrementTimes(q, n - 1))
  }

  /** A limit of zero or less is reached before any execution. */
  lemma NonPositiveLimitReachedAtOnce(max: int)
    requires max <= 0
    ensures LimitReached(Quota(Some(max), 0))
  {
  }

  /** Starting from 0 with limit `max`, the limit is reached exactly after `max` increments. */
  lemma {:induction false} ReachedAfterIncrements(max: int, n: nat)
    ensures IncrementTimes(Quota(Some(max), 0), n) == Quota(Some(max), n)
    ensures LimitReached(IncrementTimes(Quota(Some(max), 0), n)) <==> n >= max
  {
    if n > 0 {
      ReachedAfterIncrements(max, n - 1);
    }
  }

  /** Once reached, a limit stays reached under further increments. */
  lemma IncrementKeepsReached(q: Quota)
    requires LimitReached(q)
    ensures LimitReached(Increment(q))
  {
  }

  /** Resetting clears a reached limit exactly when the limit is positive. */
  lemma ResetClearsPositiveLimit(q: Quota)
    requires q.maxExecutions.Some?
    ensures LimitReached(Reset(q)) <==> q.maxExecutions.value <= 0
  {
  }

  /** A user entry of `users`: Python allows `int` or `str`. */
  datatype UserRef = UserId(id: int) | UserName(name: string)

  datatype BaseMonitorConfig = BaseMonitorConfig(
    chats: seq<int>,
    users: seq<UserRef>,
    userOption: Option<string>,
    blockedUsers: seq<string>,
    blockedChannels: seq<int>,
    blockedBots: seq<int>,
    botIds: seq<int>,
    channelIds: seq<int>,
    groupIds: seq<int>,
    emailNotify: bool,
    autoForward: bool,
    forwardTargets: seq<int>,
    logFile: Option<string>,
    quota: Quota,
    enhancedForward: bool,
    maxDownloadSizeMb: Option<real>,
    priority: int,
    active: bool,
    executionMode: string)

  /** The dataclass defaults of `BaseMonitorConfig`. */
  const DefaultBase: BaseMonitorConfig := BaseMonitorConfig(
    [], [], None, [], [], [], [], [], [], false, false, [], None, Quota(None, 0), false, None, 50, true, "merge")

  /** `pause_and_reset`: deactivate and zero the count; every other field is kept. */
  function PauseAndReset(c: BaseMonitorConfig): (r: BaseMonitorConfig)
    ensures !r.active && r.quota == Reset(c.quota)
    ensures r.(active := c.active, quota := c.quota) == c
  {
    c.(active := false, quota := Reset(c.quota))
  }

  /** Reply settings shared by the keyword, all-messages and AI configurations. */
  datatype ReplySettings = ReplySettings(
    enabled: bool,
    texts: seq<string>,
    delayMin: real,
    delayMax: real,
    mode: ReplyMode,
    aiReplyPrompt: string)

  /** The reply defaults: disabled, no texts, no delay, reply mode. */
  const DefaultReply: ReplySettings := ReplySettings(false, [], 0.0, 0.0, Reply, "")

  datatype KeywordConfig = KeywordConfig(
    base: BaseMonitorConfig,
    keyword: string,
    matchType: MatchType,
    reply: ReplySettings,
    replyContentType: ReplyContentType,
    regexSendTargetId: Option<int>,
    regexSendRandomOffset: int,
    regexSendDelete: bool,
    matchedKeyword: Option<string>)

  datatype FileConfig = FileConfig(
    base: BaseMonitorConfig,
    fileExtension: string,
    saveFolder: Option<string>,
    minSize: Option<real>,
    maxSize: Option<real>)

  datatype ButtonConfig = ButtonConfig(
    base: BaseMonitorConfig,
    buttonKeyword: string,
    mode: MonitorMode,
    aiPrompt: string)

  datatype AllMessagesConfig = AllMessagesConfig(
    base: BaseMonitorConfig,
    chatId: int,
    reply: ReplySettings,
    replyContentType: ReplyContentType)

  datatype ImageButtonConfig = ImageButtonConfig(
    base: BaseMonitorConfig,
    aiPrompt: string,
    buttonKeywords: seq<string>,
    downloadImages: bool,
    autoReply: bool)

  /** AIMonitorConfig has no `reply_content_type` field. */
  datatype AIMonitorConfig = AIMonitorConfig(
    base: BaseMonitorConfig,
    aiPrompt: string,
    aiModel: string,
    confidenceThreshold: real,
    reply: ReplySettings,
    aiResponseContent: Option<string>)

  /** The configuration of one registered monitor, tagged by its dataclass. */
  datatype TypedConfig =
    | KeywordCfg(keywordCfg: KeywordConfig)
    | FileCfg(fileCfg: FileConfig)
    | ButtonCfg(buttonCfg: ButtonConfig)
    | AllMessagesCfg(allMessagesCfg: AllMessagesConfig)
    | ImageButtonCfg(imageButtonCfg: ImageButtonConfig)
    | AIMonitorCfg(aiCfg: AIMonitorConfig)
  {
    function Base(): BaseMonitorConfig
    {
      match this
      case KeywordCfg(c) => c.base
      case FileCfg(c) => c.base
      case ButtonCfg(c) => c.base
      case AllMessagesCfg(c) => c.base
      case ImageButtonCfg(c) => c.base
      case AIMonitorCfg(c) => c.base
    }

    /** The same configuration with its base part replaced. */
    function WithBase(b: BaseMonitorConfig): (r: TypedConfig)
      ensures r.Base() == b
    {
      match this
      case KeywordCfg(c) => KeywordCfg(c.(base := b))
      case FileCfg(c) => FileCfg(c.(base := b))
      case ButtonCfg(c) => ButtonCfg(c.(base := b))
      case AllMessagesCfg(c) => AllMessagesCfg(c.(base := b))
      case ImageButtonCfg(c) => ImageButtonCfg(c.(base := b))
      case AIMonitorCfg(c) => AIMonitorCfg(c.(base := b))
    }
  }

  /** Replacing the base keeps the kind and every kind-specific field. */
  lemma WithBaseKeepsKind(c: TypedConfig, b: BaseMonitorConfig)
    ensures c.WithBase(b).WithBase(c.Base()) == c
  {
  }

  /**
   * `FileConfig.is_size_valid`: both bounds are optional and inclusive; with
   * both set a size is valid iff it lies in the closed interval, without
   * bounds every size is valid.
   */
  predicate IsSizeValid(c: FileConfig, sizeMb: real)
    ensures c.minSize.Some? && c.maxSize.Some? ==>
      (IsSizeValid(c, sizeMb) <==> c.minSize.value <= sizeMb <= c.maxSize.value)
    ensures c.minSize.None? && c.maxSize.None? ==> IsSizeValid(c, sizeMb)
    ensures c.minSize.Some? && sizeMb == c.minSize.value && (c.maxSize.None? || sizeMb <= c.maxSize.value) ==> IsSizeValid(c, sizeMb)
  {
    !(c.minSize.Some? && sizeMb < c.minSize.value) && !(c.maxSize.Some? && sizeMb > c.maxSize.value)
  }

  /** `KeywordConfig.__post_init__`: coerces the three enum fields or fails on an unknown value. */
  function KeywordPostInit(
    c: KeywordConfig,
    matchType: EnumOrString<MatchType>,
    replyMode: EnumOrString<ReplyMode>,
    contentType: EnumOrString<ReplyContentType>): (r: Option<KeywordConfig>)
    ensures r.Some? <==>
      Coerce(matchType, ParseMatchType).Some? && Coerce(replyMode, ParseReplyMode).Some?
      && Coerce(contentType, ParseReplyContentType).Some?
    ensures r.Some? ==> r.value.keyword == c.keyword && r.value.base == c.base
    ensures r.Some? ==>
      r.value == c.(matchType := r.value.matchType, reply := c.reply.(mode := r.value.reply.mode),
                    replyContentType := r.value.replyContentType)
    ensures r.Some? && matchType.Text? ==> MatchTypeValue(r.value.matchType) == matchType.text
    ensures r.Some? && matchType.Member? ==> r.value.matchType == matchType.member
    ensures r.Some? && replyMode.Text? ==> ReplyModeValue(r.value.reply.mode) == replyMode.text
    ensures r.Some? && replyMode.Member? ==> r.value.reply.mode == replyMode.member
    ensures r.Some? && contentType.Text? ==> ReplyContentTypeValue(r.value.replyContentType) == contentType.text
    ensures r.Some? && contentType.Member? ==> r.value.replyContentType == contentType.member
  {
    var m := Coerce(matchType, ParseMatchType);
    var p := Coerce(replyMode, ParseReplyMode);
    var t := Coerce(contentType, ParseReplyContentType);
    if m.None? || p.None? || t.None? then None
    else Some(c.(matchType := m.value, reply := c.reply.(mode := p.value), replyContentType := t.value))
  }

  /** `ButtonConfig.__post_init__` */
  function ButtonPostInit(c: ButtonConfig, mode: EnumOrString<MonitorMode>): (r: Option<ButtonConfig>)
    ensures r.Some? <==> Coerce(mode, ParseMonitorMode).Some?
    ensures r.Some? && mode.Text? ==> MonitorModeValue(r.value.mode) == mode.text
    ensures r.Some? && mode.Member? ==> r.value.mode == mode.member
    ensures r.Some? ==> r.value == c.(mode := r.value.mode)
    ensures r.Some? ==> r.value.buttonKeyword == c.buttonKeyword && r.value.base == c.base
  {
    var m := Coerce(mode, ParseMonitorMode);
    if m.None? then None else Some(c.(mode := m.value))
  }

  /** `AllMessagesConfig.__post_init__` */
  function AllMessagesPostInit(
    c: AllMessagesConfig,
    replyMode: EnumOrString<ReplyMode>,
    contentType: EnumOrString<ReplyContentType>): (r: Option<AllMessagesConfig>)
    ensures r.Some? <==> Coerce(replyMode, ParseReplyMode).Some? && Coerce(contentType, ParseReplyContentType).Some?
    ensures r.Some? && contentType.Text? ==> ReplyContentTypeValue(r.value.replyContentType) == contentType.text
    ensures r.Some? && contentType.Member? ==> r.value.replyContentType == contentType.member
    ensures r.Some? && replyMode.Text? ==> ReplyModeValue(r.value.reply.mode) == replyMode.text
    ensures r.Some? && replyMode.Member? ==> r.value.reply.mode == replyMode.member
    ensures r.Some? ==> r.value == c.(reply := c.reply.(mode := r.value.reply.mode), replyContentType := r.value.replyContentType)
    ensures r.Some? ==> r.value.chatId == c.chatId && r.value.base == c.base
  {
    var p := Coerce(replyMode, ParseReplyMode);
    var t := Coerce(contentType, ParseReplyContentType);
    if p.None? || t.None? then None
    else Some(c.(reply := c.reply.(mode := p.value), replyContentType := t.value))
  }

  const DefaultImageButtonPrompt: string := "分析图片和按钮内容，判断是否需要点击某个按钮"
  const DefaultAiMonitorPrompt: string := "请判断以下消息是否符合监控条件，回答 yes 或 no"

  /** `ImageButtonConfig.__post_init__`: a missing keyword list becomes empty. */
  function ImageButtonPostInit(
    base: BaseMonitorConfig, aiPrompt: string, buttonKeywords: Option<seq<string>>,
    downloadImages: bool, autoReply: bool): (r: ImageButtonConfig)
    ensures buttonKeywords.None? ==> r.buttonKeywords == []
    ensures buttonKeywords.Some? ==> r.buttonKeywords == buttonKeywords.value
  {
    ImageButtonConfig(base, aiPrompt, buttonKeywords.GetOr([]), downloadImages, autoReply)
  }

  /** `AIMonitorConfig.__post_init__`: the prompt is never empty afterwards. */
  function AIMonitorPostInit(c: AIMonitorConfig, replyMode: EnumOrString<ReplyMode>): (r: Option<AIMonitorConfig>)
    ensures r.Some? <==> Coerce(replyMode, ParseReplyMode).Some?
    ensures r.Some? ==> r.value.aiPrompt != ""
    ensures r.Some? && c.aiPrompt != "" ==> r.value.aiPrompt == c.aiPrompt
    ensures r.Some? && c.aiPrompt == "" ==> r.value.aiPrompt == DefaultAiMonitorPrompt
    ensures r.Some? && replyMode.Text? ==> ReplyModeValue(r.value.reply.mode) == replyMode.text
    ensures r.Some? && replyMode.Member? ==> r.value.reply.mode == replyMode.member
    ensures r.Some? ==> r.value == c.(aiPrompt := r.value.aiPrompt, reply := c.reply.(mode := r.value.reply.mode))
  {
    var p := Coerce(replyMode, ParseReplyMode);
    if p.None? then None
    else
      var prompt := if c.aiPrompt == "" then DefaultAiMonitorPrompt else c.aiPrompt;
      Some(c.(aiPrompt := prompt, reply := c.reply.(mode := p.value)))
  }

  /**
   * `ScheduledMessageConfig`: it uses the same quota (limit predicate and
   * increment) as a monitor configuration.
   */
  datatype ScheduledMessageConfig = ScheduledMessageConfig(
    jobId: string,
    targetId: int,
    message: string,
    cron: string,
    randomOffset: int,
    deleteAfterSending: bool,
    accountId: Option<string>,
    quota: Quota,
    useAi: bool,
    aiPrompt: Option<string>,
    scheduleMode: string)

  /** The container of per-kind configurations; keyword and file tables are edited in place. */
  class MonitorConfig {
    var keywordConfigs: map<string, KeywordConfig>
    var fileConfigs: map<string, FileConfig>
    var buttonConfigs: map<string, ButtonConfig>
    var allMessageConfigs: map<int, AllMessagesConfig>
    var aiMonitorConfigs: map<string, AIMonitorConfig>
    var imageButtonConfigs: seq<ImageButtonConfig>
    var scheduledMessageConfigs: seq<ScheduledMessageConfig>
    var channelInGroupConfigs: seq<int>

    constructor ()
      ensures keywordConfigs == map[] && fileConfigs == map[] && buttonConfigs == map[]
      ensures allMessageConfigs == map[] && aiMonitorConfigs == map[]
      ensures imageButtonConfigs == [] && scheduledMessageConfigs == [] && channelInGroupConfigs == []
    {
      keywordConfigs, fileConfigs, buttonConfigs := map[], map[], map[];
      allMessageConfigs, aiMonitorConfigs := map[], map[];
      imageButtonConfigs, scheduledMessageConfigs, channelInGroupConfigs := [], [], [];
    }

    method AddKeywordConfig(keyword: string, config: KeywordConfig)
      modifies this`keywordConfigs
      ensures keywordConfigs == old(keywordConfigs)[keyword := config]
    {
      keywordConfigs := keywordConfigs[keyword := config];
    }

    /** Deletes only `keyword`; reports whether it was present. */
    method RemoveKeywordConfig(keyword: string) returns (removed: bool)
      modifies this`keywordConfigs
      ensures removed <==> keyword in old(keywordConfigs)
      ensures keywordConfigs == old(keywordConfigs) - {keyword}
    {
      removed := keyword in keywordConfigs;
      if removed {
        keywordConfigs := keywordConfigs - {keyword};
      }
    }

    function GetKeywordConfig(keyword: string): (r: Option<KeywordConfig>)
      reads this
      ensures r.Some? <==> keyword in keywordConfigs
      ensures r.Some? ==> r.value == keywordConfigs[keyword]
    {
      if keyword in keywordConfigs then Some(keywordConfigs[keyword]) else None
    }

    method AddFileConfig(extension: string, config: FileConfig)
      modifies this`fileConfigs
      ensures fileConfigs == old(fileConfigs)[extension := config]
    {
      fileConfigs := fileConfigs[extension := config];
    }

    /** Deletes only `extension`; reports whether it was present. */
    method RemoveFileConfig(extension: string) returns (removed: bool)
      modifies this`fileConfigs
      ensures removed <==> extension in old(fileConfigs)
      ensures fileConfigs == old(fileConfigs) - {extension}
    {
      removed := extension in fileConfigs;
      if removed {
        fileConfigs := fileConfigs - {extension};
      }
    }

    function GetFileConfig(extension: string): (r: Option<FileConfig>)
      reads this
      ensures r.Some? <==> extension in fileConfigs
      ensures r.Some? ==> r.value == fileConfigs[extension]
    {
      if extension in fileConfigs then Some(fileConfigs[extension]) else None
    }
  }

  /** A removal undoes an addition of a fresh key: the table is as before. */
  lemma RemoveUndoesAdd<K, V>(m: map<K, V>, k: K, v: V)
    requires k !in m
    ensures (m[k := v]) - {k} == m
  {
  }
}
