/**
 * The monitor template (monitors/base_monitor.py): the fixed guard chain of
 * `process_message`, the sender/chat/user filters, the precise-id filter
 * with its "-100" channel-id arithmetic, and the block lists.
 */
module BaseMonitor {
  import opened Wrappers
  import opened PyStr
  import opened Config
  import opened Message

  datatype MonitorResult = NoMatch | Matched | Blocked | LimitReachedResult | Error

  datatype MonitorAction = MonitorAction(result: MonitorResult, actionsTaken: seq<string>)

  /** `str(u)` for an entry of `users`. */
  function UserString(u: UserRef): string
  {
    match u
    case UserId(i) => IntToString(i)
    case UserName(s) => s
  }

  predicate InUsers(users: seq<UserRef>, s: string)
  {
    exists k :: 0 <= k < |users| && UserString(users[k]) == s
  }

  predicate InUsersLower(users: seq<UserRef>, s: string)
  {
    exists k :: 0 <= k < |users| && Lower(UserString(users[k])) == s
  }

  /** `str(sender.id)` with a leading "-100" removed, as option '1' also accepts it. */
  function ShortId(sid: string): string
  {
    if StartsWith(sid, "-100") then sid[4..] else sid
  }

  /**
   * `_match_user_filter`. Option '2' lowercases the sender's username; a
   * sender without one makes `None.lower()` raise, which is the `Err` case.
   */
  function MatchUserFilter(cfg: BaseMonitorConfig, sender: MessageSender): (r: Result<bool, string>)
    ensures cfg.users == [] ==> r == Ok(true)
    ensures r.Err? ==> cfg.userOption == Some("2") && sender.username.None?
    ensures cfg.users != [] && cfg.userOption == Some("1") ==>
      r == Ok(InUsers(cfg.users, IntToString(sender.id)) || InUsers(cfg.users, ShortId(IntToString(sender.id))))
    ensures cfg.users != [] && cfg.userOption !in {Some("1"), Some("2"), Some("3")} ==> r == Ok(true)
  {
    if cfg.users == [] then Ok(true)
    else if cfg.userOption == Some("1") then
      var sid := IntToString(sender.id);
      Ok(InUsers(cfg.users, sid) || InUsers(cfg.users, ShortId(sid)))
    else if cfg.userOption == Some("2") then
      if sender.username.None? then Err("AttributeError")
      else Ok(InUsersLower(cfg.users, Lower(sender.username.value)))
    else if cfg.userOption == Some("3") then
      var full := Strip(sender.firstName.GetOr("") + " " + sender.lastName.GetOr(""));
      Ok(InUsers(cfg.users, full))
    else Ok(true)
  }

  /** An integer user entry equal to the sender id admits that sender under option '1'. */
  lemma UserIdAdmitsSender(cfg: BaseMonitorConfig, sender: MessageSender, k: nat)
    requires cfg.userOption == Some("1") && k < |cfg.users| && cfg.users[k] == UserId(sender.id)
    ensures MatchUserFilter(cfg, sender) == Ok(true)
  {
  }

  /** Under option '1' only the decimal text counts: entries are compared as `str(u)`. */
  lemma UserIdFilterIsTextual(cfg: BaseMonitorConfig, sender: MessageSender)
    requires cfg.userOption == Some("1") && cfg.users != []
    requires forall k :: 0 <= k < |cfg.users| ==> cfg.users[k].UserId? && cfg.users[k].id != sender.id
    requires !StartsWith(IntToString(sender.id), "-100")
    ensures MatchUserFilter(cfg, sender) == Ok(false)
  {
    var sid := IntToString(sender.id);
    forall k | 0 <= k < |cfg.users| ensures UserString(cfg.users[k]) != sid {
      if UserString(cfg.users[k]) == sid {
        IntToStringInjective(cfg.users[k].id, sender.id);
      }
    }
  }

  const ChannelOffset: int := 1000000000000

  function Abs(x: int): nat { if x < 0 then -x else x }

  /** One entry of `channel_ids` against the message, in the three forms the loop tries. */
  predicate ChannelIdMatches(cid: int, chatId: int, senderId: int)
  {
    chatId == cid
    || (cid < 0 && StartsWith(IntToString(cid), "-100") && senderId == Abs(cid) - ChannelOffset)
    || cid == -ChannelOffset - Abs(senderId)
  }

  predicate GroupIdMatches(gid: int, chatId: int, senderId: int)
  {
    senderId == gid || chatId == gid
  }

  predicate HasSpecificIds(cfg: BaseMonitorConfig)
  {
    cfg.botIds != [] || cfg.channelIds != [] || cfg.groupIds != []
  }

  /**
   * Reference definition of `_match_chat_filter`: inert without precise ids,
   * otherwise some listed bot, channel or group id must match.
   * `senderIsBot` is the sender flag the bot branch reads.
   */
  predicate ChatFilter(cfg: BaseMonitorConfig, chatId: int, senderId: int, senderIsBot: bool)
  {
    !HasSpecificIds(cfg)
    || (cfg.botIds != [] && senderIsBot && senderId in cfg.botIds)
    || (exists k :: 0 <= k < |cfg.channelIds| && ChannelIdMatches(cfg.channelIds[k], chatId, senderId))
    || (exists k :: 0 <= k < |cfg.groupIds| && GroupIdMatches(cfg.groupIds[k], chatId, senderId))
  }

  /** The loop of `_match_chat_filter`, scanning the id lists with early exits. */
  method MatchChatFilter(cfg: BaseMonitorConfig, chatId: int, senderId: int, senderIsBot: bool) returns (ok: bool)
    ensures ok == ChatFilter(cfg, chatId, senderId, senderIsBot)
  {
    if !HasSpecificIds(cfg) {
      return true;
    }
    var idMatched := false;
    if cfg.botIds != [] && senderIsBot && senderId in cfg.botIds {
      idMatched := true;
    }
    var channelHit := false;
    var i := 0;
    while i < |cfg.channelIds| && !channelHit
      invariant 0 <= i <= |cfg.channelIds|
      invariant channelHit <==> exists k :: 0 <= k < i && ChannelIdMatches(cfg.channelIds[k], chatId, senderId)
    {
      var cid := cfg.channelIds[i];
      if chatId == cid {
        channelHit := true;
      } else if cid < 0 && StartsWith(IntToString(cid), "-100") && senderId == Abs(cid) - ChannelOffset {
        channelHit := true;
      } else if cid == -ChannelOffset - Abs(senderId) {
        channelHit := true;
      }
      i := i + 1;
    }
    var groupHit := false;
    var j := 0;
    while j < |cfg.groupIds| && !groupHit
      invariant 0 <= j <= |cfg.groupIds|
      invariant groupHit <==> exists k :: 0 <= k < j && GroupIdMatches(cfg.groupIds[k], chatId, senderId)
    {
      if senderId == cfg.groupIds[j] || chatId == cfg.groupIds[j] {
        groupHit := true;
      }
      j := j + 1;
    }
    ok := idMatched || channelHit || groupHit;
  }

  /** A channel listed in "-100…" full form admits the bare channel id as sender. */
  lemma FullChannelIdAdmitsSender(cfg: BaseMonitorConfig, chatId: int, senderId: int, senderIsBot: bool)
    requires -ChannelOffset - Abs(senderId) in cfg.channelIds
    ensures ChatFilter(cfg, chatId, senderId, senderIsBot)
  {
    var k :| 0 <= k < |cfg.channelIds| && cfg.channelIds[k] == -ChannelOffset - Abs(senderId);
    assert ChannelIdMatches(cfg.channelIds[k], chatId, senderId);
  }

  /** With precise ids configured, a message no listed id matches is filtered out. */
  lemma ChatFilterRejectsUnlisted(cfg: BaseMonitorConfig, chatId: int, senderId: int, senderIsBot: bool)
    requires HasSpecificIds(cfg)
    requires !senderIsBot || senderId !in cfg.botIds
    requires chatId !in cfg.channelIds && chatId !in cfg.groupIds && senderId !in cfg.groupIds
    requires -ChannelOffset - Abs(senderId) !in cfg.channelIds
    requires forall k :: 0 <= k < |cfg.channelIds| ==> cfg.channelIds[k] >= 0 || senderId != Abs(cfg.channelIds[k]) - ChannelOffset
    ensures !ChatFilter(cfg, chatId, senderId, senderIsBot)
  {
    forall k | 0 <= k < |cfg.channelIds| ensures !ChannelIdMatches(cfg.channelIds[k], chatId, senderId) {
      assert cfg.channelIds[k] in cfg.channelIds;
    }
    forall k | 0 <= k < |cfg.groupIds| ensures !GroupIdMatches(cfg.groupIds[k], chatId, senderId) {
      assert cfg.groupIds[k] in cfg.groupIds;
    }
  }

  /**
   * The bot flag exactly as `_match_chat_filter` reads it:
   * `getattr(sender, 'bot', False)`. `MessageSender` has no `bot`
   * attribute (its flag is `is_bot`), so the read is always False.
   */
  function SenderBotAttributeAsWritten(s: MessageSender): bool
  {
    false
  }

  /** The flag the bot branch evidently means: the sender's `is_bot`. */
  function SenderIsBot(s: MessageSender): bool
  {
    s.isBot
  }

  /** As written, a filter listing only bot ids rejects every message, even from a listed bot. */
  lemma BotIdsNeverAdmitAsWritten(cfg: BaseMonitorConfig, chatId: int, s: MessageSender)
    requires cfg.botIds != [] && cfg.channelIds == [] && cfg.groupIds == []
    ensures !ChatFilter(cfg, chatId, s.id, SenderBotAttributeAsWritten(s))
  {
  }

  /** With the `is_bot` flag, a listed bot is admitted, and only listed bots are. */
  lemma BotIdsAdmitListedBots(cfg: BaseMonitorConfig, chatId: int, s: MessageSender)
    requires cfg.botIds != [] && cfg.channelIds == [] && cfg.groupIds == []
    ensures ChatFilter(cfg, chatId, s.id, SenderIsBot(s)) <==> s.isBot && s.id in cfg.botIds
  {
  }

  /**
   * `_should_process`: own messages and messages outside `chats` are
   * dropped, then the user filter (which may raise) and the chat filter,
   * which reads the bot flag as the code does (`getattr(sender, 'bot', False)`).
   */
  function ShouldProcess(cfg: BaseMonitorConfig, msg: TelegramMessage, ownUserId: Option<int>): (r: Result<bool, string>)
    ensures ownUserId == Some(msg.sender.id) ==> r == Ok(false)
    ensures cfg.chats != [] && msg.chatId !in cfg.chats ==> r == Ok(false)
    ensures r == Ok(true) ==>
      MatchUserFilter(cfg, msg.sender) == Ok(true) && ChatFilter(cfg, msg.chatId, msg.sender.id, SenderBotAttributeAsWritten(msg.sender))
  {
    if ownUserId == Some(msg.sender.id) then Ok(false)
    else if cfg.chats != [] && msg.chatId !in cfg.chats then Ok(false)
    else
      match MatchUserFilter(cfg, msg.sender)
      case Err(e) => Err(e)
      case Ok(false) => Ok(false)
      case Ok(true) => Ok(ChatFilter(cfg, msg.chatId, msg.sender.id, SenderBotAttributeAsWritten(msg.sender)))
  }

  /** Python truthiness of an optional id: present and non-zero. */
  predicate TruthyId(x: Option<int>)
  {
    x.Some? && x.value != 0
  }

  /** `_is_blocked` */
  predicate IsBlocked(cfg: BaseMonitorConfig, msg: TelegramMessage)
  {
    IntToString(msg.sender.id) in cfg.blockedUsers
    || (msg.sender.isBot && msg.sender.id in cfg.blockedBots)
    || msg.chatId in cfg.blockedChannels
    || (TruthyId(msg.forwardFromChannelId) && msg.forwardFromChannelId.value in cfg.blockedChannels)
  }

  /** A bot listed in `blocked_bots` is blocked; a human with the same id is not blocked by that list. */
  lemma BlockedBotsOnlyBlockBots(cfg: BaseMonitorConfig, msg: TelegramMessage)
    requires cfg.blockedUsers == [] && cfg.blockedChannels == []
    ensures IsBlocked(cfg, msg) <==> msg.sender.isBot && msg.sender.id in cfg.blockedBots
  {
  }

  /** `_execute_actions`: the custom actions, or a single error entry when they raise. */
  function ExecuteActions(custom: Result<seq<string>, string>): (r: seq<string>)
    ensures custom.Ok? ==> r == custom.value
    ensures custom.Err? ==> |r| == 1
  {
    match custom
    case Ok(actions) => actions
    case Err(e) => ["执行动作出错: " + e]
  }

  /**
   * `process_message`: the guard chain. `condition` is the outcome of the
   * monitor's `_match_condition` and `custom` of its custom actions; they
   * are consulted only when every guard before them passed.
   */
  function ProcessMessage(
    cfg: BaseMonitorConfig, msg: TelegramMessage, ownUserId: Option<int>,
    condition: Result<bool, string>, custom: Result<seq<string>, string>): (r: MonitorAction)
    ensures !cfg.active ==> r == MonitorAction(NoMatch, [])
    ensures r.result == Matched <==>
      cfg.active && ShouldProcess(cfg, msg, ownUserId) == Ok(true) && !IsBlocked(cfg, msg)
      && !LimitReached(cfg.quota) && condition == Ok(true)
    ensures r.result == Blocked <==>
      cfg.active && ShouldProcess(cfg, msg, ownUserId) == Ok(true) && IsBlocked(cfg, msg)
    ensures r.result == LimitReachedResult <==>
      cfg.active && ShouldProcess(cfg, msg, ownUserId) == Ok(true) && !IsBlocked(cfg, msg) && LimitReached(cfg.quota)
    ensures r.result != Matched ==> r.actionsTaken == []
    ensures r.result == Matched ==> r.actionsTaken == ExecuteActions(custom)
  {
    if !cfg.active then MonitorAction(NoMatch, [])
    else
      match ShouldProcess(cfg, msg, ownUserId)
      case Err(_) => MonitorAction(Error, [])
      case Ok(false) => MonitorAction(NoMatch, [])
      case Ok(true) =>
        if IsBlocked(cfg, msg) then MonitorAction(Blocked, [])
        else if LimitReached(cfg.quota) then MonitorAction(LimitReachedResult, [])
        else
          match condition
          case Err(_) => MonitorAction(Error, [])
          case Ok(false) => MonitorAction(NoMatch, [])
          case Ok(true) => MonitorAction(Matched, ExecuteActions(custom))
  }

  /** A blocked message is reported as BLOCKED even when the quota is exhausted: blocking is checked first. */
  lemma BlockedBeforeLimit(cfg: BaseMonitorConfig, msg: TelegramMessage, ownUserId: Option<int>,
                           condition: Result<bool, string>, custom: Result<seq<string>, string>)
    requires cfg.active && ShouldProcess(cfg, msg, ownUserId) == Ok(true)
    requires IsBlocked(cfg, msg) && LimitReached(cfg.quota)
    ensures ProcessMessage(cfg, msg, ownUserId, condition, custom).result == Blocked
  {
  }

  /** The account's own messages never match, whatever the monitor's predicate says. */
  lemma OwnMessagesNeverMatch(cfg: BaseMonitorConfig, msg: TelegramMessage, condition: Result<bool, string>,
                              custom: Result<seq<string>, string>)
    ensures ProcessMessage(cfg, msg, Some(msg.sender.id), condition, custom).result == NoMatch
  {
  }

  /**
   * The bot-id finding seen from `process_message`: a monitor whose only
   * precise ids are bot ids never matches, not even a listed bot.
   */
  lemma BotOnlyFilterNeverMatches(cfg: BaseMonitorConfig, msg: TelegramMessage, ownUserId: Option<int>,
                                  condition: Result<bool, string>, custom: Result<seq<string>, string>)
    requires cfg.botIds != [] && cfg.channelIds == [] && cfg.groupIds == []
    ensures ProcessMessage(cfg, msg, ownUserId, condition, custom).result != Matched
  {
    BotIdsNeverAdmitAsWritten(cfg, msg.chatId, msg.sender);
  }
}
