/**
 * All-messages monitor (monitors/all_messages_monitor.py): it accepts every
 * message that passes the common filters and replies with fixed texts.
 */
module AllMessagesMonitor {
  import opened PyStr
  import opened Config
  import opened Message

  /** `_match_condition`: always true; the configured `chat_id` is not consulted. */
  predicate MatchCondition(c: AllMessagesConfig, msg: TelegramMessage)
    ensures MatchCondition(c, msg)
  {
    true
  }

  /** The chat id plays no part: only the base filters scope this monitor. */
  lemma ChatIdNotConsulted(c: AllMessagesConfig, msg: TelegramMessage, other: int)
    ensures MatchCondition(c.(chatId := other), msg) == MatchCondition(c, msg)
  {
  }

  /** `_execute_custom_actions` */
  function CustomActions(c: AllMessagesConfig): (r: seq<string>)
    ensures r == []
  {
    []
  }

  /** `get_dynamic_reply_content`: nothing for AI-generated replies, otherwise the configured texts. */
  function DynamicReplyContent(c: AllMessagesConfig): (r: seq<string>)
    ensures c.replyContentType == AiContent ==> r == []
    ensures c.replyContentType == Custom ==> r == c.reply.texts
  {
    if c.replyContentType == AiContent then [] else c.reply.texts
  }

  /** `_get_monitor_type_info`: a specific chat or all chats. */
  function TypeInfo(c: AllMessagesConfig): (r: string)
    ensures r == "(全聊天)" <==> c.chatId == 0
  {
    if c.chatId != 0 then
      var r := "(指定聊天:" + IntToString(c.chatId) + ")";
      assert r[1] == '指';
      r
    else "(全聊天)"
  }
}
