/**
 * Button monitor (monitors/button_monitor.py): which messages it reacts to
 * in manual and AI mode, and which button it then clicks.
 */
module ButtonMonitor {
  import opened Wrappers
  import opened PyStr
  import opened Config
  import opened Message
  import opened Effects

  /** `_manual_match`: the lowercased keyword occurs in some stripped, lowercased button text. */
  predicate ManualMatch(c: ButtonConfig, msg: TelegramMessage)
  {
    var texts := StrippedTexts(Flatten(msg.buttons));
    exists k :: 0 <= k < |texts| && Contains(Lower(texts[k]), Lower(c.buttonKeyword))
  }

  /**
   * `_match_condition`: AI mode accepts every message with a button row,
   * manual mode only those with a keyword hit.
   */
  predicate MatchCondition(c: ButtonConfig, msg: TelegramMessage)
    ensures !HasButtons(msg) ==> !MatchCondition(c, msg)
    ensures HasButtons(msg) && c.mode == Ai ==> MatchCondition(c, msg)
    ensures c.mode == Manual ==> (MatchCondition(c, msg) <==> HasButtons(msg) && ManualMatch(c, msg))
  {
    HasButtons(msg) && (c.mode == Ai || ManualMatch(c, msg))
  }

  /** The button `_click_manual_button` targets: the first whose lowercased text contains the keyword. */
  function ManualTarget(c: ButtonConfig, msg: TelegramMessage): Option<MessageButton>
  {
    FirstHit(Flatten(msg.buttons), Lower(c.buttonKeyword), false)
  }

  /**
   * Whenever the manual predicate matched, the click finds a button: a hit
   * in a stripped text is also a hit in the full text.
   */
  lemma ManualMatchHasTarget(c: ButtonConfig, msg: TelegramMessage)
    ensures ManualMatch(c, msg) ==> ManualTarget(c, msg).Some?
  {
    if ManualMatch(c, msg) {
      var bs := Flatten(msg.buttons);
      var texts := StrippedTexts(bs);
      var k :| 0 <= k < |texts| && Contains(Lower(texts[k]), Lower(c.buttonKeyword));
      ContainsInStripped(bs[k].text, Lower(c.buttonKeyword));
      LowerIdempotent(c.buttonKeyword);
      assert ButtonHit(bs[k], Lower(c.buttonKeyword), false);
      FirstHitIsEarliest(bs, Lower(c.buttonKeyword), false);
    }
  }

  /** `_click_manual_button`: a target exists and fetching and clicking the original message succeeded. */
  predicate ClickManual(c: ButtonConfig, msg: TelegramMessage, env: Environment)
    ensures ManualMatch(c, msg) && env.clickSucceeds ==> ClickManual(c, msg, env)
    ensures ClickManual(c, msg, env) ==> env.clickSucceeds && HasButtons(msg)
  {
    ManualMatchHasTarget(c, msg);
    ManualTarget(c, msg).Some? && env.clickSucceeds
  }

  /** `_click_ai_button`: the AI is configured, named a button, that button exists, and the click succeeded. */
  predicate ClickAi(msg: TelegramMessage, env: Environment)
    ensures ClickAi(msg, env) ==> env.aiConfigured && env.clickSucceeds && HasButtons(msg)
    ensures !Truthy(env.aiButtonChoice) ==> !ClickAi(msg, env)
  {
    env.aiConfigured && Truthy(env.aiButtonChoice)
    && FirstHit(Flatten(msg.buttons), env.aiButtonChoice.value, false).Some? && env.clickSucceeds
  }

  /** `_execute_custom_actions`: one entry, for the mode's click, only when that click succeeded. */
  function CustomActions(c: ButtonConfig, msg: TelegramMessage, env: Environment): (r: seq<string>)
    ensures |r| <= 1
    ensures c.mode == Manual ==> (r != [] <==> ClickManual(c, msg, env))
    ensures c.mode == Ai ==> (r != [] <==> ClickAi(msg, env))
  {
    match c.mode
    case Manual => if ClickManual(c, msg, env) then ["点击按钮（手动模式）"] else []
    case Ai => if ClickAi(msg, env) then ["点击按钮（AI模式）"] else []
  }

  /** In manual mode a matched message is clicked whenever the click itself succeeds. */
  lemma ManualMatchIsClicked(c: ButtonConfig, msg: TelegramMessage, env: Environment)
    requires c.mode == Manual && MatchCondition(c, msg) && env.clickSucceeds
    ensures CustomActions(c, msg, env) == ["点击按钮（手动模式）"]
  {
    ManualMatchHasTarget(c, msg);
  }
}
