/**
 * The action records of the monitor engine (core/monitor_engine.py): what
 * one matched monitor asks for (`_collect_monitor_actions`), how the
 * requests of several merge-mode monitors are folded into one record
 * (`_merge_monitor_actions`), what executing a record delivers
 * (`_execute_merged_actions`, Telegram and SMTP calls replaced by their
 * outcomes) and how the quota of each executed monitor is counted.
 */
module EngineActions {
  import opened Wrappers
  import opened PyStr
  import opened Config
  import opened Message
  import KeywordMonitor
  import AllMessagesMonitor
  import AiMonitor

  /** The reply part of an action record. */
  datatype ReplyPlan = ReplyPlan(
    enabled: bool,
    texts: seq<string>,
    delayMin: real,
    delayMax: real,
    mode: ReplyMode,
    contentType: ReplyContentType,
    aiReplyPrompt: string)

  /** The reply part of a fresh record: disabled, custom content, no texts, no delay. */
  const NoReplyPlan: ReplyPlan := ReplyPlan(false, [], 0.0, 0.0, Reply, Custom, "")

  /** The action dictionary handed to `_execute_merged_actions`. */
  datatype ActionSet = ActionSet(
    emailNotify: bool,
    forwardTargets: set<int>,
    enhancedForward: bool,
    logFiles: set<string>,
    reply: ReplyPlan)

  /** The `merge_actions` record before any monitor was merged. */
  const EmptyActions: ActionSet := ActionSet(false, {}, false, {}, NoReplyPlan)

  /** `set(xs)` */
  function SetOf(xs: seq<int>): (r: set<int>)
    ensures forall x :: x in r <==> x in xs
  {
    set x | x in xs
  }

  /**
   * The reply attributes of a configuration class that has `reply_enabled`
   * (keyword, all-messages and AI configurations): the settings, the content
   * type (`AIMonitorConfig` has none, so `getattr` yields "custom") and the
   * monitor's `get_dynamic_reply_content()`.
   */
  datatype ReplySource = ReplySource(settings: ReplySettings, contentType: ReplyContentType, dynamic: seq<string>)

  function ReplySourceOf(c: TypedConfig): (r: Option<ReplySource>)
    ensures r.Some? <==> c.KeywordCfg? || c.AllMessagesCfg? || c.AIMonitorCfg?
  {
    match c
    case KeywordCfg(k) => Some(ReplySource(k.reply, k.replyContentType, KeywordMonitor.DynamicReplyContent(k)))
    case AllMessagesCfg(a) => Some(ReplySource(a.reply, a.replyContentType, AllMessagesMonitor.DynamicReplyContent(a)))
    case AIMonitorCfg(a) => Some(ReplySource(a.reply, Custom, AiMonitor.DynamicReplyContent(a)))
    case _ => None
  }

  /** `hasattr(config, 'reply_enabled') and config.reply_enabled` */
  predicate ReplyEnabled(c: TypedConfig)
  {
    ReplySourceOf(c).Some? && ReplySourceOf(c).value.settings.enabled
  }

  /** The reply part `_collect_monitor_actions` builds: the dynamic texts when there are any, else the configured ones. */
  function CollectedReply(src: ReplySource): (p: ReplyPlan)
    ensures p.enabled && p.contentType == src.contentType && p.aiReplyPrompt == src.settings.aiReplyPrompt
    ensures p.texts == (if src.dynamic != [] then src.dynamic else src.settings.texts)
    ensures p.delayMin == src.settings.delayMin && p.delayMax == src.settings.delayMax && p.mode == src.settings.mode
  {
    ReplyPlan(true, if src.dynamic != [] then src.dynamic else src.settings.texts,
              src.settings.delayMin, src.settings.delayMax, src.settings.mode, src.contentType, src.settings.aiReplyPrompt)
  }

  /**
   * The reply part `_merge_monitor_actions` builds for the first reply-enabled
   * monitor. Unlike the single-monitor record, a monitor with neither dynamic
   * nor configured texts but with an AI reply prompt switches the record to
   * AI content.
   */
  function MergedReply(src: ReplySource): (p: ReplyPlan)
    ensures p.enabled && p.aiReplyPrompt == src.settings.aiReplyPrompt
    ensures p.delayMin == src.settings.delayMin && p.delayMax == src.settings.delayMax && p.mode == src.settings.mode
    ensures src.dynamic != [] ==> p.texts == src.dynamic && p.contentType == src.contentType
    ensures src.dynamic == [] && src.settings.texts == [] && src.settings.aiReplyPrompt != "" ==>
      p.texts == [] && p.contentType == AiContent
    ensures src.dynamic == [] && !(src.settings.texts == [] && src.settings.aiReplyPrompt != "") ==>
      p.texts == src.settings.texts && p.contentType == src.contentType
  {
    var s := src.settings;
    if src.dynamic != [] then ReplyPlan(true, src.dynamic, s.delayMin, s.delayMax, s.mode, src.contentType, s.aiReplyPrompt)
    else if s.texts == [] && s.aiReplyPrompt != "" then ReplyPlan(true, [], s.delayMin, s.delayMax, s.mode, AiContent, s.aiReplyPrompt)
    else ReplyPlan(true, s.texts, s.delayMin, s.delayMax, s.mode, src.contentType, s.aiReplyPrompt)
  }

  /** The single-monitor and the merged reply part differ only when the AI prompt fallback applies. */
  lemma CollectedAndMergedReply(src: ReplySource)
    ensures CollectedReply(src) != MergedReply(src) <==>
      src.dynamic == [] && src.settings.texts == [] && src.settings.aiReplyPrompt != "" && src.contentType == Custom
  {
  }

  /** Whether a monitor contributes forward targets to a merged record: auto-forward on and a non-empty target list. */
  predicate Forwards(b: BaseMonitorConfig)
  {
    b.autoForward && b.forwardTargets != []
  }

  /** `_collect_monitor_actions`: the record of one matched monitor. */
  function Collect(c: TypedConfig): (a: ActionSet)
    ensures a.emailNotify == c.Base().emailNotify
    ensures forall t :: t in a.forwardTargets <==> c.Base().autoForward && t in c.Base().forwardTargets
    ensures a.enhancedForward <==> c.Base().autoForward && c.Base().enhancedForward
    ensures forall l :: l in a.logFiles <==> c.Base().logFile == Some(l) && l != ""
    ensures a.reply.enabled <==> ReplyEnabled(c)
    ensures ReplyEnabled(c) ==> a.reply == CollectedReply(ReplySourceOf(c).value)
  {
    var b := c.Base();
    ActionSet(
      b.emailNotify,
      if b.autoForward then SetOf(b.forwardTargets) else {},
      b.autoForward && b.enhancedForward,
      if Truthy(b.logFile) then {b.logFile.value} else {},
      if ReplyEnabled(c) then CollectedReply(ReplySourceOf(c).value) else NoReplyPlan)
  }

  /** `_merge_monitor_actions`: fold one more matched monitor into the record. */
  function Merge(acc: ActionSet, c: TypedConfig): (a: ActionSet)
  {
    var b := c.Base();
    ActionSet(
      acc.emailNotify || b.emailNotify,
      if Forwards(b) then acc.forwardTargets + SetOf(b.forwardTargets) else acc.forwardTargets,
      acc.enhancedForward || (Forwards(b) && b.enhancedForward),
      if Truthy(b.logFile) then acc.logFiles + {b.logFile.value} else acc.logFiles,
      if !acc.reply.enabled && ReplyEnabled(c) then MergedReply(ReplySourceOf(c).value) else acc.reply)
  }

  /** The record after merging `cs` in order into a fresh one. */
  function MergeAll(cs: seq<TypedConfig>): ActionSet
  {
    if cs == [] then EmptyActions else Merge(MergeAll(cs[..|cs| - 1]), cs[|cs| - 1])
  }

  lemma MergeAllSnoc(cs: seq<TypedConfig>, c: TypedConfig)
    ensures MergeAll(cs + [c]) == Merge(MergeAll(cs), c)
  {
    assert (cs + [c])[..|cs|] == cs;
  }

  /** A merged record notifies by e-mail iff some merged monitor does. */
  lemma {:induction false} MergeAllEmail(cs: seq<TypedConfig>)
    ensures MergeAll(cs).emailNotify <==> exists i :: 0 <= i < |cs| && cs[i].Base().emailNotify
  {
    if cs != [] {
      var init := cs[..|cs| - 1];
      MergeAllEmail(init);
      if MergeAll(init).emailNotify {
        var i :| 0 <= i < |init| && init[i].Base().emailNotify;
        assert cs[i] == init[i];
      }
      if exists i :: 0 <= i < |cs| && cs[i].Base().emailNotify {
        var i :| 0 <= i < |cs| && cs[i].Base().emailNotify;
        if i < |init| {
          assert init[i] == cs[i];
        }
      }
    }
  }

  /** The merged targets are the union of the targets of the monitors that forward. */
  lemma {:induction false} MergeAllTargets(cs: seq<TypedConfig>, t: int)
    ensures t in MergeAll(cs).forwardTargets <==>
      exists i :: 0 <= i < |cs| && Forwards(cs[i].Base()) && t in cs[i].Base().forwardTargets
  {
    if cs != [] {
      var init := cs[..|cs| - 1];
      MergeAllTargets(init, t);
      if t in MergeAll(init).forwardTargets {
        var i :| 0 <= i < |init| && Forwards(init[i].Base()) && t in init[i].Base().forwardTargets;
        assert cs[i] == init[i];
      }
      if exists i :: 0 <= i < |cs| && Forwards(cs[i].Base()) && t in cs[i].Base().forwardTargets {
        var i :| 0 <= i < |cs| && Forwards(cs[i].Base()) && t in cs[i].Base().forwardTargets;
        if i < |init| {
          assert init[i] == cs[i];
        }
      }
    }
  }

  /** Only a monitor that forwards can switch a merged record to enhanced forwarding. */
  lemma {:induction false} MergeAllEnhanced(cs: seq<TypedConfig>)
    ensures MergeAll(cs).enhancedForward <==>
      exists i :: 0 <= i < |cs| && Forwards(cs[i].Base()) && cs[i].Base().enhancedForward
  {
    if cs != [] {
      var init := cs[..|cs| - 1];
      MergeAllEnhanced(init);
      if MergeAll(init).enhancedForward {
        var i :| 0 <= i < |init| && Forwards(init[i].Base()) && init[i].Base().enhancedForward;
        assert cs[i] == init[i];
      }
      if exists i :: 0 <= i < |cs| && Forwards(cs[i].Base()) && cs[i].Base().enhancedForward {
        var i :| 0 <= i < |cs| && Forwards(cs[i].Base()) && cs[i].Base().enhancedForward;
        if i < |init| {
          assert init[i] == cs[i];
        }
      }
    }
  }

  /** The merged log files are the non-empty log paths of the merged monitors. */
  lemma {:induction false} MergeAllLogs(cs: seq<TypedConfig>, l: string)
    ensures l in MergeAll(cs).logFiles <==> exists i :: 0 <= i < |cs| && cs[i].Base().logFile == Some(l) && l != ""
  {
    if cs != [] {
      var init := cs[..|cs| - 1];
      MergeAllLogs(init, l);
      if l in MergeAll(init).logFiles {
        var i :| 0 <= i < |init| && init[i].Base().logFile == Some(l) && l != "";
        assert cs[i] == init[i];
      }
      if exists i :: 0 <= i < |cs| && cs[i].Base().logFile == Some(l) && l != "" {
        var i :| 0 <= i < |cs| && cs[i].Base().logFile == Some(l) && l != "";
        if i < |init| {
          assert init[i] == cs[i];
        }
      }
    }
  }

  /** Without any reply-enabled monitor, a merged record has the fresh reply part. */
  lemma {:induction false} MergeAllNoReply(cs: seq<TypedConfig>)
    requires forall i :: 0 <= i < |cs| ==> !ReplyEnabled(cs[i])
    ensures MergeAll(cs).reply == NoReplyPlan
  {
    if cs != [] {
      var init := cs[..|cs| - 1];
      assert forall i :: 0 <= i < |init| ==> init[i] == cs[i];
      MergeAllNoReply(init);
    }
  }

  /**
   * The reply part of a merged record comes from the first reply-enabled
   * monitor; later monitors never override it.
   */
  lemma {:induction false} MergeAllFirstReply(cs: seq<TypedConfig>, f: nat)
    requires f < |cs| && ReplyEnabled(cs[f])
    requires forall i :: 0 <= i < f ==> !ReplyEnabled(cs[i])
    ensures MergeAll(cs).reply == MergedReply(ReplySourceOf(cs[f]).value)
  {
    var init := cs[..|cs| - 1];
    assert forall i :: 0 <= i < |init| ==> init[i] == cs[i];
    if f == |cs| - 1 {
      MergeAllNoReply(init);
    } else {
      MergeAllFirstReply(init, f);
    }
  }

  /** What a reply attempt found when the record has replies enabled. */
  datatype ReplyOutcome =
    | NoReply
    | Skipped
    | Attempted(text: string, mode: ReplyMode, delay: real)

  /**
   * The outcomes of the calls `_execute_merged_actions` makes: whether the AI
   * service is configured and what it answered, the index `random.choice`
   * picks, the fraction of the range `random.uniform` lands on, and whether
   * the enhanced forward service returned without raising.
   */
  datatype ExecEnv = ExecEnv(aiConfigured: bool, aiReply: Option<string>, choice: nat, u: real, enhancedForwardOk: bool)

  /** `random.uniform(min, max)` when max > min, else min. */
  function Delay(p: ReplyPlan, u: real): real
  {
    if p.delayMax > p.delayMin then p.delayMin + (p.delayMax - p.delayMin) * u else p.delayMin
  }

  /** The delay is the minimum when the range is empty, and inside the range otherwise. */
  lemma DelayBounds(p: ReplyPlan, u: real)
    requires 0.0 <= u <= 1.0
    ensures p.delayMax <= p.delayMin ==> Delay(p, u) == p.delayMin
    ensures p.delayMax > p.delayMin ==> p.delayMin <= Delay(p, u) <= p.delayMax
  {
    if p.delayMax > p.delayMin {
      var w := p.delayMax - p.delayMin;
      assert w * u <= w * 1.0 by {
        assert w * (1.0 - u) >= 0.0;
      }
    }
  }

  /**
   * The text a reply would carry; None where `_execute_merged_actions` returns
   * before replying: AI content with a prompt but no configured service or an
   * empty answer, or custom content without texts.
   */
  function ReplyText(p: ReplyPlan, e: ExecEnv): (r: Option<string>)
    ensures p.contentType == AiContent && p.aiReplyPrompt != "" ==>
      (r.Some? <==> e.aiConfigured && Truthy(e.aiReply))
    ensures !(p.contentType == AiContent && p.aiReplyPrompt != "") ==>
      (r.Some? <==> p.texts != []) && (r.Some? ==> r.value in p.texts)
  {
    if p.contentType == AiContent && p.aiReplyPrompt != "" then
      if !e.aiConfigured || !Truthy(e.aiReply) then None else Some(Strip(e.aiReply.value))
    else if p.texts != [] then Some(p.texts[e.choice % |p.texts|])
    else None
  }

  function ReplyOutcomeOf(p: ReplyPlan, e: ExecEnv): (r: ReplyOutcome)
    ensures !p.enabled <==> r.NoReply?
    ensures r.Attempted? ==> r.text != "" && r.mode == p.mode && r.delay == Delay(p, e.u)
    ensures r.Skipped? <==> p.enabled && (ReplyText(p, e).None? || ReplyText(p, e) == Some(""))
  {
    if !p.enabled then NoReply
    else
      match ReplyText(p, e)
      case None => Skipped
      case Some(t) => if t == "" then Skipped else Attempted(t, p.mode, Delay(p, e.u))
  }

  /**
   * What executing one record did: whether an e-mail was requested, the
   * forward targets and whether the enhanced service was used, the log files
   * written, the reply, and whether the matched monitors were counted.
   */
  datatype Delivery = Delivery(
    email: bool,
    forwardTo: set<int>,
    enhanced: bool,
    logs: set<string>,
    reply: ReplyOutcome,
    counted: bool)

  /**
   * `_execute_merged_actions` without its I/O. Targets equal to the message's
   * chat are dropped; an enhanced forward that raises ends the execution in
   * the outer handler; a reply without content returns early; in both cases
   * no monitor is counted.
   */
  function Execute(a: ActionSet, chatId: int, e: ExecEnv): (d: Delivery)
    ensures d.email == a.emailNotify
    ensures d.forwardTo == a.forwardTargets - {chatId}
    ensures d.enhanced <==> d.forwardTo != {} && a.enhancedForward
    ensures d.counted ==> d.logs == a.logFiles && !d.reply.Skipped?
    ensures d.counted <==> !(d.enhanced && !e.enhancedForwardOk) && !ReplyOutcomeOf(a.reply, e).Skipped?
  {
    var targets := a.forwardTargets - {chatId};
    var enhanced := targets != {} && a.enhancedForward;
    if enhanced && !e.enhancedForwardOk then Delivery(a.emailNotify, targets, true, {}, NoReply, false)
    else
      var r := ReplyOutcomeOf(a.reply, e);
      Delivery(a.emailNotify, targets, enhanced, a.logFiles, r, !r.Skipped?)
  }

  /** The message's own chat never receives a forward. */
  lemma NoForwardToSource(a: ActionSet, chatId: int, e: ExecEnv)
    ensures chatId !in Execute(a, chatId, e).forwardTo
  {
  }

  /**
   * A reply-enabled record with no reply text (no AI prompt and no texts, an
   * unconfigured AI service, an empty AI answer) counts no monitor.
   */
  lemma NoReplyTextCountsNothing(a: ActionSet, chatId: int, e: ExecEnv)
    requires a.reply.enabled && ReplyText(a.reply, e).None?
    ensures !Execute(a, chatId, e).counted
  {
  }

  /**
   * The quota update after an execution: the count goes up by one, and a
   * monitor whose limit is now reached is paused with its count reset.
   */
  function CountedBase(b: BaseMonitorConfig): (r: BaseMonitorConfig)
    ensures r.quota.maxExecutions == b.quota.maxExecutions
    ensures r.(active := b.active, quota := b.quota) == b
  {
    var b1 := b.(quota := Increment(b.quota));
    if LimitReached(b1.quota) then PauseAndReset(b1) else b1
  }

  /** After counting, either the count went up by one below the limit, or the monitor is paused with count 0. */
  lemma CountedBaseOutcome(b: BaseMonitorConfig)
    ensures var r := CountedBase(b);
      (r.quota.executionCount == b.quota.executionCount + 1 && r.active == b.active && !LimitReached(r.quota))
      || (r.quota.executionCount == 0 && !r.active && LimitReached(Increment(b.quota)))
  {
  }

  /** A positive limit that has not been reached is still not reached after counting. */
  lemma CountingStaysBelowLimit(b: BaseMonitorConfig)
    requires b.quota.maxExecutions.Some? && b.quota.maxExecutions.value >= 1
    requires 0 <= b.quota.executionCount < b.quota.maxExecutions.value
    ensures 0 <= CountedBase(b).quota.executionCount < CountedBase(b).quota.maxExecutions.value
  {
  }

  /** `config.increment_execution()` and the pause check, on the monitor at position `i`. */
  function CountOne(ms: seq<TypedConfig>, i: nat): (r: seq<TypedConfig>)
    requires i < |ms|
    ensures |r| == |ms|
  {
    ms[i := ms[i].WithBase(CountedBase(ms[i].Base()))]
  }

  /** The counting loop over the matched monitors, in order. */
  function CountAll(ms: seq<TypedConfig>, idx: seq<nat>): (r: seq<TypedConfig>)
    requires forall k :: 0 <= k < |idx| ==> idx[k] < |ms|
    ensures |r| == |ms|
    decreases |idx|
  {
    if idx == [] then ms else CountAll(CountOne(ms, idx[0]), idx[1..])
  }

  /** Counting leaves every monitor outside the matched list as it was. */
  lemma {:induction false} CountAllOthers(ms: seq<TypedConfig>, idx: seq<nat>, j: nat)
    requires forall k :: 0 <= k < |idx| ==> idx[k] < |ms|
    requires j < |ms| && j !in idx
    ensures CountAll(ms, idx)[j] == ms[j]
    decreases |idx|
  {
    if idx != [] {
      CountAllOthers(CountOne(ms, idx[0]), idx[1..], j);
    }
  }

  /** Counting a list of distinct monitors counts each listed monitor exactly once. */
  lemma {:induction false} CountAllListed(ms: seq<TypedConfig>, idx: seq<nat>, k: nat)
    requires forall m :: 0 <= m < |idx| ==> idx[m] < |ms|
    requires forall m, n :: 0 <= m < n < |idx| ==> idx[m] != idx[n]
    requires k < |idx|
    ensures CountAll(ms, idx)[idx[k]] == ms[idx[k]].WithBase(CountedBase(ms[idx[k]].Base()))
    decreases |idx|
  {
    var ms1 := CountOne(ms, idx[0]);
    if k == 0 {
      CountAllOthers(ms1, idx[1..], idx[0]);
    } else {
      CountAllListed(ms1, idx[1..], k - 1);
    }
  }
}
