/**
 * The scheduled-message entries of the monitor engine
 * (core/monitor_engine.py): the dictionary `add_scheduled_message` stores,
 * the guard chain of `_execute_scheduled_message` with the account, AI
 * service and Telegram calls replaced by their outcomes, and the count and
 * pause bookkeeping after a successful send.
 */
module ScheduledJobs {
  import opened Wrappers
  import opened PyStr
  import opened Config
  import opened Message

  /** One entry of `scheduled_messages`. */
  datatype ScheduledEntry = ScheduledEntry(
    jobId: string,
    targetId: int,
    message: string,
    cron: string,
    accountId: Option<string>,
    randomOffset: int,
    deleteAfterSending: bool,
    maxExecutions: Option<int>,
    executionCount: int,
    active: bool,
    useAi: bool,
    aiPrompt: Option<string>,
    scheduleMode: string)

  /** The entry `add_scheduled_message` builds: count 0 and active, whatever count the configuration carried. */
  function EntryOf(c: ScheduledMessageConfig): (e: ScheduledEntry)
    ensures e.executionCount == 0 && e.active
    ensures e.jobId == c.jobId && e.targetId == c.targetId && e.message == c.message && e.accountId == c.accountId
    ensures e.maxExecutions == c.quota.maxExecutions && e.useAi == c.useAi && e.aiPrompt == c.aiPrompt
  {
    ScheduledEntry(c.jobId, c.targetId, c.message, c.cron, c.accountId, c.randomOffset, c.deleteAfterSending,
                   c.quota.maxExecutions, 0, true, c.useAi, c.aiPrompt, c.scheduleMode)
  }

  /** `if max_executions`: None and 0 are both "no limit". */
  predicate TruthyMax(m: Option<int>)
  {
    m.Some? && m.value != 0
  }

  /** The limit test of `_execute_scheduled_message`. */
  predicate LimitHit(e: ScheduledEntry)
  {
    TruthyMax(e.maxExecutions) && e.executionCount >= e.maxExecutions.value
  }

  /**
   * A `max_executions` of 0 is no limit for the engine, although the
   * configuration's own `is_execution_limit_reached` treats it as reached.
   */
  lemma ZeroMaxIsNoLimit(e: ScheduledEntry)
    requires e.maxExecutions == Some(0) && e.executionCount >= 0
    ensures !LimitHit(e)
    ensures LimitReached(Quota(e.maxExecutions, e.executionCount))
  {
  }

  /** The first entry with `jobId`, searched from position `i` on. */
  function FirstJobFrom(entries: seq<ScheduledEntry>, jobId: string, i: nat): (r: Option<nat>)
    requires i <= |entries|
    ensures r.Some? ==> (i <= r.value < |entries| && entries[r.value].jobId == jobId
                         && forall k :: i <= k < r.value ==> entries[k].jobId != jobId)
    ensures r.None? ==> forall k :: i <= k < |entries| ==> entries[k].jobId != jobId
    decreases |entries| - i
  {
    if i == |entries| then None
    else if entries[i].jobId == jobId then Some(i)
    else FirstJobFrom(entries, jobId, i + 1)
  }

  /** The entry the `for msg in self.scheduled_messages` loop stops at. */
  function FirstJob(entries: seq<ScheduledEntry>, jobId: string): (r: Option<nat>)
    ensures r.Some? ==> (r.value < |entries| && entries[r.value].jobId == jobId
                         && forall k :: 0 <= k < r.value ==> entries[k].jobId != jobId)
    ensures r.None? ==> forall k :: 0 <= k < |entries| ==> entries[k].jobId != jobId
  {
    FirstJobFrom(entries, jobId, 0)
  }

  /**
   * The outcomes of the calls a firing makes: whether the account exists
   * with a client, whether the AI service is configured and what it
   * answered (None when it raised or returned nothing), whether the target
   * entity was found, and whether the send succeeded.
   */
  datatype FireEnv = FireEnv(
    accountReady: bool,
    aiConfigured: bool,
    aiReply: Option<string>,
    entityFound: bool,
    sendSucceeds: bool)

  /** How one firing of a job ended. */
  datatype FireOutcome =
    | JobNotFound
    | Paused
    | LimitStop
    | Incomplete
    | NoAccount
    | NoAiText
    | EmptyText
    | TargetUnreachable
    | SendFailed
    | Sent(text: string)

  /** The job asks for AI content: `use_ai` and a truthy `ai_prompt`. */
  predicate UsesAi(e: ScheduledEntry)
  {
    e.useAi && Truthy(e.aiPrompt)
  }

  /** The AI produced usable content: a configured service and a non-blank answer. */
  predicate AiAnswered(env: FireEnv)
  {
    env.aiConfigured && env.aiReply.Some? && Strip(env.aiReply.value) != ""
  }

  /** The text that would be sent: the stripped AI answer, or the stored message as it is. */
  function TextToSend(e: ScheduledEntry, env: FireEnv): (r: string)
    ensures !UsesAi(e) || !AiAnswered(env) ==> r == e.message
    ensures UsesAi(e) && AiAnswered(env) ==> r != "" && Strip(r) == r
  {
    if UsesAi(e) && AiAnswered(env) then
      StripIdempotent(env.aiReply.value);
      Strip(env.aiReply.value)
    else e.message
  }

  /** The guard chain of `_execute_scheduled_message` for a job that exists. */
  function FireOutcomeOf(e: ScheduledEntry, env: FireEnv): (r: FireOutcome)
    ensures r.Sent? <==> (e.active && !LimitHit(e) && Truthy(e.accountId) && e.targetId != 0 && env.accountReady
                          && (UsesAi(e) ==> AiAnswered(env)) && Strip(TextToSend(e, env)) != ""
                          && env.entityFound && env.sendSucceeds)
    ensures r.Sent? ==> r.text == TextToSend(e, env) && Strip(r.text) != ""
    ensures !e.active ==> r == Paused
    ensures e.active && LimitHit(e) ==> r == LimitStop
  {
    if !e.active then Paused
    else if LimitHit(e) then LimitStop
    else if !Truthy(e.accountId) || e.targetId == 0 then Incomplete
    else if !env.accountReady then NoAccount
    else if UsesAi(e) && !AiAnswered(env) then NoAiText
    else if Strip(TextToSend(e, env)) == "" then EmptyText
    else if !env.entityFound then TargetUnreachable
    else if !env.sendSucceeds then SendFailed
    else Sent(TextToSend(e, env))
  }

  /** The bookkeeping after a successful send: one more execution, paused once a truthy limit is reached. */
  function AfterSend(e: ScheduledEntry): (r: ScheduledEntry)
    ensures r.executionCount == e.executionCount + 1
    ensures r.active <==> e.active && !(TruthyMax(e.maxExecutions) && r.executionCount >= e.maxExecutions.value)
    ensures r.(executionCount := e.executionCount, active := e.active) == e
  {
    var n := e.executionCount + 1;
    e.(executionCount := n, active := e.active && !(TruthyMax(e.maxExecutions) && n >= e.maxExecutions.value))
  }

  /**
   * The entries and the outcome after firing `jobId`: only a send changes an
   * entry, and only the first entry with that id.
   */
  function Fired(entries: seq<ScheduledEntry>, jobId: string, env: FireEnv): (r: (seq<ScheduledEntry>, FireOutcome))
  {
    match FirstJob(entries, jobId)
    case None => (entries, JobNotFound)
    case Some(i) =>
      var outcome := FireOutcomeOf(entries[i], env);
      if outcome.Sent? then (entries[i := AfterSend(entries[i])], outcome) else (entries, outcome)
  }

  /**
   * A job with a positive limit never counts past it, and while it is active
   * its count stays below it.
   */
  predicate WithinLimit(e: ScheduledEntry)
  {
    e.maxExecutions.Some? && e.maxExecutions.value >= 1 ==>
      0 <= e.executionCount <= e.maxExecutions.value
      && (e.active ==> e.executionCount < e.maxExecutions.value)
  }

  predicate AllWithinLimit(entries: seq<ScheduledEntry>)
  {
    forall k :: 0 <= k < |entries| ==> WithinLimit(entries[k])
  }

  /** A freshly added job is within its limit. */
  lemma NewEntryWithinLimit(c: ScheduledMessageConfig)
    ensures WithinLimit(EntryOf(c))
  {
  }

  /** Firing keeps every job within its limit. */
  lemma FiringKeepsLimits(entries: seq<ScheduledEntry>, jobId: string, env: FireEnv)
    requires AllWithinLimit(entries)
    ensures AllWithinLimit(Fired(entries, jobId, env).0)
  {
    match FirstJob(entries, jobId)
    case None =>
    case Some(i) =>
      var e := entries[i];
      if FireOutcomeOf(e, env).Sent? {
        assert WithinLimit(e);
        assert WithinLimit(AfterSend(e));
        var r := entries[i := AfterSend(e)];
        forall k | 0 <= k < |r| ensures WithinLimit(r[k]) {
          if k != i {
            assert r[k] == entries[k];
          }
        }
      }
  }

  /**
   * Every firing that does not send (unknown or paused job, limit reached,
   * missing account or target, no AI text, blank text, failed delivery)
   * leaves every entry as it was.
   */
  lemma UnsentFiringChangesNothing(entries: seq<ScheduledEntry>, jobId: string, env: FireEnv)
    requires !Fired(entries, jobId, env).1.Sent?
    ensures Fired(entries, jobId, env).0 == entries
  {
  }

  /** A job whose truthy limit is reached is stopped before anything is sent, with its count unchanged. */
  lemma LimitStopsBeforeSending(entries: seq<ScheduledEntry>, jobId: string, env: FireEnv, i: nat)
    requires FirstJob(entries, jobId) == Some(i)
    requires entries[i].active && LimitHit(entries[i])
    ensures Fired(entries, jobId, env) == (entries, LimitStop)
  {
  }

  /** `remove_scheduled_message`: every entry with `jobId` goes. */
  function WithoutJob(entries: seq<ScheduledEntry>, jobId: string): (r: seq<ScheduledEntry>)
    ensures |r| <= |entries|
    ensures forall k :: 0 <= k < |r| ==> r[k].jobId != jobId && r[k] in entries
    ensures forall e :: e in entries && e.jobId != jobId ==> e in r
  {
    if entries == [] then []
    else
      var rest := WithoutJob(entries[1..], jobId);
      if entries[0].jobId == jobId then rest else [entries[0]] + rest
  }

  /** Removal shortens the list iff some entry had the id. */
  lemma {:induction false} WithoutJobShorter(entries: seq<ScheduledEntry>, jobId: string)
    ensures |WithoutJob(entries, jobId)| < |entries| <==> exists k :: 0 <= k < |entries| && entries[k].jobId == jobId
  {
    if entries != [] {
      WithoutJobShorter(entries[1..], jobId);
      if exists k :: 0 <= k < |entries[1..]| && entries[1..][k].jobId == jobId {
        var k :| 0 <= k < |entries[1..]| && entries[1..][k].jobId == jobId;
        assert entries[k + 1].jobId == jobId;
      }
      if exists k :: 0 <= k < |entries| && entries[k].jobId == jobId {
        var k :| 0 <= k < |entries| && entries[k].jobId == jobId;
        if k > 0 {
          assert entries[1..][k - 1].jobId == jobId;
        }
      }
    }
  }

  /** Removal keeps every job within its limit. */
  lemma RemovalKeepsLimits(entries: seq<ScheduledEntry>, jobId: string)
    requires AllWithinLimit(entries)
    ensures AllWithinLimit(WithoutJob(entries, jobId))
  {
    var r := WithoutJob(entries, jobId);
    forall k | 0 <= k < |r| ensures WithinLimit(r[k]) {
      assert r[k] in entries;
    }
  }
}
