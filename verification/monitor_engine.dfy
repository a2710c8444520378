/**
 * `MonitorEngine` (core/monitor_engine.py): the per-account monitor lists,
 * the set of processed message ids, and the scheduled-message entries, with
 * the methods that change them.
 */
module MonitorEngine {
  import opened Wrappers
  import opened PyStr
  import opened Config
  import opened Message
  import opened EngineOrder
  import opened EngineActions
  import opened EngineDispatch
  import opened ScheduledJobs

  /** The size above which `_mark_message_processed` evicts, and how many ids it evicts. */
  const MaxProcessed: nat := 10000
  const EvictCount: nat := 5000

  /** `isinstance(monitor, monitor_type)`: every monitor class derives directly from `BaseMonitor`. */
  predicate IsInstance(c: TypedConfig, monitorType: string)
  {
    monitorType == "BaseMonitor" || ClassName(c) == monitorType
  }

  /** `[m for m in monitors if not isinstance(m, monitor_type)]` */
  function WithoutType(ms: seq<TypedConfig>, monitorType: string): (r: seq<TypedConfig>)
    ensures |r| <= |ms|
    ensures forall k :: 0 <= k < |r| ==> !IsInstance(r[k], monitorType) && r[k] in ms
    ensures forall c :: c in ms && !IsInstance(c, monitorType) ==> c in r
  {
    if ms == [] then []
    else
      var rest := WithoutType(ms[1..], monitorType);
      if IsInstance(ms[0], monitorType) then rest else [ms[0]] + rest
  }

  /** The list shrinks under a type filter iff it held an instance of the type. */
  lemma {:induction false} WithoutTypeShorter(ms: seq<TypedConfig>, monitorType: string)
    ensures |WithoutType(ms, monitorType)| < |ms| <==> exists k :: 0 <= k < |ms| && IsInstance(ms[k], monitorType)
  {
    if ms != [] {
      WithoutTypeShorter(ms[1..], monitorType);
      if exists k :: 0 <= k < |ms[1..]| && IsInstance(ms[1..][k], monitorType) {
        var k :| 0 <= k < |ms[1..]| && IsInstance(ms[1..][k], monitorType);
        assert IsInstance(ms[k + 1], monitorType);
      }
      if exists k :: 0 <= k < |ms| && IsInstance(ms[k], monitorType) {
        var k :| 0 <= k < |ms| && IsInstance(ms[k], monitorType);
        if k > 0 {
          assert IsInstance(ms[1..][k - 1], monitorType);
        }
      }
    }
  }

  /**
   * The position a key names: the part after its last '_', when the key has
   * a '_', that part is a non-empty run of digits, and the position exists.
   */
  function KeyIndex(key: string, n: nat): (r: Option<nat>)
    ensures r.Some? ==> r.value < n
  {
    if '_' in key then
      var last := LastSegment(key, '_');
      if last != [] && AllDigits(last) && DecimalValue(last) < n then Some(DecimalValue(last)) else None
    else None
  }

  /** `monitor_key.split('_')[0]`: the class name part of a key. */
  function KeyTypeName(key: string): (r: string)
    ensures '_' !in r && StartsWith(key, r)
  {
    if '_' in key then key[..IndexOf(key, '_')] else key
  }

  /** The first monitor of a class, searched from position `i` on. */
  function FirstOfClassFrom(ms: seq<TypedConfig>, name: string, i: nat): (r: Option<nat>)
    requires i <= |ms|
    ensures r.Some? ==> (i <= r.value < |ms| && ClassName(ms[r.value]) == name
                         && forall k :: i <= k < r.value ==> ClassName(ms[k]) != name)
    ensures r.None? ==> forall k :: i <= k < |ms| ==> ClassName(ms[k]) != name
    decreases |ms| - i
  {
    if i == |ms| then None
    else if ClassName(ms[i]) == name then Some(i)
    else FirstOfClassFrom(ms, name, i + 1)
  }

  /** The monitor `remove_monitor` pops for a key: the named position, else the first monitor of the key's class. */
  function KeyTarget(ms: seq<TypedConfig>, key: string): (r: Option<nat>)
    ensures r.Some? ==> r.value < |ms|
  {
    match KeyIndex(key, |ms|)
    case Some(i) => Some(i)
    case None => FirstOfClassFrom(ms, KeyTypeName(key), 0)
  }

  /** `list.pop(i)` */
  function RemoveAt(ms: seq<TypedConfig>, i: nat): (r: seq<TypedConfig>)
    requires i < |ms|
    ensures |r| == |ms| - 1
    ensures forall k :: 0 <= k < i ==> r[k] == ms[k]
    ensures forall k :: i <= k < |r| ==> r[k] == ms[k + 1]
  {
    ms[..i] + ms[i + 1..]
  }

  /**
   * `remove_monitor` on one list: the new list and the result. A type, when
   * given, wins over the key; an empty key and no type remove nothing.
   */
  function Removed(ms: seq<TypedConfig>, key: string, monitorType: Option<string>): (r: (seq<TypedConfig>, bool))
    ensures r.1 <==> |r.0| < |ms|
  {
    if monitorType.Some? && monitorType.value != "" then
      var rest := WithoutType(ms, monitorType.value);
      (rest, |rest| < |ms|)
    else if key != "" then
      match KeyTarget(ms, key)
      case Some(i) => (RemoveAt(ms, i), true)
      case None => (ms, false)
    else (ms, false)
  }

  /** The key `process_message` gives a monitor names that very monitor for removal. */
  lemma OwnKeyRemovesThatMonitor(ms: seq<TypedConfig>, i: nat)
    requires i < |ms|
    ensures KeyTarget(ms, MonitorKey(ms[i], i)) == Some(i)
    ensures Removed(ms, MonitorKey(ms[i], i), None) == (RemoveAt(ms, i), true)
  {
    KeyParts(ms[i], i);
    DecimalOfNatToString(i);
    assert KeyIndex(MonitorKey(ms[i], i), |ms|) == Some(i);
  }

  /** In `x + [c] + y` with no `c` in `x`, the first `c` is the one after `x`. */
  lemma FirstSeparator(x: string, c: char, y: string)
    requires c !in x
    ensures c in x + [c] + y && IndexOf(x + [c] + y, c) == |x|
  {
    var s := x + [c] + y;
    assert s[|x|] == c;
  }

  lemma ClassNameHasNoUnderscore(c: TypedConfig)
    ensures '_' !in ClassName(c)
  {
    match c
    case KeywordCfg(_) =>
    case FileCfg(_) =>
    case ButtonCfg(_) =>
    case AllMessagesCfg(_) =>
    case ImageButtonCfg(_) =>
    case AIMonitorCfg(_) =>
  }

  /** A key `name_digits` splits back into its two parts. */
  lemma SplitKey(name: string, digits: string)
    requires '_' !in name && '_' !in digits
    ensures '_' in name + ['_'] + digits
    ensures LastSegment(name + ['_'] + digits, '_') == digits
    ensures KeyTypeName(name + ['_'] + digits) == name
  {
    LastSegmentAfterSeparator(name, '_', digits);
    FirstSeparator(name, '_', digits);
    assert (name + ['_'] + digits)[..|name|] == name;
  }

  /** The parts of a monitor's own key: the class name before the '_', the position after it. */
  lemma KeyParts(c: TypedConfig, j: nat)
    ensures '_' in MonitorKey(c, j)
    ensures LastSegment(MonitorKey(c, j), '_') == NatToString(j)
    ensures KeyTypeName(MonitorKey(c, j)) == ClassName(c)
  {
    NoUnderscoreInInt(j);
    ClassNameHasNoUnderscore(c);
    SplitKey(ClassName(c), IntToString(j));
  }

  /**
   * A key whose position is out of range still removes a monitor: the first
   * one of the class the key names.
   */
  lemma StaleKeyRemovesFirstOfClass(ms: seq<TypedConfig>, c: TypedConfig, j: nat)
    requires j >= |ms|
    ensures KeyTarget(ms, MonitorKey(c, j)) == FirstOfClassFrom(ms, ClassName(c), 0)
  {
    KeyParts(c, j);
    DecimalOfNatToString(j);
    assert KeyIndex(MonitorKey(c, j), |ms|) == None;
  }

  /** After removing by type, no monitor of that type is left. */
  lemma RemovedTypeIsGone(ms: seq<TypedConfig>, monitorType: string)
    requires monitorType != ""
    ensures var r := Removed(ms, "", Some(monitorType)).0;
      forall k :: 0 <= k < |r| ==> !IsInstance(r[k], monitorType)
    ensures Removed(ms, "", Some(monitorType)).1 <==> exists k :: 0 <= k < |ms| && IsInstance(ms[k], monitorType)
  {
    WithoutTypeShorter(ms, monitorType);
  }

  /** The dispatch of one message for a list of monitors; an empty list is a no-op. */
  function MessageOutcome(ms: seq<TypedConfig>, evaluate: TypedConfig -> EngineDispatch.Evaluation,
                          chatId: int, renv: nat -> ExecEnv): (r: DispatchState)
    ensures |r.ms| == |ms|
    ensures |r.deliveries| <= |ms| + 1
    ensures ms == [] ==> r.deliveries == [] && !r.stopped
  {
    if ms == [] then Start(ms)
    else
      Dispatch(ms, SortedCandidates(ms), evaluate, chatId, renv)
  }

  /** `_execute_merged_actions` on a monitor list: the execution, then the counting loop. */
  method ExecuteAndCount(ms: seq<TypedConfig>, idx: seq<nat>, a: ActionSet, chatId: int, e: ExecEnv)
    returns (msOut: seq<TypedConfig>, d: Delivery)
    requires forall k :: 0 <= k < |idx| ==> idx[k] < |ms|
    ensures (msOut, d) == Fire(ms, idx, a, chatId, e)
  {
    d := Execute(a, chatId, e);
    msOut := ms;
    if !d.counted {
      return;
    }
    var j := 0;
    while j < |idx|
      invariant j <= |idx| && |msOut| == |ms|
      invariant CountAll(msOut, idx[j..]) == CountAll(ms, idx)
    {
      assert idx[j..][1..] == idx[j + 1..];
      msOut := CountOne(msOut, idx[j]);
      j := j + 1;
    }
    assert idx[j..] == [];
  }

  /**
   * One pass of the loop of `_process_monitors_with_individual_modes`: the
   * monitor is evaluated and, on a match, its record executed at once or
   * merged into `merged`.
   */
  method DispatchOne(ms: seq<TypedConfig>, merged: ActionSet, mergedIdx: seq<nat>, deliveries: seq<Delivery>,
                     ghost mergedConfigs: seq<TypedConfig>, c: Candidate,
                     evaluate: TypedConfig -> EngineDispatch.Evaluation, chatId: int, renv: nat -> ExecEnv)
    returns (ms': seq<TypedConfig>, merged': ActionSet, mergedIdx': seq<nat>, deliveries': seq<Delivery>,
             ghost mergedConfigs': seq<TypedConfig>, stop: bool)
    requires c.index < |ms| && Consistent(DispatchState(ms, mergedConfigs, mergedIdx, deliveries, false))
    requires merged == MergeAll(mergedConfigs)
    ensures Step(DispatchState(ms, mergedConfigs, mergedIdx, deliveries, false), c, evaluate, chatId, renv)
      == DispatchState(ms', mergedConfigs', mergedIdx', deliveries', stop)
    ensures merged' == MergeAll(mergedConfigs')
  {
    var ev := evaluate(ms[c.index]);
    ms' := ms[c.index := ev.after];
    merged', mergedIdx', deliveries', mergedConfigs', stop := merged, mergedIdx, deliveries, mergedConfigs, false;
    if ev.result == BaseMonitor.Matched {
      if c.mode == "first_match" || c.mode == "all" {
        var d;
        ms', d := ExecuteAndCount(ms', [c.index], Collect(ev.after), chatId, renv(|deliveries|));
        deliveries' := deliveries + [d];
        stop := c.mode == "first_match";
      } else {
        merged' := Merge(merged, ev.after);
        MergeAllSnoc(mergedConfigs, ev.after);
        mergedConfigs' := mergedConfigs + [ev.after];
        mergedIdx' := mergedIdx + [c.index];
      }
    }
  }

  /** After the loop: `_execute_merged_actions` when some merge-mode monitor matched. */
  method ExecuteMerged(ms: seq<TypedConfig>, merged: ActionSet, mergedIdx: seq<nat>, deliveries: seq<Delivery>,
                       ghost mergedConfigs: seq<TypedConfig>, chatId: int, renv: nat -> ExecEnv)
    returns (ms': seq<TypedConfig>, deliveries': seq<Delivery>)
    requires Consistent(DispatchState(ms, mergedConfigs, mergedIdx, deliveries, false))
    requires merged == MergeAll(mergedConfigs)
    ensures var fin := Finish(DispatchState(ms, mergedConfigs, mergedIdx, deliveries, false), chatId, renv);
      ms' == fin.ms && deliveries' == fin.deliveries
  {
    ms', deliveries' := ms, deliveries;
    if mergedIdx != [] {
      var d;
      ms', d := ExecuteAndCount(ms, mergedIdx, merged, chatId, renv(|deliveries|));
      deliveries' := deliveries + [d];
    }
  }

  /**
   * `_process_monitors_with_individual_modes`: the loop over the sorted
   * candidates, returning at the first matching `first_match` monitor, then
   * the merged record; proved against the dispatch fold.
   */
  method ProcessWithModes(ms: seq<TypedConfig>, cs: seq<Candidate>, evaluate: TypedConfig -> EngineDispatch.Evaluation,
                          chatId: int, renv: nat -> ExecEnv)
    returns (msOut: seq<TypedConfig>, deliveries: seq<Delivery>)
    requires InRange(cs, |ms|)
    ensures msOut == Dispatch(ms, cs, evaluate, chatId, renv).ms
    ensures deliveries == Dispatch(ms, cs, evaluate, chatId, renv).deliveries
  {
    msOut := ms;
    deliveries := [];
    var merged := EmptyActions;
    var mergedIdx: seq<nat> := [];
    ghost var mergedConfigs: seq<TypedConfig> := [];
    var k := 0;
    while k < |cs|
      invariant k <= |cs|
      invariant RunUpTo(Start(ms), cs, k, evaluate, chatId, renv) == DispatchState(msOut, mergedConfigs, mergedIdx, deliveries, false)
      invariant merged == MergeAll(mergedConfigs)
    {
      var stop;
      msOut, merged, mergedIdx, deliveries, mergedConfigs, stop :=
        DispatchOne(msOut, merged, mergedIdx, deliveries, mergedConfigs, cs[k], evaluate, chatId, renv);
      k := k + 1;
      if stop {
        StoppedIsFinal(Start(ms), cs, k, |cs|, evaluate, chatId, renv);
        return;
      }
    }
    msOut, deliveries := ExecuteMerged(msOut, merged, mergedIdx, deliveries, mergedConfigs, chatId, renv);
  }

  class Engine {
    /** `monitors`: the monitor list of each account. */
    var monitors: map<string, seq<TypedConfig>>
    /** `processed_messages`: the unique ids of the events already dispatched. */
    var processed: set<string>
    /** `scheduled_messages` */
    var scheduled: seq<ScheduledEntry>

    constructor ()
      ensures monitors == map[] && processed == {} && scheduled == []
    {
      monitors := map[];
      processed := {};
      scheduled := [];
    }

    /** The monitor list of an account; `get_monitors` yields [] for an unknown one. */
    function MonitorsOf(accountId: string): (r: seq<TypedConfig>)
      reads this
      ensures accountId !in monitors ==> r == []
    {
      if accountId in monitors then monitors[accountId] else []
    }

    /**
     * `remove_monitor`: unknown accounts report False; a type removes every
     * instance; a key pops the position it names, else the first monitor of
     * its class.
     */
    method RemoveMonitor(accountId: string, key: string, monitorType: Option<string>) returns (removed: bool)
      modifies this`monitors
      ensures accountId !in old(monitors) ==> !removed && monitors == old(monitors)
      ensures accountId in old(monitors) ==>
        var r := Removed(old(monitors)[accountId], key, monitorType);
        removed == r.1 && monitors == old(monitors)[accountId := r.0]
    {
      if accountId !in monitors {
        return false;
      }
      var ms := monitors[accountId];
      if monitorType.Some? && monitorType.value != "" {
        var rest := WithoutType(ms, monitorType.value);
        monitors := monitors[accountId := rest];
        return |rest| < |ms|;
      }
      if key == "" {
        return false;
      }
      var target := KeyIndex(key, |ms|);
      if target.None? {
        var name := KeyTypeName(key);
        var i := 0;
        while i < |ms| && ClassName(ms[i]) != name
          invariant i <= |ms|
          invariant FirstOfClassFrom(ms, name, 0) == FirstOfClassFrom(ms, name, i)
        {
          i := i + 1;
        }
        target := if i < |ms| then Some(i) else None;
      }
      if target.None? {
        return false;
      }
      monitors := monitors[accountId := RemoveAt(ms, target.value)];
      removed := true;
    }

    /** `add_monitor`: create the list if missing, drop the monitor a key names, then append. */
    method AddMonitor(accountId: string, monitor: TypedConfig, key: string)
      modifies this`monitors
      ensures monitors == old(monitors)[accountId := Removed(old(MonitorsOf(accountId)), key, None).0 + [monitor]]
    {
      if accountId !in monitors {
        monitors := monitors[accountId := []];
      }
      if key != "" {
        var _ := RemoveMonitor(accountId, key, None);
      }
      monitors := monitors[accountId := monitors[accountId] + [monitor]];
    }

    /**
     * `process_message`: nothing for an account without monitors; otherwise
     * the monitors are dispatched in priority order and their configurations
     * replaced by the ones the dispatch leaves.
     */
    method ProcessMessage(accountId: string, chatId: int, evaluate: TypedConfig -> EngineDispatch.Evaluation,
                          renv: nat -> ExecEnv)
      returns (deliveries: seq<Delivery>)
      modifies this`monitors
      ensures old(MonitorsOf(accountId)) == [] ==> monitors == old(monitors) && deliveries == []
      ensures old(MonitorsOf(accountId)) != [] ==>
        var fin := MessageOutcome(old(monitors)[accountId], evaluate, chatId, renv);
        monitors == old(monitors)[accountId := fin.ms] && deliveries == fin.deliveries
    {
      if accountId !in monitors || monitors[accountId] == [] {
        return [];
      }
      var ms := monitors[accountId];
      var cs := SortedCandidates(ms);
      var msOut;
      msOut, deliveries := ProcessWithModes(ms, cs, evaluate, chatId, renv);
      monitors := monitors[accountId := msOut];
    }

    /** `_is_message_processed` */
    predicate IsMessageProcessed(e: MessageEvent)
      reads this
    {
      UniqueId(e) in processed
    }

    /**
     * `_mark_message_processed`: add the id; past 10000 ids, discard the
     * 5000 that set iteration yields first (`evicted`, possibly including
     * the id just added).
     */
    method MarkMessageProcessed(e: MessageEvent, evicted: set<string>)
      requires |processed| <= MaxProcessed
      requires |processed + {UniqueId(e)}| > MaxProcessed ==>
        evicted <= processed + {UniqueId(e)} && |evicted| == EvictCount
      modifies this`processed
      ensures var added := old(processed) + {UniqueId(e)};
        processed == if |added| > MaxProcessed then added - evicted else added
      ensures |processed| <= MaxProcessed
    {
      processed := processed + {UniqueId(e)};
      if |processed| > MaxProcessed {
        processed := processed - evicted;
      }
    }

    /**
     * `process_message_event`: nothing while the account's monitoring is off
     * or for an event already processed; otherwise the id is marked first
     * and the message dispatched.
     */
    method ProcessMessageEvent(monitorActive: bool, e: MessageEvent, evaluate: TypedConfig -> EngineDispatch.Evaluation,
                               renv: nat -> ExecEnv, evicted: set<string>)
      returns (deliveries: seq<Delivery>)
      requires |processed| <= MaxProcessed
      requires |processed + {UniqueId(e)}| > MaxProcessed ==>
        evicted <= processed + {UniqueId(e)} && |evicted| == EvictCount
      modifies this`processed, this`monitors
      ensures |processed| <= MaxProcessed
      ensures !monitorActive || UniqueId(e) in old(processed) ==>
        deliveries == [] && processed == old(processed) && monitors == old(monitors)
      ensures monitorActive && UniqueId(e) !in old(processed) ==>
        var fin := MessageOutcome(old(MonitorsOf(e.accountId)), evaluate, e.message.chatId, renv);
        deliveries == fin.deliveries
        && (old(MonitorsOf(e.accountId)) != [] ==> monitors == old(monitors)[e.accountId := fin.ms])
      ensures monitorActive && UniqueId(e) !in old(processed) ==>
        var added := old(processed) + {UniqueId(e)};
        processed == if |added| > MaxProcessed then added - evicted else added
      ensures monitorActive && UniqueId(e) !in old(processed) && old(MonitorsOf(e.accountId)) == [] ==>
        monitors == old(monitors) && deliveries == []
    {
      if !monitorActive {
        return [];
      }
      if IsMessageProcessed(e) {
        return [];
      }
      MarkMessageProcessed(e, evicted);
      deliveries := ProcessMessage(e.accountId, e.message.chatId, evaluate, renv);
    }

    /** `add_scheduled_message`: append a fresh entry. */
    method AddScheduledMessage(c: ScheduledMessageConfig)
      modifies this`scheduled
      ensures scheduled == old(scheduled) + [EntryOf(c)]
      ensures old(AllWithinLimit(scheduled)) ==> AllWithinLimit(scheduled)
    {
      NewEntryWithinLimit(c);
      scheduled := scheduled + [EntryOf(c)];
    }

    /** `remove_scheduled_message`: drop every entry with the id; True iff one was dropped. */
    method RemoveScheduledMessage(jobId: string) returns (removed: bool)
      modifies this`scheduled
      ensures scheduled == WithoutJob(old(scheduled), jobId)
      ensures removed <==> exists k :: 0 <= k < |old(scheduled)| && old(scheduled)[k].jobId == jobId
      ensures old(AllWithinLimit(scheduled)) ==> AllWithinLimit(scheduled)
    {
      var before := scheduled;
      WithoutJobShorter(before, jobId);
      if AllWithinLimit(before) {
        RemovalKeepsLimits(before, jobId);
      }
      scheduled := WithoutJob(before, jobId);
      removed := |scheduled| < |before|;
    }

    /**
     * `_execute_scheduled_message`: find the first entry with the id, run the
     * guard chain, and count the entry only after a successful send.
     */
    method ExecuteScheduledMessage(jobId: string, env: FireEnv) returns (outcome: FireOutcome)
      modifies this`scheduled
      ensures (scheduled, outcome) == Fired(old(scheduled), jobId, env)
      ensures old(AllWithinLimit(scheduled)) ==> AllWithinLimit(scheduled)
    {
      if AllWithinLimit(scheduled) {
        FiringKeepsLimits(scheduled, jobId, env);
      }
      var i := 0;
      while i < |scheduled| && scheduled[i].jobId != jobId
        invariant i <= |scheduled|
        invariant FirstJob(scheduled, jobId) == FirstJobFrom(scheduled, jobId, i)
      {
        i := i + 1;
      }
      if i == |scheduled| {
        return JobNotFound;
      }
      outcome := FireOutcomeOf(scheduled[i], env);
      if outcome.Sent? {
        scheduled := scheduled[i := AfterSend(scheduled[i])];
      }
    }
  }
}
