/**
 * The dispatch of one message over an account's monitors
 * (`_process_monitors_with_individual_modes` in core/monitor_engine.py),
 * written as a fold over the sorted candidates: each step evaluates one
 * monitor and, on a match, executes its record at once (`first_match`,
 * `all`) or merges it (every other mode); the merged record is executed
 * after the last candidate unless a `first_match` monitor ended the run.
 */
module EngineDispatch {
  import opened BaseMonitor
  import opened Config
  import opened EngineOrder
  import opened EngineActions

  /**
   * What `monitor.process_message` reported for one monitor, and the
   * monitor's configuration afterwards (a keyword monitor records the
   * keyword it matched, an AI monitor the answer it received).
   */
  datatype Evaluation = Evaluation(result: MonitorResult, after: TypedConfig)

  /**
   * The dispatch so far: the monitors' configurations, the configurations
   * merged so far and their positions (`merge_monitors`), one delivery per
   * executed record, and whether a `first_match` monitor ended the run.
   */
  datatype DispatchState = DispatchState(
    ms: seq<TypedConfig>,
    mergedConfigs: seq<TypedConfig>,
    mergedIdx: seq<nat>,
    deliveries: seq<Delivery>,
    stopped: bool)

  /** Every merged position names a monitor. */
  predicate Consistent(st: DispatchState)
  {
    forall k :: 0 <= k < |st.mergedIdx| ==> st.mergedIdx[k] < |st.ms|
  }

  /** Every candidate names a monitor of a list of length `n`. */
  predicate InRange(cs: seq<Candidate>, n: nat)
  {
    forall k :: 0 <= k < |cs| ==> cs[k].index < n
  }

  /** The dispatch before the first candidate. */
  function Start(ms: seq<TypedConfig>): DispatchState
  {
    DispatchState(ms, [], [], [], false)
  }

  /** Execute one record and, unless the execution returned early, count the listed monitors. */
  function Fire(ms: seq<TypedConfig>, idx: seq<nat>, a: ActionSet, chatId: int, e: ExecEnv): (r: (seq<TypedConfig>, Delivery))
    requires forall k :: 0 <= k < |idx| ==> idx[k] < |ms|
    ensures |r.0| == |ms|
    ensures r.1 == Execute(a, chatId, e)
    ensures !r.1.counted ==> r.0 == ms
    ensures r.1.counted ==> r.0 == CountAll(ms, idx)
  {
    var d := Execute(a, chatId, e);
    (if d.counted then CountAll(ms, idx) else ms, d)
  }

  /** One candidate of the loop. */
  function Step(st: DispatchState, c: Candidate, evaluate: TypedConfig -> Evaluation, chatId: int, renv: nat -> ExecEnv): (r: DispatchState)
    requires c.index < |st.ms| && Consistent(st)
    ensures |r.ms| == |st.ms| && Consistent(r)
    ensures st.deliveries <= r.deliveries && |r.deliveries| <= |st.deliveries| + 1
    ensures st.stopped ==> r == st
  {
    if st.stopped then st else Advance(st, c, evaluate, chatId, renv)
  }

  /** One candidate of a run that has not stopped: evaluate the monitor, then execute or merge on a match. */
  function Advance(st: DispatchState, c: Candidate, evaluate: TypedConfig -> Evaluation, chatId: int, renv: nat -> ExecEnv): (r: DispatchState)
    requires c.index < |st.ms| && Consistent(st)
    ensures |r.ms| == |st.ms| && Consistent(r)
    ensures st.deliveries <= r.deliveries && |r.deliveries| <= |st.deliveries| + 1
  {
    var ev := evaluate(st.ms[c.index]);
    var ms1 := st.ms[c.index := ev.after];
    if ev.result != Matched then st.(ms := ms1)
    else if c.mode == "first_match" || c.mode == "all" then
      var (ms2, d) := Fire(ms1, [c.index], Collect(ev.after), chatId, renv(|st.deliveries|));
      DispatchState(ms2, st.mergedConfigs, st.mergedIdx, st.deliveries + [d], c.mode == "first_match")
    else
      st.(ms := ms1, mergedConfigs := st.mergedConfigs + [ev.after], mergedIdx := st.mergedIdx + [c.index])
  }

  /** The dispatch after the first `n` candidates. */
  function RunUpTo(init: DispatchState, cs: seq<Candidate>, n: nat, evaluate: TypedConfig -> Evaluation,
                   chatId: int, renv: nat -> ExecEnv): (r: DispatchState)
    requires n <= |cs| && InRange(cs, |init.ms|) && Consistent(init)
    ensures |r.ms| == |init.ms| && Consistent(r)
    ensures init.deliveries <= r.deliveries && |r.deliveries| <= |init.deliveries| + n
  {
    if n == 0 then init
    else Step(RunUpTo(init, cs, n - 1, evaluate, chatId, renv), cs[n - 1], evaluate, chatId, renv)
  }

  /** After the loop: execute the merged record if some merge-mode monitor matched and no `first_match` returned. */
  function Finish(st: DispatchState, chatId: int, renv: nat -> ExecEnv): (r: DispatchState)
    requires Consistent(st)
    ensures |r.ms| == |st.ms| && r.stopped == st.stopped
    ensures r.mergedIdx == st.mergedIdx && r.mergedConfigs == st.mergedConfigs
    ensures st.deliveries <= r.deliveries
    ensures |r.deliveries| == |st.deliveries| + (if !st.stopped && st.mergedIdx != [] then 1 else 0)
    ensures st.stopped || st.mergedIdx == [] ==> r == st
  {
    if !st.stopped && st.mergedIdx != [] then
      var (ms2, d) := Fire(st.ms, st.mergedIdx, MergeAll(st.mergedConfigs), chatId, renv(|st.deliveries|));
      st.(ms := ms2, deliveries := st.deliveries + [d])
    else st
  }

  /** The whole dispatch of one message over the candidates `cs`. */
  function Dispatch(ms: seq<TypedConfig>, cs: seq<Candidate>, evaluate: TypedConfig -> Evaluation,
                    chatId: int, renv: nat -> ExecEnv): (r: DispatchState)
    requires InRange(cs, |ms|)
    ensures |r.ms| == |ms|
    ensures |r.deliveries| <= |cs| + 1
    ensures cs == [] ==> r == Start(ms)
  {
    Finish(RunUpTo(Start(ms), cs, |cs|, evaluate, chatId, renv), chatId, renv)
  }

  /** Once a `first_match` monitor has ended the run, later candidates change nothing. */
  lemma {:induction false} StoppedIsFinal(init: DispatchState, cs: seq<Candidate>, k: nat, n: nat,
                                          evaluate: TypedConfig -> Evaluation, chatId: int, renv: nat -> ExecEnv)
    requires k <= n <= |cs| && InRange(cs, |init.ms|) && Consistent(init)
    requires RunUpTo(init, cs, k, evaluate, chatId, renv).stopped
    ensures RunUpTo(init, cs, n, evaluate, chatId, renv) == RunUpTo(init, cs, k, evaluate, chatId, renv)
    decreases n - k
  {
    if n > k {
      StoppedStepKeeps(init, cs, k + 1, evaluate, chatId, renv);
      StoppedIsFinal(init, cs, k + 1, n, evaluate, chatId, renv);
    }
  }

  /** One more candidate after the dispatch stopped changes nothing. */
  lemma StoppedStepKeeps(init: DispatchState, cs: seq<Candidate>, n: nat,
                         evaluate: TypedConfig -> Evaluation, chatId: int, renv: nat -> ExecEnv)
    requires 0 < n <= |cs| && InRange(cs, |init.ms|) && Consistent(init)
    requires RunUpTo(init, cs, n - 1, evaluate, chatId, renv).stopped
    ensures RunUpTo(init, cs, n, evaluate, chatId, renv) == RunUpTo(init, cs, n - 1, evaluate, chatId, renv)
  {
  }

  /**
   * A matching `first_match` monitor executes only its own record and ends
   * the dispatch: no later candidate is evaluated, and the merge-mode
   * matches gathered before it are never executed or counted.
   */
  lemma FirstMatchEndsDispatch(ms: seq<TypedConfig>, cs: seq<Candidate>, k: nat,
                               evaluate: TypedConfig -> Evaluation, chatId: int, renv: nat -> ExecEnv)
    requires k < |cs| && InRange(cs, |ms|)
    requires var st := RunUpTo(Start(ms), cs, k, evaluate, chatId, renv);
      !st.stopped && cs[k].mode == "first_match" && evaluate(st.ms[cs[k].index]).result == Matched
    ensures var st := RunUpTo(Start(ms), cs, k, evaluate, chatId, renv);
      var after := evaluate(st.ms[cs[k].index]).after;
      var fin := Dispatch(ms, cs, evaluate, chatId, renv);
      fin.stopped && fin == RunUpTo(Start(ms), cs, k + 1, evaluate, chatId, renv)
      && fin.deliveries == st.deliveries + [Execute(Collect(after), chatId, renv(|st.deliveries|))]
      && fin.mergedIdx == st.mergedIdx
  {
    StoppedIsFinal(Start(ms), cs, k + 1, |cs|, evaluate, chatId, renv);
  }

  /** A matching `all` monitor executes its own record and the dispatch goes on. */
  lemma AllModeContinues(st: DispatchState, c: Candidate, evaluate: TypedConfig -> Evaluation, chatId: int, renv: nat -> ExecEnv)
    requires c.index < |st.ms| && Consistent(st) && !st.stopped
    requires c.mode == "all" && evaluate(st.ms[c.index]).result == Matched
    ensures var r := Step(st, c, evaluate, chatId, renv);
      !r.stopped && r.mergedIdx == st.mergedIdx
      && r.deliveries == st.deliveries + [Execute(Collect(evaluate(st.ms[c.index]).after), chatId, renv(|st.deliveries|))]
  {
  }

  /** Every execution mode other than `first_match` and `all` behaves as `merge`. */
  lemma OtherModesMerge(st: DispatchState, c: Candidate, evaluate: TypedConfig -> Evaluation, chatId: int, renv: nat -> ExecEnv)
    requires c.index < |st.ms| && Consistent(st)
    requires c.mode != "first_match" && c.mode != "all"
    ensures Step(st, c, evaluate, chatId, renv) == Step(st, c.(mode := "merge"), evaluate, chatId, renv)
    ensures var r := Step(st, c, evaluate, chatId, renv);
      !st.stopped && evaluate(st.ms[c.index]).result == Matched ==>
        r.mergedIdx == st.mergedIdx + [c.index] && r.deliveries == st.deliveries && !r.stopped
  {
  }

  /** A monitor that does not match only has its configuration replaced by the evaluated one. */
  lemma UnmatchedOnlyEvaluated(st: DispatchState, c: Candidate, evaluate: TypedConfig -> Evaluation, chatId: int, renv: nat -> ExecEnv)
    requires c.index < |st.ms| && Consistent(st) && !st.stopped
    requires evaluate(st.ms[c.index]).result != Matched
    ensures Step(st, c, evaluate, chatId, renv) == st.(ms := st.ms[c.index := evaluate(st.ms[c.index]).after])
  {
  }

  /**
   * When the run was not ended early and some merge-mode monitor matched,
   * the last delivery executes the merged record of all merge-mode matches.
   */
  lemma MergedRecordExecutedLast(ms: seq<TypedConfig>, cs: seq<Candidate>,
                                 evaluate: TypedConfig -> Evaluation, chatId: int, renv: nat -> ExecEnv)
    requires InRange(cs, |ms|)
    requires var st := RunUpTo(Start(ms), cs, |cs|, evaluate, chatId, renv);
      !st.stopped && st.mergedIdx != []
    ensures var st := RunUpTo(Start(ms), cs, |cs|, evaluate, chatId, renv);
      var fin := Dispatch(ms, cs, evaluate, chatId, renv);
      fin.deliveries == st.deliveries + [Execute(MergeAll(st.mergedConfigs), chatId, renv(|st.deliveries|))]
      && (fin.deliveries[|st.deliveries|].counted ==> fin.ms == CountAll(st.ms, st.mergedIdx))
      && (!fin.deliveries[|st.deliveries|].counted ==> fin.ms == st.ms)
  {
  }
}
