/**
 * The runtime status of ui/status_monitor.py: message and forward counters,
 * the bounded buffers of processing times and message timestamps, the
 * uptime text, the account statistics, the overall status ladder and the
 * health score. The clock, psutil readings and account probes are inputs.
 */
module StatusMonitor {
  import opened Wrappers
  import opened PyStr

  /** The processing-time buffer keeps at most this many values. */
  const MaxProcessingTimes: nat := 100
  /** Timestamps older than this many seconds are dropped. */
  const TimestampWindow: real := 3600.0
  /** `get_messages_per_minute` counts the last minute. */
  const MinuteWindow: real := 60.0

  // ---------------------------------------------------------------- uptime

  /** `timedelta.days`, and `divmod` of `timedelta.seconds` into hours and minutes. */
  function UptimeParts(elapsed: nat): (r: (nat, nat, nat))
    ensures r.1 < 24 && r.2 < 60
    ensures r.0 * 86400 + r.1 * 3600 + r.2 * 60 <= elapsed < r.0 * 86400 + r.1 * 3600 + r.2 * 60 + 60
  {
    var days := elapsed / 86400;
    var seconds := elapsed % 86400;
    (days, seconds / 3600, (seconds % 3600) / 60)
  }

  /** `get_uptime`: days only when positive, hours only when days or hours are. */
  function Uptime(elapsed: nat): (r: string)
    ensures |r| >= 2 && r[|r| - 2..] == "分钟"
  {
    var (d, h, m) := UptimeParts(elapsed);
    if d > 0 then NatToString(d) + "天 " + NatToString(h) + "小时 " + NatToString(m) + "分钟"
    else if h > 0 then NatToString(h) + "小时 " + NatToString(m) + "分钟"
    else NatToString(m) + "分钟"
  }

  /** Which units are non-zero. */
  lemma UptimeUnits(elapsed: nat)
    ensures UptimeParts(elapsed).0 > 0 <==> elapsed >= 86400
    ensures elapsed < 86400 ==> (UptimeParts(elapsed).1 > 0 <==> elapsed >= 3600)
    ensures elapsed < 3600 ==> UptimeParts(elapsed).2 == elapsed / 60
  {
  }

  lemma PrefixStartsWith(p: string, q: string)
    ensures StartsWith(p + q, p)
  {
    assert (p + q)[..|p|] == p;
  }

  /** From one day on, the uptime text begins with the number of days. */
  lemma UptimeShowsDays(elapsed: nat)
    requires elapsed >= 86400
    ensures StartsWith(Uptime(elapsed), NatToString(UptimeParts(elapsed).0) + "天 ")
  {
    UptimeUnits(elapsed);
    var (d, h, m) := UptimeParts(elapsed);
    PrefixStartsWith(NatToString(d) + "天 ", NatToString(h) + "小时 " + NatToString(m) + "分钟");
    assert Uptime(elapsed) == NatToString(d) + "天 " + (NatToString(h) + "小时 " + NatToString(m) + "分钟");
  }

  /** Between one hour and one day, the uptime text begins with the number of hours. */
  lemma UptimeShowsHours(elapsed: nat)
    requires 3600 <= elapsed < 86400
    ensures StartsWith(Uptime(elapsed), NatToString(UptimeParts(elapsed).1) + "小时 ")
  {
    UptimeUnits(elapsed);
    var (d, h, m) := UptimeParts(elapsed);
    PrefixStartsWith(NatToString(h) + "小时 ", NatToString(m) + "分钟");
    assert Uptime(elapsed) == NatToString(h) + "小时 " + (NatToString(m) + "分钟");
  }

  /** Under an hour, the uptime text is the whole minutes alone. */
  lemma UptimeMinutesOnly(elapsed: nat)
    requires elapsed < 3600
    ensures Uptime(elapsed) == NatToString(elapsed / 60) + "分钟"
  {
    UptimeUnits(elapsed);
  }

  // ---------------------------------------------------------------- buffers

  /** `[ts for ts in timestamps if ts > cutoff]` */
  function After(ts: seq<real>, cutoff: real): (r: seq<real>)
    ensures |r| <= |ts|
    ensures forall k :: 0 <= k < |r| ==> r[k] > cutoff && r[k] in ts
    ensures forall t :: t in ts && t > cutoff ==> t in r
  {
    if ts == [] then []
    else
      var rest := After(ts[..|ts| - 1], cutoff);
      assert forall t :: t in ts ==> t in ts[..|ts| - 1] || t == ts[|ts| - 1];
      if ts[|ts| - 1] > cutoff then rest + [ts[|ts| - 1]] else rest
  }

  /** Filtering at an earlier cutoff does not change what a later cutoff keeps. */
  lemma {:induction false} AfterAfter(ts: seq<real>, c1: real, c2: real)
    requires c1 <= c2
    ensures After(After(ts, c1), c2) == After(ts, c2)
  {
    if ts != [] {
      var init := ts[..|ts| - 1];
      AfterAfter(init, c1, c2);
      var x := ts[|ts| - 1];
      if x > c1 {
        assert After(ts, c1) == After(init, c1) + [x];
        assert (After(init, c1) + [x])[..|After(init, c1)|] == After(init, c1);
      }
    }
  }

  /** Appending one value keeps the older values' filter and adds the new one if it is recent. */
  lemma AfterSnoc(ts: seq<real>, x: real, cutoff: real)
    ensures After(ts + [x], cutoff) == if x > cutoff then After(ts, cutoff) + [x] else After(ts, cutoff)
  {
    assert (ts + [x])[..|ts|] == ts;
  }

  /** `processing_times.append(t)` followed by at most one `pop(0)` once past 100. */
  function PushProcessingTime(times: seq<real>, t: real): (r: seq<real>)
    ensures |times| <= MaxProcessingTimes ==> |r| <= MaxProcessingTimes
    ensures r != [] && r[|r| - 1] == t && |r| <= |times| + 1
    ensures r == (times + [t])[|times| + 1 - |r|..]
    ensures |times| < MaxProcessingTimes ==> r == times + [t]
  {
    var appended := times + [t];
    if |appended| > MaxProcessingTimes then appended[1..] else appended
  }

  /** Once full, the buffer is the 100 most recent values, oldest first. */
  lemma PushKeepsMostRecent(times: seq<real>, t: real)
    requires |times| == MaxProcessingTimes
    ensures PushProcessingTime(times, t) == times[1..] + [t]
  {
  }

  /** What each account probe of `get_account_stats` reports. */
  datatype AccountProbe = AccountProbe(valid: bool, monitorActive: bool, connected: bool)

  datatype AccountStats = AccountStats(total: nat, active: nat, connected: nat, invalid: nat)

  /** The counts over a list of probes: only valid accounts count as active or connected. */
  function StatsOf(probes: seq<AccountProbe>): (r: AccountStats)
    ensures r.total == |probes|
    ensures r.active + r.invalid <= r.total && r.connected + r.invalid <= r.total
  {
    if probes == [] then AccountStats(0, 0, 0, 0)
    else
      var s := StatsOf(probes[..|probes| - 1]);
      var p := probes[|probes| - 1];
      AccountStats(s.total + 1,
        s.active + (if p.valid && p.monitorActive then 1 else 0),
        s.connected + (if p.valid && p.connected then 1 else 0),
        s.invalid + (if p.valid then 0 else 1))
  }

  /** `get_account_stats`: the counting loop. */
  method GetAccountStats(probes: seq<AccountProbe>) returns (stats: AccountStats)
    ensures stats == StatsOf(probes)
  {
    var active, connected, invalid := 0, 0, 0;
    var i := 0;
    while i < |probes|
      invariant i <= |probes|
      invariant StatsOf(probes[..i]) == AccountStats(i, active, connected, invalid)
    {
      var p := probes[i];
      assert probes[..i + 1][..i] == probes[..i];
      if p.valid {
        if p.monitorActive {
          active := active + 1;
        }
        if p.connected {
          connected := connected + 1;
        }
      } else {
        invalid := invalid + 1;
      }
      i := i + 1;
    }
    assert probes[..i] == probes;
    stats := AccountStats(|probes|, active, connected, invalid);
  }

  // ---------------------------------------------------------------- status and health

  datatype SystemState = Unconfigured | Stopped | PartlyInvalid | PartlyConnected | Running

  /** The status ladder of `get_system_status`, checked top to bottom. */
  function StatusOf(s: AccountStats): (r: SystemState)
    ensures r == Running <==> s.total > 0 && s.active > 0 && s.invalid == 0 && s.connected >= s.total
    ensures r == Unconfigured <==> s.total == 0
    ensures r == Stopped <==> s.total > 0 && s.active == 0
  {
    if s.total == 0 then Unconfigured
    else if s.active == 0 then Stopped
    else if s.invalid > 0 then PartlyInvalid
    else if s.connected < s.total then PartlyConnected
    else Running
  }

  function StatusLabel(st: SystemState): string
  {
    match st
    case Unconfigured => "未配置"
    case Stopped => "已停止"
    case PartlyInvalid => "部分失效"
    case PartlyConnected => "部分连接"
    case Running => "运行中"
  }

  /** With account stats from real probes, an invalid account always shows up as partly invalid when any account is active. */
  lemma InvalidProbeShows(probes: seq<AccountProbe>, k: nat)
    requires k < |probes| && !probes[k].valid
    requires StatsOf(probes).active > 0
    ensures StatusOf(StatsOf(probes)) == PartlyInvalid
  {
    InvalidCounted(probes, k);
  }

  lemma {:induction false} InvalidCounted(probes: seq<AccountProbe>, k: nat)
    requires k < |probes| && !probes[k].valid
    ensures StatsOf(probes).invalid > 0
  {
    if k < |probes| - 1 {
      InvalidCounted(probes[..|probes| - 1], k);
    }
  }

  /** The psutil readings the health check uses, in percent. */
  datatype Readings = Readings(cpuPercent: real, memoryPercent: real)

  /** The CPU deduction: nothing up to 60%, then 10, and 20 above 80%. */
  function CpuPenalty(cpu: real): (r: int)
    ensures 0 <= r <= 20
    ensures r == 0 <==> cpu <= 60.0
    ensures r == 20 <==> cpu > 80.0
  {
    if cpu > 80.0 then 20 else if cpu > 60.0 then 10 else 0
  }

  /** The memory deduction: nothing up to 75%, then 15, and 25 above 90%. */
  function MemoryPenalty(mem: real): (r: int)
    ensures 0 <= r <= 25
    ensures r == 0 <==> mem <= 75.0
    ensures r == 25 <==> mem > 90.0
  {
    if mem > 90.0 then 25 else if mem > 75.0 then 15 else 0
  }

  /** A higher reading never costs less. */
  lemma PenaltiesMonotone(a: real, b: real)
    requires a <= b
    ensures CpuPenalty(a) <= CpuPenalty(b) && MemoryPenalty(a) <= MemoryPenalty(b)
  {
  }

  /** `successful / total < 0.8`, written without division. */
  predicate LowForwardRate(success: nat, fail: nat)
  {
    success + fail > 0 && 5 * success < 4 * (success + fail)
  }

  /** The score of `get_health_check`: 100 less the tiered deductions. */
  function HealthScore(r: Readings, s: AccountStats, success: nat, fail: nat): (score: int)
    ensures 20 <= score <= 100
    ensures score == 100 <==> CpuPenalty(r.cpuPercent) == 0 && MemoryPenalty(r.memoryPercent) == 0
                              && s.connected >= s.total && !LowForwardRate(success, fail)
  {
    100 - CpuPenalty(r.cpuPercent) - MemoryPenalty(r.memoryPercent)
    - (if s.connected < s.total then 15 else 0)
    - (if LowForwardRate(success, fail) then 20 else 0)
  }

  datatype Health = Excellent | Good | Fair | NeedsAttention

  /** The label thresholds 90, 70 and 50. */
  function HealthOf(score: int): (h: Health)
    ensures h == Excellent <==> score >= 90
    ensures h == NeedsAttention <==> score < 50
  {
    if score >= 90 then Excellent else if score >= 70 then Good else if score >= 50 then Fair else NeedsAttention
  }

  /** The reported score: `max(0, score)`, which never differs from the score itself. */
  lemma ReportedScoreUnclamped(r: Readings, s: AccountStats, success: nat, fail: nat)
    ensures (if HealthScore(r, s, success, fail) < 0 then 0 else HealthScore(r, s, success, fail)) == HealthScore(r, s, success, fail)
  {
  }

  /** Every failing check lowers the score: a fully failed system still scores 20, "needs attention". */
  lemma WorstHealth(r: Readings, s: AccountStats, success: nat, fail: nat)
    requires r.cpuPercent > 80.0 && r.memoryPercent > 90.0 && s.connected < s.total && LowForwardRate(success, fail)
    ensures HealthScore(r, s, success, fail) == 20 && HealthOf(HealthScore(r, s, success, fail)) == NeedsAttention
  {
  }

  /** A forward record where at least four in five succeeded is never a low rate. */
  lemma GoodForwardRate(success: nat, fail: nat)
    requires 4 * fail <= success
    ensures !LowForwardRate(success, fail)
  {
  }

  // ---------------------------------------------------------------- counters

  class StatusMonitor {
    var messageCount: nat
    var forwardSuccess: nat
    var forwardFail: nat
    var aiCalls: nat
    var processingTimes: seq<real>
    var messageTimestamps: seq<real>

    /** The processing-time buffer never exceeds 100 values. */
    predicate Valid()
      reads this
    {
      |processingTimes| <= MaxProcessingTimes
    }

    constructor ()
      ensures Valid()
      ensures messageCount == 0 && forwardSuccess == 0 && forwardFail == 0 && aiCalls == 0
      ensures processingTimes == [] && messageTimestamps == []
    {
      messageCount, forwardSuccess, forwardFail, aiCalls := 0, 0, 0, 0;
      processingTimes, messageTimestamps := [], [];
    }

    /**
     * `record_message_processed` at clock time `now`: one more message, the
     * time buffered when given, and only the last hour of timestamps kept.
     */
    method RecordMessageProcessed(now: real, processingTime: Option<real>)
      requires Valid()
      modifies this`messageCount, this`processingTimes, this`messageTimestamps
      ensures Valid()
      ensures messageCount == old(messageCount) + 1
      ensures processingTimes == if processingTime.Some? then PushProcessingTime(old(processingTimes), processingTime.value)
                                 else old(processingTimes)
      ensures messageTimestamps == After(old(messageTimestamps) + [now], now - TimestampWindow)
      ensures forall k :: 0 <= k < |messageTimestamps| ==> messageTimestamps[k] > now - TimestampWindow
      ensures now in messageTimestamps
    {
      messageCount := messageCount + 1;
      messageTimestamps := messageTimestamps + [now];
      if processingTime.Some? {
        processingTimes := processingTimes + [processingTime.value];
        if |processingTimes| > MaxProcessingTimes {
          processingTimes := processingTimes[1..];
        }
      }
      messageTimestamps := After(messageTimestamps, now - TimestampWindow);
    }

    /** `get_messages_per_minute`: the timestamps of the last minute. */
    function MessagesPerMinute(now: real): (r: nat)
      reads this
      ensures r <= |messageTimestamps|
    {
      |After(messageTimestamps, now - MinuteWindow)|
    }

    /** `record_forward_result`: exactly one of the two counters grows. */
    method RecordForwardResult(success: bool)
      modifies this`forwardSuccess, this`forwardFail
      ensures forwardSuccess + forwardFail == old(forwardSuccess) + old(forwardFail) + 1
      ensures success ==> forwardSuccess == old(forwardSuccess) + 1 && forwardFail == old(forwardFail)
      ensures !success ==> forwardFail == old(forwardFail) + 1 && forwardSuccess == old(forwardSuccess)
    {
      if success {
        forwardSuccess := forwardSuccess + 1;
      } else {
        forwardFail := forwardFail + 1;
      }
    }

    method RecordAiCall()
      modifies this`aiCalls
      ensures aiCalls == old(aiCalls) + 1
    {
      aiCalls := aiCalls + 1;
    }
  }

  /** Dropping the hour-old timestamps never changes the per-minute count. */
  lemma HourFilterKeepsMinuteCount(ts: seq<real>, now: real)
    ensures |After(After(ts, now - TimestampWindow), now - MinuteWindow)| == |After(ts, now - MinuteWindow)|
  {
    AfterAfter(ts, now - TimestampWindow, now - MinuteWindow);
  }

  /** Right after a message is recorded at `now`, the per-minute count includes it. */
  lemma RecordedMessageCounts(ts: seq<real>, now: real)
    ensures |After(After(ts + [now], now - TimestampWindow), now - MinuteWindow)| >= 1
  {
    AfterAfter(ts + [now], now - TimestampWindow, now - MinuteWindow);
    AfterSnoc(ts, now, now - MinuteWindow);
  }
}
