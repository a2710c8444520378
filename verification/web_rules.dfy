/**
 * The rules embedded in the web handlers (ui/web_app.py): how a scheduled
 * message's execution limit and schedule are read from a request, what
 * pausing and resuming a scheduled message does to its count, how the
 * dialog list of an account is collected, classified, filtered and paged,
 * and how imported flags are read as booleans.
 */
module WebRules {
  import opened Wrappers
  import opened PyStr
  import opened ScheduledJobs
  import Validators
  import CW = ConfigWizard
  import MonitorEngine

  // ---------------------------------------------------------------- execution limits

  /** `int(v)`: booleans count as 0 and 1, strings are parsed, anything else raises (None). */
  function IntOf(v: CW.Value): (r: Option<int>)
    ensures v.Int? ==> r == Some(v.i)
    ensures v.Null? ==> r == None
  {
    match v
    case Null => None
    case Bool(b) => Some(if b then 1 else 0)
    case Int(i) => Some(i)
    case Str(s) => ParseInt(s)
  }

  /** `max_executions` when a scheduled message is created: "" and None mean no limit, and so does anything `int` refuses. */
  function CreateLimit(v: CW.Value): (r: Option<int>)
    ensures v == CW.Str("") || v == CW.Null ==> r == None
    ensures r.Some? ==> IntOf(v) == r
  {
    if v == CW.Str("") || v == CW.Null then None else IntOf(v)
  }

  /** `max_executions` when a scheduled message is updated: 0 (and so False) and every value ≤ 0 also mean no limit. */
  function UpdateLimit(v: CW.Value): (r: Option<int>)
    ensures r.Some? ==> r.value > 0
  {
    if v == CW.Str("") || v == CW.Null || CW.PyEq(v, CW.Int(0)) then None
    else
      match IntOf(v)
      case None => None
      case Some(n) => if n <= 0 then None else Some(n)
  }

  /** The update rule is the create rule with non-positive limits dropped. */
  lemma UpdateIsPositiveCreate(v: CW.Value)
    ensures UpdateLimit(v) == (if CreateLimit(v).Some? && CreateLimit(v).value > 0 then CreateLimit(v) else None)
  {
    if CW.PyEq(v, CW.Int(0)) {
      assert IntOf(v) == Some(0);
    }
  }

  /** A limit of 0 survives creation but not an update; the engine treats it as no limit either way. */
  lemma ZeroLimitOnlyKeptOnCreate()
    ensures CreateLimit(CW.Int(0)) == Some(0)
    ensures CreateLimit(CW.Bool(false)) == Some(0)
    ensures UpdateLimit(CW.Int(0)) == None
    ensures UpdateLimit(CW.Bool(false)) == None
    ensures !TruthyMax(CreateLimit(CW.Int(0)))
  {
  }

  /** A limit sent as its decimal text is read back as that number, on create and (when positive) on update. */
  lemma LimitTextRoundTrip(n: int)
    ensures CreateLimit(CW.Str(IntToString(n))) == Some(n)
    ensures n > 0 ==> UpdateLimit(CW.Str(IntToString(n))) == Some(n)
  {
    ParseIntOfIntToString(n);
    UpdateIsPositiveCreate(CW.Str(IntToString(n)));
  }

  // ---------------------------------------------------------------- schedules

  datatype ScheduleError =
    | EmptySchedule
    | IntervalFieldCount
    | IntervalNotInteger
    | IntervalOutOfRange
    | IntervalZero
    | CronRejected(verdict: Validators.CronVerdict)

  /**
   * An interval schedule "hours minutes": exactly two whitespace-separated
   * integers, hours ≥ 0, minutes in 0..59, and not both zero.
   */
  function ParseInterval(expr: string): (r: Result<(int, int), ScheduleError>)
    ensures r.Ok? ==> r.value.0 >= 0 && 0 <= r.value.1 <= 59 && r.value.0 * 60 + r.value.1 >= 1
    ensures r.Ok? ==> |SplitWs(expr)| == 2
  {
    IntervalOfParts(SplitWs(expr))
  }

  /** The interval check on the whitespace-separated pieces. */
  function IntervalOfParts(parts: seq<string>): (r: Result<(int, int), ScheduleError>)
    ensures r.Ok? ==> |parts| == 2
    ensures r.Ok? ==> r.value.0 >= 0 && 0 <= r.value.1 <= 59 && r.value.0 * 60 + r.value.1 >= 1
  {
    if |parts| != 2 then Err(IntervalFieldCount)
    else
      var hours := ParseInt(parts[0]);
      var minutes := ParseInt(parts[1]);
      if hours.None? || minutes.None? then Err(IntervalNotInteger)
      else if hours.value < 0 || minutes.value < 0 || minutes.value > 59 then Err(IntervalOutOfRange)
      else if hours.value == 0 && minutes.value == 0 then Err(IntervalZero)
      else Ok((hours.value, minutes.value))
  }

  /** The schedule check of `create_scheduled_message`; `schedulerAccepts` is the scheduler's own verdict on a cron text. */
  function CheckSchedule(mode: string, expr: string, schedulerAccepts: bool): (r: Option<ScheduleError>)
    ensures expr == "" ==> r == Some(EmptySchedule)
    ensures mode == "interval" && r.None? ==> ParseInterval(expr).Ok?
    ensures mode != "interval" && r.None? ==> Validators.ValidateCron(expr, schedulerAccepts) == Validators.CronValid
  {
    if expr == "" then Some(EmptySchedule)
    else if mode == "interval" then
      match ParseInterval(expr)
      case Ok(_) => None
      case Err(e) => Some(e)
    else
      var verdict := Validators.ValidateCron(expr, schedulerAccepts);
      if verdict == Validators.CronValid then None else Some(CronRejected(verdict))
  }

  /** A space-free word at the front of a string is its first piece. */
  lemma SplitWsOfWordThen(a: string, rest: string)
    requires a != [] && forall k :: 0 <= k < |a| ==> !IsSpace(a[k])
    requires rest == [] || IsSpace(rest[0])
    ensures SplitWs(a + rest) == [a] + SplitWs(rest)
  {
    var s := a + rest;
    assert s[0] == a[0];
    assert StripLeft(s) == s;
    Validators.WordOfPrefix(a, rest);
    assert s[|a|..] == rest;
  }

  /** Leading whitespace does not change the pieces. */
  lemma SplitWsSkipsSpace(c: char, b: string)
    requires IsSpace(c)
    ensures SplitWs([c] + b) == SplitWs(b)
  {
    assert ([c] + b)[1..] == b;
    assert StripLeft([c] + b) == StripLeft(b);
  }

  /** Two space-free words joined by one space split back into those words. */
  lemma SplitTwoWords(a: string, c: char, b: string)
    requires a != [] && b != [] && IsSpace(c)
    requires forall k :: 0 <= k < |a| ==> !IsSpace(a[k])
    requires forall k :: 0 <= k < |b| ==> !IsSpace(b[k])
    ensures SplitWs(a + ([c] + b)) == [a, b]
  {
    SplitWsSkipsSpace(c, b);
    Validators.SplitWsSingle(b);
    SplitWsOfWordThen(a, [c] + b);
  }

  /** The decimal text of a non-negative number has no space. */
  lemma DigitsHaveNoSpace(n: nat)
    ensures forall k :: 0 <= k < |IntToString(n)| ==> !IsSpace(IntToString(n)[k])
  {
  }

  /** An interval written as "hours minutes". */
  function IntervalText(hours: int, minutes: int): string
  {
    IntToString(hours) + ([' '] + IntToString(minutes))
  }

  /** The pieces of a valid interval pass the check unchanged. */
  lemma ValidPartsAccepted(hours: nat, minutes: nat)
    requires minutes <= 59 && hours * 60 + minutes >= 1
    ensures IntervalOfParts([IntToString(hours), IntToString(minutes)]) == Ok((hours as int, minutes as int))
  {
    ParseIntOfIntToString(hours);
    ParseIntOfIntToString(minutes);
  }

  /** Every valid interval, written as "hours minutes", is accepted and read back unchanged. */
  lemma IntervalRoundTrip(hours: nat, minutes: nat)
    requires minutes <= 59 && hours * 60 + minutes >= 1
    ensures ParseInterval(IntervalText(hours, minutes)) == Ok((hours as int, minutes as int))
  {
    DigitsHaveNoSpace(hours);
    DigitsHaveNoSpace(minutes);
    SplitTwoWords(IntToString(hours), ' ', IntToString(minutes));
    ValidPartsAccepted(hours, minutes);
  }

  // ---------------------------------------------------------------- pause and resume

  /**
   * `toggle_scheduled_message` on one entry: `active` is set as requested,
   * and resuming a job whose count has reached a truthy limit starts its
   * count again from 0.
   */
  function ToggledEntry(e: ScheduledEntry, active: bool): (r: ScheduledEntry)
    ensures r.active == active
    ensures r.executionCount == (if active && LimitHit(e) then 0 else e.executionCount)
    ensures r.(active := e.active, executionCount := e.executionCount) == e
  {
    e.(active := active, executionCount := if active && LimitHit(e) then 0 else e.executionCount)
  }

  /** The entries after a toggle: only the first entry with the id changes. */
  function Toggled(entries: seq<ScheduledEntry>, jobId: string, active: bool): (r: seq<ScheduledEntry>)
    ensures |r| == |entries|
  {
    match FirstJob(entries, jobId)
    case None => entries
    case Some(i) => entries[i := ToggledEntry(entries[i], active)]
  }

  /** A resumed job whose limit had stopped it can run again. */
  lemma ResumeAfterLimitRunsAgain(e: ScheduledEntry)
    requires LimitHit(e) && e.maxExecutions.value > 0
    ensures !LimitHit(ToggledEntry(e, true)) && ToggledEntry(e, true).active
  {
  }

  /** Pausing and resuming keep every job within its limit. */
  lemma ToggleKeepsLimits(entries: seq<ScheduledEntry>, jobId: string, active: bool)
    requires AllWithinLimit(entries)
    ensures AllWithinLimit(Toggled(entries, jobId, active))
  {
    match FirstJob(entries, jobId)
    case None =>
    case Some(i) =>
      var e := entries[i];
      assert WithinLimit(e);
      assert WithinLimit(ToggledEntry(e, active));
  }

  /** The handler's loop over the engine's entries: the first with the id is toggled; false when there is none. */
  method ToggleScheduled(engine: MonitorEngine.Engine, jobId: string, active: bool) returns (found: bool)
    modifies engine`scheduled
    ensures found <==> exists k :: 0 <= k < |old(engine.scheduled)| && old(engine.scheduled)[k].jobId == jobId
    ensures engine.scheduled == Toggled(old(engine.scheduled), jobId, active)
    ensures old(AllWithinLimit(engine.scheduled)) ==> AllWithinLimit(engine.scheduled)
  {
    if AllWithinLimit(engine.scheduled) {
      ToggleKeepsLimits(engine.scheduled, jobId, active);
    }
    var i := 0;
    while i < |engine.scheduled|
      invariant 0 <= i <= |engine.scheduled|
      invariant engine.scheduled == old(engine.scheduled)
      invariant forall k :: 0 <= k < i ==> engine.scheduled[k].jobId != jobId
    {
      if engine.scheduled[i].jobId == jobId {
        assert FirstJob(engine.scheduled, jobId) == Some(i);
        engine.scheduled := engine.scheduled[i := ToggledEntry(engine.scheduled[i], active)];
        return true;
      }
      i := i + 1;
    }
    return false;
  }

  // ---------------------------------------------------------------- booleans

  /** `convert_bool`: a string is true when it is one of four words in any case; anything else by its truthiness. */
  function ConvertBool(v: CW.Value): (r: bool)
    ensures !v.Str? ==> r == CW.Truthy(v)
  {
    match v
    case Str(s) => Lower(s) in {"true", "on", "yes", "1"}
    case _ => CW.Truthy(v)
  }

  /** `fetch_all`: the channel list reads its flag against a different word list, without "on". */
  predicate FetchAllRequested(flag: string)
    ensures FetchAllRequested(flag) ==> ConvertBool(CW.Str(flag))
    ensures Lower(flag) == "on" ==> !FetchAllRequested(flag) && ConvertBool(CW.Str(flag))
  {
    Lower(flag) in {"1", "true", "yes"}
  }

  /** Case does not matter to `convert_bool`. */
  lemma ConvertBoolIgnoresCase(s: string)
    ensures ConvertBool(CW.Str(s)) == ConvertBool(CW.Str(Lower(s)))
  {
    LowerIdempotent(s);
  }

  /** A non-empty string is truthy, yet "no" or "off" convert to false; "on" converts to true but does not request a full fetch. */
  lemma StringsAreNotTruthiness()
    ensures CW.Truthy(CW.Str("off")) && !ConvertBool(CW.Str("off"))
    ensures ConvertBool(CW.Str("on")) && !FetchAllRequested("on")
  {
    assert Lower("off") == "off";
    assert Lower("on") == "on";
  }

  // ---------------------------------------------------------------- dialogs

  /** What a dialog is attached to: a user, some other chat (with its public username, "" if none), or nothing. */
  datatype Entity =
    | UserEntity(bot: bool, username: string, verified: bool, firstName: string, lastName: string)
    | ChatEntity(chatUsername: string)
    | NoEntity

  datatype Dialog = Dialog(id: int, title: string, isChannel: bool, isGroup: bool, entity: Entity)

  datatype DialogKind = BotDialog | ChannelDialog | GroupDialog | UserDialog | UnknownDialog

  function UsernameOf(e: Entity): string
  {
    match e
    case UserEntity(_, username, _, _, _) => username
    case ChatEntity(username) => username
    case NoEntity => ""
  }

  /** A user dialog is a bot when flagged as one, when its username ends in "bot" in any case, or when it is verified and has a username. */
  predicate IsBot(d: Dialog)
    ensures IsBot(d) ==> d.entity.UserEntity?
    ensures d.entity.UserEntity? && d.entity.bot ==> IsBot(d)
    ensures d.entity.UserEntity? && d.entity.verified && d.entity.username != "" ==> IsBot(d)
    ensures d.entity.UserEntity? && d.entity.username == "" && !d.entity.bot ==> !IsBot(d)
  {
    d.entity.UserEntity?
    && (d.entity.bot || EndsWith(Lower(d.entity.username), "bot") || (d.entity.verified && d.entity.username != ""))
  }

  /** The type of a listed dialog, or None when the dialog is skipped; bot wins over channel, channel over group, group over user. */
  function KindOf(d: Dialog): (r: Option<DialogKind>)
    ensures r.None? <==> !(d.isChannel || d.isGroup || d.entity.UserEntity?)
    ensures r == Some(BotDialog) <==> IsBot(d)
    ensures r == Some(ChannelDialog) <==> !IsBot(d) && d.isChannel
    ensures r == Some(GroupDialog) <==> !IsBot(d) && !d.isChannel && d.isGroup
    ensures r == Some(UserDialog) <==> !IsBot(d) && !d.isChannel && !d.isGroup && d.entity.UserEntity?
  {
    var isUser := d.entity.UserEntity?;
    if !(d.isChannel || d.isGroup || IsBot(d) || isUser) then None
    else if IsBot(d) then Some(BotDialog)
    else if d.isChannel then Some(ChannelDialog)
    else if d.isGroup then Some(GroupDialog)
    else if isUser then Some(UserDialog)
    else Some(UnknownDialog)
  }

  /** The "unknown" type is never produced: every dialog that passes the filter has one of the four types. */
  lemma NoUnknownDialogs(d: Dialog)
    ensures KindOf(d) != Some(UnknownDialog)
  {
  }

  /** A bot that is also flagged as a channel or group is listed as a bot. */
  lemma BotWinsOverChannel(d: Dialog)
    requires d.entity.UserEntity? && d.entity.bot && d.isChannel && d.isGroup
    ensures KindOf(d) == Some(BotDialog)
  {
  }

  function Take(s: string, n: nat): (r: string)
    ensures |r| <= n && |r| <= |s|
    ensures |s| <= n ==> r == s
  {
    if |s| <= n then s else s[..n]
  }

  /**
   * The name shown for a dialog (`position` is its 1-based place in the
   * iteration): its title; for a user without one, the full name with the
   * username in brackets, "@username", or "用户_id"; otherwise "对话_position";
   * at most 100 characters.
   */
  function TitleOf(d: Dialog, position: nat): (r: string)
    ensures |r| <= 100
    ensures d.title != "" ==> r == Take(d.title, 100)
  {
    if d.title != "" then Take(d.title, 100)
    else if d.entity.UserEntity? then
      var e := d.entity;
      var t :=
        if e.firstName != "" || e.lastName != "" then
          Strip(e.firstName + " " + e.lastName) + (if e.username != "" then " (@" + e.username + ")" else "")
        else if e.username != "" then "@" + e.username
        else "用户_" + IntToString(d.id);
      Take(t, 100)
    else
      Take("对话_" + IntToString(position), 100)
  }

  /** The link shown for a dialog: its public address, else a note for private groups, bots and private chats. */
  function LinkOf(kind: DialogKind, username: string, id: string): (r: string)
    ensures username != "" ==> r == "https://t.me/" + username
    ensures r == "" <==> username == "" && kind != GroupDialog && kind != BotDialog && kind != UserDialog
  {
    if username != "" then "https://t.me/" + username
    else if kind == GroupDialog then "私密群"
    else if kind == BotDialog then "Bot ID: " + id
    else if kind == UserDialog then "私聊 ID: " + id
    else ""
  }

  datatype ChannelInfo = ChannelInfo(id: string, name: string, kind: DialogKind, link: string)

  /** The entry listed for the dialog at 1-based `position`, or None when it is skipped by type or by the search text. */
  function InfoOf(d: Dialog, position: nat, search: string): (r: Option<ChannelInfo>)
    ensures r.Some? ==> KindOf(d) == Some(r.value.kind) && r.value.kind != UnknownDialog
    ensures r.Some? && search != "" ==> Contains(Lower(r.value.name), Lower(search))
    ensures r.Some? ==> r.value.name == TitleOf(d, position)
  {
    match KindOf(d)
    case None => None
    case Some(kind) =>
      var name := TitleOf(d, position);
      if search != "" && !Contains(Lower(name), Lower(search)) then None
      else
        var id := if d.id != 0 then IntToString(d.id) else IntToString(position);
        Some(ChannelInfo(id, name, kind, LinkOf(kind, UsernameOf(d.entity), id)))
  }

  /** The channel list built from the dialogs, in order. */
  function Listed(dialogs: seq<Dialog>, search: string): (r: seq<ChannelInfo>)
    ensures |r| <= |dialogs|
    ensures forall k :: 0 <= k < |r| ==> r[k].kind != UnknownDialog
    ensures search != "" ==> forall k :: 0 <= k < |r| ==> Contains(Lower(r[k].name), Lower(search))
  {
    if dialogs == [] then []
    else
      var n := |dialogs| - 1;
      Listed(dialogs[..n], search)
      + match InfoOf(dialogs[n], n + 1, search) { case Some(info) => [info] case None => [] }
  }

  /** The handler's loop over the dialogs, proved against `Listed`. */
  method ListChannels(dialogs: seq<Dialog>, search: string) returns (channels: seq<ChannelInfo>)
    ensures channels == Listed(dialogs, search)
  {
    channels := [];
    var count := 0;
    while count < |dialogs|
      invariant 0 <= count <= |dialogs|
      invariant channels == Listed(dialogs[..count], search)
    {
      assert dialogs[..count + 1][..count] == dialogs[..count];
      var info := InfoOf(dialogs[count], count + 1, search);
      count := count + 1;
      if info.Some? {
        channels := channels + [info.value];
      }
    }
    assert dialogs[..count] == dialogs;
  }

  /** The ids of a list of dialogs. */
  function Ids(ds: seq<Dialog>): set<int>
  {
    set k | 0 <= k < |ds| :: ds[k].id
  }

  /** One place of the room used up. */
  function Spend(room: Option<nat>): Option<nat>
  {
    if room.Some? && room.value > 0 then Some(room.value - 1) else room
  }

  /**
   * One `iter_dialogs` pass: the dialogs whose id was not seen before, in
   * order, stopping once `room` of them were taken (no bound when None).
   */
  function Gather(ds: seq<Dialog>, seen: set<int>, room: Option<nat>): (r: seq<Dialog>)
    ensures |r| <= |ds|
    ensures room.Some? ==> |r| <= room.value
    ensures forall k :: 0 <= k < |r| ==> r[k] in ds && r[k].id !in seen
    ensures forall k, m :: 0 <= k < m < |r| ==> r[k].id != r[m].id
    decreases |ds|
  {
    if ds == [] || room == Some(0) then []
    else if ds[0].id in seen then Gather(ds[1..], seen, room)
    else
      [ds[0]] + Gather(ds[1..], seen + {ds[0].id}, Spend(room))
  }

  /** The two passes of the channel handler: unarchived dialogs (at most 200), then archived ones not yet seen (at most 50); no bound for a full fetch. */
  function Collected(recent: seq<Dialog>, archived: seq<Dialog>, fetchAll: bool): (r: seq<Dialog>)
    ensures forall k, m :: 0 <= k < m < |r| ==> r[k].id != r[m].id
    ensures !fetchAll ==> |r| <= 250
  {
    var first := Gather(recent, {}, if fetchAll then None else Some(200));
    var second := Gather(archived, Ids(first), if fetchAll then None else Some(50));
    forall k, m | 0 <= k < |first| <= m < |first| + |second|
      ensures (first + second)[k].id != (first + second)[m].id
    {
      assert (first + second)[m] == second[m - |first|];
      assert first[k].id in Ids(first);
    }
    first + second
  }

  /** Gather one more dialog onto a list: the ids grow by its id. */
  lemma IdsSnoc(taken: seq<Dialog>, d: Dialog)
    ensures Ids(taken + [d]) == Ids(taken) + {d.id}
  {
    var t := taken + [d];
    forall x | x in Ids(t) ensures x in Ids(taken) + {d.id} {
      var k :| 0 <= k < |t| && t[k].id == x;
      if k < |taken| { assert t[k] == taken[k]; }
    }
    forall x | x in Ids(taken) ensures x in Ids(t) {
      var k :| 0 <= k < |taken| && taken[k].id == x;
      assert t[k] == taken[k];
    }
    assert t[|taken|] == d;
  }

  /** `Gather` from position `i`, unfolded once. */
  lemma GatherStep(ds: seq<Dialog>, i: nat, seen: set<int>, room: Option<nat>)
    requires i < |ds| && room != Some(0)
    ensures Gather(ds[i..], seen, room) ==
      if ds[i].id in seen then Gather(ds[i + 1..], seen, room)
      else [ds[i]] + Gather(ds[i + 1..], seen + {ds[i].id}, Spend(room))
  {
    assert ds[i..][1..] == ds[i + 1..];
  }

  /** One pass as the handler loops it: skip a seen id, record and append a new one, stop once `room` were taken. */
  method GatherLoop(ds: seq<Dialog>, seen: set<int>, room: Option<nat>) returns (taken: seq<Dialog>, seenAfter: set<int>)
    ensures taken == Gather(ds, seen, room)
    ensures seenAfter == seen + Ids(taken)
  {
    taken := [];
    seenAfter := seen;
    var left := room;
    var i := 0;
    assert ds[0..] == ds;
    while i < |ds| && left != Some(0)
      invariant 0 <= i <= |ds|
      invariant taken + Gather(ds[i..], seenAfter, left) == Gather(ds, seen, room)
      invariant seenAfter == seen + Ids(taken)
      decreases |ds| - i
    {
      GatherStep(ds, i, seenAfter, left);
      if ds[i].id !in seenAfter {
        ghost var g := Gather(ds[i + 1..], seenAfter + {ds[i].id}, Spend(left));
        assert taken + ([ds[i]] + g) == (taken + [ds[i]]) + g;
        IdsSnoc(taken, ds[i]);
        taken := taken + [ds[i]];
        seenAfter := seenAfter + {ds[i].id};
        left := Spend(left);
      }
      i := i + 1;
    }
    assert Gather(ds[i..], seenAfter, left) == [];
  }

  /** Both passes, proved against `Collected`. */
  method CollectDialogs(recent: seq<Dialog>, archived: seq<Dialog>, fetchAll: bool) returns (dialogs: seq<Dialog>)
    ensures dialogs == Collected(recent, archived, fetchAll)
  {
    var first, seen := GatherLoop(recent, {}, if fetchAll then None else Some(200));
    assert seen == Ids(first);
    var second, _ := GatherLoop(archived, seen, if fetchAll then None else Some(50));
    dialogs := first + second;
  }

  // ---------------------------------------------------------------- pages

  /** Python's `a // b`: the floor of the quotient, also for a negative divisor. */
  function FloorDiv(a: int, b: int): int
    requires b != 0
  {
    if b > 0 then a / b else (-a) / (-b)
  }

  /** Where a Python slice bound lands in a sequence of length `n`: negative bounds count from the end, and bounds are clamped. */
  function SliceBound(i: int, n: nat): (r: nat)
    ensures r <= n
    ensures 0 <= i <= n ==> r == i
  {
    if i < 0 then (if n + i < 0 then 0 else n + i) else if i > n then n else i
  }

  /** `s[a:b]` */
  function PySlice<T>(s: seq<T>, a: int, b: int): (r: seq<T>)
    ensures |r| <= |s|
  {
    var lo := SliceBound(a, |s|);
    var hi := SliceBound(b, |s|);
    if hi <= lo then [] else s[lo..hi]
  }

  datatype PageView<T> = PageView(items: seq<T>, total: nat, totalPages: Option<int>)

  /**
   * The paging of the channel list: everything for a full fetch, else the
   * slice [(page-1)·limit, page·limit) with ⌈total/limit⌉ pages. A limit of
   * 0 makes the page count divide by zero, and the handler answers with a
   * failure (None).
   */
  function Paginate<T>(items: seq<T>, page: int, limit: int, fetchAll: bool): (r: Option<PageView<T>>)
    ensures r.None? <==> !fetchAll && limit == 0
    ensures r.Some? ==> r.value.total == |items|
    ensures fetchAll ==> r == Some(PageView(items, |items|, None))
  {
    if fetchAll then Some(PageView(items, |items|, None))
    else if limit == 0 then None
    else
      var start := (page - 1) * limit;
      Some(PageView(PySlice(items, start, start + limit), |items|, Some(FloorDiv(|items| + limit - 1, limit))))
  }

  function Min(a: int, b: int): int
  {
    if a <= b then a else b
  }

  /** A slice of `limit` items from a non-negative start. */
  lemma SliceWindow<T>(items: seq<T>, start: int, limit: int)
    requires start >= 0 && limit >= 1
    ensures start >= |items| ==> PySlice(items, start, start + limit) == []
    ensures start < |items| ==> PySlice(items, start, start + limit) == items[start..Min(start + limit, |items|)]
  {
  }

  /** For a positive page and limit, a page is the window of at most `limit` items starting at (page-1)·limit. */
  lemma PageWindow<T>(items: seq<T>, page: int, limit: int)
    requires page >= 1 && limit >= 1
    ensures var start := (page - 1) * limit;
      var r := Paginate(items, page, limit, false);
      r.Some? && |r.value.items| <= limit
      && (start >= |items| ==> r.value.items == [])
      && (start < |items| ==> r.value.items == items[start..Min(start + limit, |items|)])
  {
    var start := (page - 1) * limit;
    MulMonotone(0, page - 1, limit);
    SliceWindow(items, start, limit);
  }

  /** ⌈n/limit⌉ is the number of pages whose first index lies before n. */
  lemma CeilPages(n: nat, limit: int, page: int)
    requires limit >= 1 && page >= 1
    ensures (page - 1) * limit < n <==> page <= (n + limit - 1) / limit
  {
    var q := (n + limit - 1) / limit;
    var rem := (n + limit - 1) % limit;
    assert q * limit + rem == n + limit - 1;
    assert 0 <= rem < limit;
    if page <= q {
      MulMonotone(page - 1, q - 1, limit);
      assert (q - 1) * limit == q * limit - limit;
    } else {
      MulMonotone(q, page - 1, limit);
    }
  }

  /** With a positive limit, a positive page has items exactly when it is at most the page count. */
  lemma PageNonEmptyIff<T>(items: seq<T>, page: int, limit: int)
    requires page >= 1 && limit >= 1
    ensures var r := Paginate(items, page, limit, false).value;
      r.items != [] <==> page <= r.totalPages.value
  {
    PageWindow(items, page, limit);
    CeilPages(|items|, limit, page);
  }

  lemma MulMonotone(a: int, b: int, c: int)
    requires a <= b && c >= 0
    ensures a * c <= b * c
  {
    assert b * c - a * c == (b - a) * c;
  }

  /** Every item is on page ⌊k/limit⌋+1, at position k mod limit. */
  lemma ItemOnItsPage<T>(items: seq<T>, limit: int, k: nat)
    requires limit >= 1 && k < |items|
    ensures var r := Paginate(items, k / limit + 1, limit, false).value;
      k % limit < |r.items| && r.items[k % limit] == items[k]
  {
    var page := k / limit + 1;
    var start := (page - 1) * limit;
    assert start == k - k % limit by {
      assert (k / limit) * limit + k % limit == k;
    }
    PageWindow(items, page, limit);
  }

  /** Page 0 is always empty: its slice ends at index 0. */
  lemma PageZeroIsEmpty<T>(items: seq<T>, limit: int)
    requires limit >= 1
    ensures Paginate(items, 0, limit, false).value.items == []
  {
  }
}
