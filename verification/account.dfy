/**
 * Account records (models/account.py): connection settings with their
 * session-name default, the per-account monitor-configuration sections and
 * their in-place edits, the status labels, and the dict round trip.
 */
module Account {
  import opened Wrappers

  datatype ProxyKind = Socks5 | Socks4 | Http

  /** The Telethon proxy tuple: (type, host, port) or (type, host, port, rdns, user, password). */
  datatype Proxy =
    | Proxy3(kind: ProxyKind, host: string, port: int)
    | Proxy6(kind: ProxyKind, host: string, port: int, rdns: bool, username: string, password: string)

  datatype AccountConfig = AccountConfig(
    phone: string,
    apiId: int,
    apiHash: string,
    proxy: Option<Proxy>,
    sessionName: string)

  /** `phone.replace('+', '')` */
  function RemovePlus(s: string): (r: string)
    ensures '+' !in r
    ensures |r| <= |s|
    ensures '+' !in s ==> r == s
    ensures multiset(r) == multiset(s)['+' := 0]
  {
    if s == [] then []
    else
      assert s == [s[0]] + s[1..];
      (if s[0] == '+' then [] else [s[0]]) + RemovePlus(s[1..])
  }

  /** Removing '+' works piece by piece: the characters left keep their order. */
  lemma {:induction false} RemovePlusConcat(a: string, b: string)
    ensures RemovePlus(a + b) == RemovePlus(a) + RemovePlus(b)
    decreases |a|
  {
    if a != [] {
      assert (a + b)[1..] == a[1..] + b;
      RemovePlusConcat(a[1..], b);
    } else {
      assert a + b == b;
    }
  }

  /** Exactly the '+' characters go: stripping a leading "+" is the same as dropping it. */
  lemma RemovePlusLeading(s: string)
    ensures RemovePlus("+" + s) == RemovePlus(s)
  {
    assert ("+" + s)[1..] == s;
  }

  /** `AccountConfig.__post_init__`: an empty session name becomes "session_" + phone without '+'. */
  function AccountConfigPostInit(c: AccountConfig): (r: AccountConfig)
    ensures r.sessionName != ""
    ensures c.sessionName != "" ==> r == c
    ensures c.sessionName == "" ==> r == c.(sessionName := "session_" + RemovePlus(c.phone))
  {
    if c.sessionName == "" then c.(sessionName := "session_" + RemovePlus(c.phone)) else c
  }

  /** Running the default twice changes nothing more. */
  lemma AccountConfigPostInitIdempotent(c: AccountConfig)
    ensures AccountConfigPostInit(AccountConfigPostInit(c)) == AccountConfigPostInit(c)
  {
  }

  /** A configuration record, kept opaque. */
  datatype ConfigData = ConfigData(fields: map<string, string>)

  /** A monitor-configuration section is a dict keyed by name or a list. */
  datatype Section = Table(entries: map<string, ConfigData>) | Items(items: seq<ConfigData>)

  /** The seven sections an account starts with. */
  const DefaultMonitorConfigs: map<string, Section> := map[
    "keyword_config" := Table(map[]),
    "file_extension_config" := Table(map[]),
    "all_messages_config" := Table(map[]),
    "button_keyword_config" := Table(map[]),
    "image_button_monitor" := Items([]),
    "scheduled_messages" := Items([]),
    "channel_in_group_config" := Items([])]

  /** `Account.__post_init__` on the sections: empty means the defaults. */
  function MonitorConfigsPostInit(m: map<string, Section>): (r: map<string, Section>)
    ensures r != map[]
    ensures m != map[] ==> r == m
    ensures m == map[] ==> |r.Keys| == 7
  {
    if m == map[] then
      assert DefaultMonitorConfigs.Keys == {"keyword_config", "file_extension_config", "all_messages_config",
        "button_keyword_config", "image_button_monitor", "scheduled_messages", "channel_in_group_config"};
      assert "keyword_config" in DefaultMonitorConfigs;
      DefaultMonitorConfigs
    else m
  }

  /** The persistent part of an account (the Telegram client is never persisted). */
  datatype AccountState = AccountState(
    accountId: string,
    config: AccountConfig,
    ownUserId: Option<int>,
    monitorActive: bool,
    monitorConfigs: map<string, Section>)

  /** The dict written by `to_dict`; an optional key is None when absent. */
  datatype AccountDict = AccountDict(
    accountId: string,
    phone: string,
    apiId: int,
    apiHash: string,
    proxy: Option<Proxy>,
    sessionName: Option<string>,
    ownUserId: Option<int>,
    monitorActive: Option<bool>,
    monitorConfigs: Option<map<string, Section>>)

  /** `to_dict` */
  function ToDict(s: AccountState): (d: AccountDict)
    ensures d.sessionName.Some? && d.monitorActive.Some? && d.monitorConfigs.Some?
    ensures d.accountId == s.accountId && d.ownUserId == s.ownUserId
  {
    AccountDict(s.accountId, s.config.phone, s.config.apiId, s.config.apiHash, s.config.proxy,
      Some(s.config.sessionName), s.ownUserId, Some(s.monitorActive), Some(s.monitorConfigs))
  }

  /** `from_dict`: `.get` defaults, then both `__post_init__` steps. */
  function FromDict(d: AccountDict): (s: AccountState)
    ensures s.accountId == d.accountId && s.ownUserId == d.ownUserId
    ensures s.config.sessionName != "" && s.monitorConfigs != map[]
    ensures s.monitorActive == (d.monitorActive == Some(true))
  {
    var config := AccountConfigPostInit(AccountConfig(d.phone, d.apiId, d.apiHash, d.proxy, d.sessionName.GetOr("")));
    AccountState(d.accountId, config, d.ownUserId, d.monitorActive.GetOr(false),
      MonitorConfigsPostInit(d.monitorConfigs.GetOr(map[])))
  }

  /** An account as constructed (non-empty session name and sections) survives `from_dict(to_dict(a))`. */
  lemma FromDictToDict(s: AccountState)
    requires s.config.sessionName != "" && s.monitorConfigs != map[]
    ensures FromDict(ToDict(s)) == s
  {
  }

  /** Without the invariant the round trip is lossy: emptied sections come back as the defaults. */
  lemma FromDictToDictEmptySections(s: AccountState)
    requires s.config.sessionName != "" && s.monitorConfigs == map[]
    ensures FromDict(ToDict(s)).monitorConfigs == DefaultMonitorConfigs
    ensures FromDict(ToDict(s)) != s
  {
    assert "keyword_config" in DefaultMonitorConfigs;
  }

  const KnownStatuses: set<string> :=
    {"active", "disconnected", "unauthorized", "banned", "session_revoked", "invalid", "error", "connecting"}

  /** `get_status_display`: a label for each known status, "未知" for anything else. */
  function StatusDisplay(status: string): (r: string)
    ensures status !in KnownStatuses <==> r == "未知"
  {
    if status == "active" then "在线"
    else if status == "disconnected" then "离线"
    else if status == "unauthorized" then "未授权"
    else if status == "banned" then "已封禁"
    else if status == "session_revoked" then "会话失效"
    else if status == "invalid" then "账号无效"
    else if status == "error" then "连接错误"
    else if status == "connecting" then "连接中"
    else "未知"
  }

  /** Distinct known statuses have distinct labels. */
  lemma StatusDisplayInjective(a: string, b: string)
    requires a in KnownStatuses && b in KnownStatuses && a != b
    ensures StatusDisplay(a) != StatusDisplay(b)
  {
  }

  /** `is_authorized`: a Telegram user id is known. */
  predicate IsAuthorized(s: AccountState)
  {
    s.ownUserId.Some?
  }

  class Account {
    const accountId: string
    var config: AccountConfig
    var hasClient: bool
    var ownUserId: Option<int>
    var monitorActive: bool
    var monitorConfigs: map<string, Section>

    ghost predicate Valid()
      reads this
    {
      monitorConfigs != map[] && config.sessionName != ""
    }

    function State(): AccountState
      reads this
    {
      AccountState(accountId, config, ownUserId, monitorActive, monitorConfigs)
    }

    /** The dataclass constructor followed by `__post_init__`. */
    constructor (accountId: string, config: AccountConfig, ownUserId: Option<int>, monitorActive: bool,
                 monitorConfigs: map<string, Section>)
      ensures Valid()
      ensures State() == AccountState(accountId, AccountConfigPostInit(config), ownUserId, monitorActive,
        MonitorConfigsPostInit(monitorConfigs))
      ensures !hasClient
    {
      this.accountId := accountId;
      this.config := AccountConfigPostInit(config);
      this.hasClient := false;
      this.ownUserId := ownUserId;
      this.monitorActive := monitorActive;
      this.monitorConfigs := MonitorConfigsPostInit(monitorConfigs);
    }

    /** `from_dict`: a fresh account without a client. */
    static method FromDictNew(d: AccountDict) returns (a: Account)
      ensures fresh(a) && a.Valid() && !a.hasClient
      ensures a.State() == FromDict(d)
    {
      var configs := if d.monitorConfigs.Some? then d.monitorConfigs.value else map[];
      a := new Account(d.accountId, AccountConfig(d.phone, d.apiId, d.apiHash, d.proxy, d.sessionName.GetOr("")),
        d.ownUserId, d.monitorActive == Some(true), configs);
    }

    /** `get_monitor_config`: the section, or an empty dict. */
    function GetMonitorConfig(configType: string): (r: Section)
      reads this
      ensures configType in monitorConfigs ==> r == monitorConfigs[configType]
      ensures configType !in monitorConfigs ==> r == Table(map[])
    {
      if configType in monitorConfigs then monitorConfigs[configType] else Table(map[])
    }

    /** `update_monitor_config` */
    method UpdateMonitorConfig(configType: string, data: Section)
      requires Valid()
      modifies this`monitorConfigs
      ensures Valid()
      ensures monitorConfigs == old(monitorConfigs)[configType := data]
    {
      monitorConfigs := monitorConfigs[configType := data];
    }

    /**
     * `add_monitor_config`: creates a missing section as a dict, then stores
     * the entry. Storing a string key into a list section raises TypeError
     * in Python; that is `ok == false` with nothing changed.
     */
    method AddMonitorConfig(configType: string, key: string, data: ConfigData) returns (ok: bool)
      requires Valid()
      modifies this`monitorConfigs
      ensures Valid()
      ensures ok <==> configType !in old(monitorConfigs) || old(monitorConfigs)[configType].Table?
      ensures ok ==> monitorConfigs == old(monitorConfigs)[configType :=
        Table(old(GetMonitorConfig(configType)).entries[key := data])]
      ensures !ok ==> monitorConfigs == old(monitorConfigs)
    {
      if configType !in monitorConfigs {
        monitorConfigs := monitorConfigs[configType := Table(map[])];
      }
      var section := monitorConfigs[configType];
      if section.Table? {
        monitorConfigs := monitorConfigs[configType := Table(section.entries[key := data])];
        ok := true;
      } else {
        ok := false;
      }
    }

    /**
     * `remove_monitor_config`: True iff the section exists and holds the key;
     * only that entry is deleted. A string is never an element of a list
     * section of records, so list sections report False.
     */
    method RemoveMonitorConfig(configType: string, key: string) returns (removed: bool)
      requires Valid()
      modifies this`monitorConfigs
      ensures Valid()
      ensures removed <==> (configType in old(monitorConfigs) && old(monitorConfigs)[configType].Table?
                            && key in old(monitorConfigs)[configType].entries)
      ensures removed ==> monitorConfigs == old(monitorConfigs)[configType :=
        Table(old(monitorConfigs)[configType].entries - {key})]
      ensures !removed ==> monitorConfigs == old(monitorConfigs)
    {
      removed := configType in monitorConfigs && monitorConfigs[configType].Table?
        && key in monitorConfigs[configType].entries;
      if removed {
        monitorConfigs := monitorConfigs[configType := Table(monitorConfigs[configType].entries - {key})];
      }
    }
  }
}
