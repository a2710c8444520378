/**
 * The account registry (core/account_manager.py): accounts by id in
 * insertion order, the current account, and the set of blocked bots; plus
 * the proxy tuple `create_account_config` builds.
 */
module AccountManager {
  import opened Wrappers
  import opened Account

  /** No id occurs twice. */
  predicate Distinct(s: seq<string>)
  {
    forall i, j :: 0 <= i < j < |s| ==> s[i] != s[j]
  }

  /** `s` with `id` removed, keeping the order of the rest. */
  function Without(s: seq<string>, id: string): (r: seq<string>)
    ensures forall x :: x in r <==> x in s && x != id
    ensures Distinct(s) ==> Distinct(r)
    ensures |r| <= |s|
  {
    if s == [] then []
    else
      var rest := Without(s[1..], id);
      if s[0] == id then rest
      else
        assert Distinct(s) ==> s[0] !in s[1..];
        [s[0]] + rest
  }

  /** The keys of a map and a list of them, each once, still agree after removing one id from both. */
  lemma WithoutMatchesKeys(order: seq<string>, accounts: map<string, AccountState>, id: string)
    requires Distinct(order)
    requires forall x :: x in accounts ==> x in order
    requires forall k :: 0 <= k < |order| ==> order[k] in accounts
    ensures var o := Without(order, id);
      Distinct(o) && (forall x :: x in accounts - {id} ==> x in o)
      && (forall k :: 0 <= k < |o| ==> o[k] in accounts - {id})
  {
    var o := Without(order, id);
    forall k | 0 <= k < |o| ensures o[k] in accounts - {id} {
      assert o[k] in o;
    }
  }

  /** The accounts with monitoring switched on, in insertion order. */
  function ActiveIn(order: seq<string>, accounts: map<string, AccountState>): (r: seq<AccountState>)
    requires forall k :: 0 <= k < |order| ==> order[k] in accounts
    ensures |r| <= |order|
    ensures forall k :: 0 <= k < |r| ==> r[k].monitorActive
  {
    if order == [] then []
    else
      var rest := ActiveIn(order[1..], accounts);
      if accounts[order[0]].monitorActive then [accounts[order[0]]] + rest else rest
  }

  /** `get_active_accounts` lists exactly the registered accounts whose monitoring is on. */
  lemma {:induction false} ActiveInExact(order: seq<string>, accounts: map<string, AccountState>, a: AccountState)
    requires forall k :: 0 <= k < |order| ==> order[k] in accounts
    ensures a in ActiveIn(order, accounts) <==> a.monitorActive && exists k :: 0 <= k < |order| && accounts[order[k]] == a
  {
    if order != [] {
      ActiveInExact(order[1..], accounts, a);
      if exists k :: 0 <= k < |order| && accounts[order[k]] == a {
        var k :| 0 <= k < |order| && accounts[order[k]] == a;
        if k > 0 {
          assert accounts[order[1..][k - 1]] == a;
        }
      }
      if exists k :: 0 <= k < |order[1..]| && accounts[order[1..][k]] == a {
        var k :| 0 <= k < |order[1..]| && accounts[order[1..][k]] == a;
        assert accounts[order[k + 1]] == a;
      }
    }
  }

  /**
   * What `add_account` stores: a re-added id keeps the configurations it
   * had and always has its monitoring switched on.
   */
  function Stored(old_: map<string, AccountState>, a: AccountState): (r: AccountState)
    ensures a.accountId !in old_ ==> r == a
    ensures a.accountId in old_ ==>
      r.monitorConfigs == old_[a.accountId].monitorConfigs && r.monitorActive
      && r.(monitorConfigs := a.monitorConfigs, monitorActive := a.monitorActive) == a
  {
    if a.accountId in old_ then a.(monitorConfigs := old_[a.accountId].monitorConfigs, monitorActive := true)
    else a
  }

  class AccountManager {
    /** `accounts`, with its key order kept apart in `order`. */
    var accounts: map<string, AccountState>
    var order: seq<string>
    /** `current_account_id` */
    var current: Option<string>
    /** `blocked_bots` */
    var blockedBots: set<int>

    /** The keys in `order` are exactly the registered ids, each once, and the current id is registered. */
    predicate Valid()
      reads this
    {
      Distinct(order)
      && (forall id :: id in accounts ==> id in order)
      && (forall k :: 0 <= k < |order| ==> order[k] in accounts)
      && (current.Some? ==> current.value in accounts)
    }

    /** `__init__` without the file load. */
    constructor ()
      ensures Valid()
      ensures accounts == map[] && order == [] && current == None && blockedBots == {}
    {
      accounts := map[];
      order := [];
      current := None;
      blockedBots := {};
    }

    /** `get_current_account` */
    function CurrentAccount(): (r: Option<AccountState>)
      reads this
      requires Valid()
      ensures r.Some? <==> current.Some? && current.value != ""
      ensures r.Some? ==> r.value == accounts[current.value]
    {
      if current.Some? && current.value != "" then Some(accounts[current.value]) else None
    }

    /**
     * `add_account`: store the account under its id (a re-added id keeps its
     * configurations and its position), and make it current only when no
     * account was current.
     */
    method AddAccount(a: AccountState) returns (ok: bool)
      requires Valid()
      modifies this`accounts, this`order, this`current
      ensures Valid() && ok
      ensures accounts == old(accounts)[a.accountId := Stored(old(accounts), a)]
      ensures order == if a.accountId in old(accounts) then old(order) else old(order) + [a.accountId]
      ensures current == if old(current).None? then Some(a.accountId) else old(current)
    {
      var stored := a;
      if a.accountId in accounts {
        var existing := accounts[a.accountId];
        stored := a.(monitorConfigs := existing.monitorConfigs, monitorActive := true);
      } else {
        order := order + [a.accountId];
      }
      accounts := accounts[a.accountId := stored];
      if current.None? {
        current := Some(a.accountId);
      }
      ok := true;
    }

    /**
     * `remove_account`: an unknown id changes nothing; otherwise the entry
     * goes, and if it was current the first remaining id (or none) becomes
     * current.
     */
    method RemoveAccount(id: string) returns (removed: bool)
      requires Valid()
      modifies this`accounts, this`order, this`current
      ensures Valid()
      ensures removed <==> id in old(accounts)
      ensures !removed ==> accounts == old(accounts) && order == old(order) && current == old(current)
      ensures removed ==> accounts == old(accounts) - {id} && order == Without(old(order), id)
      ensures removed && old(current) == Some(id) ==> current == (if order == [] then None else Some(order[0]))
      ensures removed && old(current) != Some(id) ==> current == old(current)
    {
      if id !in accounts {
        return false;
      }
      WithoutMatchesKeys(order, accounts, id);
      accounts := accounts - {id};
      order := Without(order, id);
      if current == Some(id) {
        current := if order == [] then None else Some(order[0]);
      }
      removed := true;
    }

    /** `switch_account`: succeeds, and changes the current account, iff the id is registered. */
    method SwitchAccount(id: string) returns (ok: bool)
      requires Valid()
      modifies this`current
      ensures Valid()
      ensures ok <==> id in accounts
      ensures current == if ok then Some(id) else old(current)
    {
      if id in accounts {
        current := Some(id);
        return true;
      }
      return false;
    }

    /** `set_account_monitor_status`: False for an unknown id; otherwise only that account's flag changes. */
    method SetAccountMonitorStatus(id: string, status: bool) returns (ok: bool)
      requires Valid()
      modifies this`accounts
      ensures Valid()
      ensures ok <==> id in old(accounts)
      ensures accounts == if ok then old(accounts)[id := old(accounts)[id].(monitorActive := status)] else old(accounts)
    {
      if id in accounts {
        accounts := accounts[id := accounts[id].(monitorActive := status)];
        return true;
      }
      return false;
    }

    /** `set_all_monitor_status`: every account's flag becomes `status`, nothing else changes. */
    method SetAllMonitorStatus(status: bool)
      requires Valid()
      modifies this`accounts
      ensures Valid()
      ensures accounts.Keys == old(accounts).Keys
      ensures forall id :: id in accounts ==> accounts[id] == old(accounts)[id].(monitorActive := status)
    {
      var i := 0;
      while i < |order|
        invariant i <= |order| && Valid()
        invariant accounts.Keys == old(accounts).Keys
        invariant forall id :: id in accounts ==>
          accounts[id] == if id in order[..i] then old(accounts)[id].(monitorActive := status) else old(accounts)[id]
      {
        var id := order[i];
        assert id !in order[..i];
        accounts := accounts[id := accounts[id].(monitorActive := status)];
        assert order[..i + 1] == order[..i] + [id];
        i := i + 1;
      }
      assert order[..i] == order;
    }

    /** `get_active_accounts` */
    method GetActiveAccounts() returns (r: seq<AccountState>)
      requires Valid()
      ensures r == ActiveIn(order, accounts)
    {
      r := [];
      var i := |order|;
      while i > 0
        invariant 0 <= i <= |order|
        invariant r == ActiveIn(order[i..], accounts)
      {
        i := i - 1;
        assert order[i..][1..] == order[i + 1..];
        if accounts[order[i]].monitorActive {
          r := [accounts[order[i]]] + r;
        }
      }
    }

    /** `add_blocked_bot`: idempotent. */
    method AddBlockedBot(botId: int)
      modifies this`blockedBots
      ensures blockedBots == old(blockedBots) + {botId}
    {
      blockedBots := blockedBots + {botId};
    }

    /** `remove_blocked_bot`: True iff the id was blocked. */
    method RemoveBlockedBot(botId: int) returns (removed: bool)
      modifies this`blockedBots
      ensures removed <==> botId in old(blockedBots)
      ensures blockedBots == old(blockedBots) - {botId}
    {
      if botId in blockedBots {
        blockedBots := blockedBots - {botId};
        return true;
      }
      return false;
    }

    /** `is_bot_blocked` */
    predicate IsBotBlocked(botId: int)
      reads this
    {
      botId in blockedBots
    }
  }

  /** The `proxy_config` dict: each key may be missing. */
  datatype ProxySettings = ProxySettings(
    kind: Option<string>,
    host: Option<string>,
    port: Option<int>,
    username: Option<string>,
    password: Option<string>)

  /** The proxy type names `create_account_config` knows. */
  function ProxyKindOf(name: Option<string>): (r: Option<ProxyKind>)
    ensures r.Some? <==> name == Some("socks5") || name == Some("socks4") || name == Some("http")
  {
    match name
    case Some("socks5") => Some(Socks5)
    case Some("socks4") => Some(Socks4)
    case Some("http") => Some(Http)
    case _ => None
  }

  predicate TruthyStr(s: Option<string>)
  {
    s.Some? && s.value != ""
  }

  /** The proxy tuple of `create_account_config`. */
  function ProxyOf(settings: Option<ProxySettings>): (r: Option<Proxy>)
    ensures settings.None? ==> r.None?
    ensures r.Some? <==>
      settings.Some? && ProxyKindOf(settings.value.kind).Some? && TruthyStr(settings.value.host)
      && settings.value.port.Some? && settings.value.port.value != 0
    ensures r.Some? ==> r.value.host == settings.value.host.value && r.value.port == settings.value.port.value
    ensures r.Some? ==> (r.value.Proxy6? <==> TruthyStr(settings.value.username) && TruthyStr(settings.value.password))
  {
    match settings
    case None => None
    case Some(p) =>
      var kind := ProxyKindOf(p.kind);
      if kind.Some? && TruthyStr(p.host) && p.port.Some? && p.port.value != 0 then
        if TruthyStr(p.username) && TruthyStr(p.password) then
          Some(Proxy6(kind.value, p.host.value, p.port.value, true, p.username.value, p.password.value))
        else Some(Proxy3(kind.value, p.host.value, p.port.value))
      else None
  }

  /** `create_account_config`: the settings with the proxy tuple, then the session-name default. */
  function CreateAccountConfig(phone: string, apiId: int, apiHash: string, settings: Option<ProxySettings>): (r: AccountConfig)
    ensures r.phone == phone && r.apiId == apiId && r.apiHash == apiHash && r.proxy == ProxyOf(settings)
    ensures r.sessionName == "session_" + RemovePlus(phone)
  {
    AccountConfigPostInit(AccountConfig(phone, apiId, apiHash, ProxyOf(settings), ""))
  }

  /**
   * A proxy is set iff a known type, a host and a port are all given; it
   * carries credentials (and remote DNS) iff both user and password are
   * given too.
   */
  lemma ProxyShape(settings: Option<ProxySettings>)
    ensures ProxyOf(settings).Some? <==>
      settings.Some? && ProxyKindOf(settings.value.kind).Some? && TruthyStr(settings.value.host)
      && settings.value.port.Some? && settings.value.port.value != 0
    ensures ProxyOf(settings).Some? ==>
      (ProxyOf(settings).value.Proxy6? <==> TruthyStr(settings.value.username) && TruthyStr(settings.value.password))
    ensures ProxyOf(settings).Some? && ProxyOf(settings).value.Proxy6? ==> ProxyOf(settings).value.rdns
    ensures ProxyOf(settings).Some? ==>
      ProxyOf(settings).value.host == settings.value.host.value && ProxyOf(settings).value.port == settings.value.port.value
  {
  }

  /** Re-adding a registered account keeps its configurations and switches its monitoring on. */
  lemma ReAddKeepsConfigs(old_: map<string, AccountState>, a: AccountState)
    requires a.accountId in old_
    ensures Stored(old_, a).monitorConfigs == old_[a.accountId].monitorConfigs
    ensures Stored(old_, a).monitorActive
    ensures Stored(old_, a).config == a.config && Stored(old_, a).ownUserId == a.ownUserId
  {
  }
}
