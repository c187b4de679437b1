/** What verification and removal do to the plugins' storage, entry by entry. */
module VaultLaws {
  import opened Base
  import opened Secrets
  import opened Plugins
  import opened Accounts
  import opened Services
  import opened Environment
  import opened AccountObjects
  import opened ServiceLaws
  import opened AccountLaws
  import opened Turns

  /** Nothing that was stored is lost or changed. */
  ghost predicate Grows(before: Vault, after: Vault) {
    forall e | e in before :: e in after && after[e] == before[e]
  }

  // ---------------------------------------------------------------- verification

  /** The account as its services are verified: with the parameters of its provider. */
  function Given(cfg: Config, account: Account): Account {
    var given := WithProvider(cfg, account);
    if given.Some? then given.value else account
  }

  lemma GivenKeys(cfg: Config, account: Account)
    ensures Given(cfg, account).services.Keys == account.services.Keys
    ensures Given(cfg, account) == account.(services := Given(cfg, account).services)
  {
  }

  /** What the provider of an account has for one of its services. */
  function Offered(cfg: Config, provider: string, k: string): StrMap {
    if provider != "" && provider in cfg.providers && k in cfg.providers[provider] then cfg.providers[provider][k]
    else map[]
  }

  /**
   Verification is given the account with its provider's parameters, unless the provider is unknown. A value
   that the caller gave stands; one that only the provider has for that service is added; there are no others,
   and nothing else of the account changes.
   */
  lemma ProviderFills(cfg: Config, account: Account, k: string, key: string)
    requires k in account.services
    ensures WithProvider(cfg, account).None? <==> account.provider != "" && account.provider !in cfg.providers
    ensures
      var given, own, offered := Given(cfg, account), account.services[k].params, Offered(cfg, account.provider, k);
      && given == account.(services := given.services) && given.services.Keys == account.services.Keys
      && given.services[k] == account.services[k].(params := given.services[k].params)
      && (key in given.services[k].params <==> key in own || key in offered)
      && (key in own ==> given.services[k].params[key] == own[key])
      && (key !in own && key in offered ==> given.services[k].params[key] == offered[key])
  {
    GivenKeys(cfg, account);
  }

  /** What the plugin of a service stores for it when the account is verified. */
  ghost function Writes(cfg: Config, account: Account, items: seq<SecretItem>, vault: Vault,
                        k: string): Option<Written> {
    GivenKeys(cfg, account);
    if Begins(cfg, account) then WriteAt(cfg, Given(cfg, account), items, vault, Sorted(account.services.Keys), k)
        else None
  }

  /** The storage after a verification, successful or not: what it held, with every entry that was written. */
  lemma VerifiedEntries(cfg: Config, account: Account, items: seq<SecretItem>, vault: Vault, e: EntryKey)
    ensures EntryOf(VerifyAccount(cfg, account, items, vault).vault, e.plugin, e.id)
         == EntryAfter(vault, e, Writes(cfg, account, items, vault, e.plugin))
  {
    if Begins(cfg, account) {
      GivenKeys(cfg, account);
      Contents(cfg, Given(cfg, account), items, vault, Sorted(account.services.Keys), e);
    }
  }

  lemma WriteIsFresh(cfg: Config, id: Uuid, title: string, name: string, params: StrMap, items: seq<SecretItem>,
                     vault: Vault)
    requires FreshWrites(cfg)
    ensures
      var w := WriteOf(cfg, id, title, name, params, items, vault);
      w.Some? ==> EntryKey(name, w.value.id) !in vault
  {
    var w := WriteOf(cfg, id, title, name, params, items, vault);
    if w.Some? {
      var p := cfg.plugins[name];
      var v, list := p.verify(params), Loaded(p, cfg.dual, id, name, params, items);
      assert FreshId(p, v.(params := list), p.authenticate(list), LiveIds(vault, name));
    }
  }

  lemma NewEntry(cfg: Config, account: Account, items: seq<SecretItem>, vault: Vault, k: string)
    requires FreshWrites(cfg) && Writes(cfg, account, items, vault, k).Some?
    ensures
      var e := EntryKey(k, Writes(cfg, account, items, vault, k).value.id);
      e !in vault && e in VerifyAccount(cfg, account, items, vault).vault
  {
    GivenKeys(cfg, account);
    var given, names := Given(cfg, account), Sorted(account.services.Keys);
    WriteIsFresh(cfg, given.id, given.title, k, given.services[k].params, ItemsAt(cfg, given, items, vault, names, k),
        vault);
    VerifiedEntries(cfg, account, items, vault, EntryKey(k, Writes(cfg, account, items, vault, k).value.id));
  }

  /** Succeeding or failing, a verification only adds to the plugins' storage, if new entries get new ids. */
  lemma VerifiedGrows(cfg: Config, account: Account, items: seq<SecretItem>, vault: Vault)
    requires FreshWrites(cfg)
    ensures Grows(vault, VerifyAccount(cfg, account, items, vault).vault)
  {
    var after := VerifyAccount(cfg, account, items, vault).vault;
    forall e | e in vault ensures e in after && after[e] == vault[e] {
      VerifiedEntries(cfg, account, items, vault, e);
      if Writes(cfg, account, items, vault, e.plugin).Some? {
        NewEntry(cfg, account, items, vault, e.plugin);
      }
      assert EntryOf(after, e.plugin, e.id) == Some(vault[e]);
    }
  }

  /** A key that was written, or was there before: exactly what is there afterwards. */
  lemma VerifiedKeys(cfg: Config, account: Account, items: seq<SecretItem>, vault: Vault, e: EntryKey)
    ensures
      var w := Writes(cfg, account, items, vault, e.plugin);
      e in VerifyAccount(cfg, account, items, vault).vault <==> e in vault || (w.Some? && w.value.id == e.id)
  {
    VerifiedEntries(cfg, account, items, vault, e);
  }

  /** The public parameters of a verified service: the reference that was written, or the plugin's answer. */
  lemma VerifiedShown(cfg: Config, account: Account, items: seq<SecretItem>, vault: Vault, k: string)
    requires VerifyAccount(cfg, account, items, vault).ok && k in account.services
    ensures
      var r := VerifyAccount(cfg, account, items, vault);
      && k in r.account.services && k in Given(cfg, account).services && k in cfg.plugins
      && Unprotected(r.account.services[k])
         == Result(Writes(cfg, account, items, vault, k), Answer(cfg, k, Given(cfg, account).services[k].params))
  {
    GivenKeys(cfg, account);
    var given, names := Given(cfg, account), Sorted(account.services.Keys);
    Ends(cfg, given, items, vault, names);
    VerifiedAccount(cfg, account, items, vault);
    assert k in names;
    OneTurn(cfg, given.id, given.title, k, given.services[k], ItemsAt(cfg, given, items, vault, names, k), vault);
  }

  // ---------------------------------------------------------------- removal

  /** The plugin entries the named services refer to. */
  function RefKeys(services: map<string, Service>, names: seq<string>): set<EntryKey> {
    set k | k in names && k in services && PLUGIN_ID in services[k].params :: EntryKey(k, services[k].params[PLUGIN_ID])
  }

  lemma RefAmong(services: map<string, Service>, names: seq<string>, e: EntryKey)
    ensures e in RefKeys(services, names) <==>
      e.plugin in names && e.plugin in services && PLUGIN_ID in services[e.plugin].params
      && services[e.plugin].params[PLUGIN_ID] == e.id
  {
  }

  predicate Refuses(cfg: Config, vault: Vault, e: EntryKey) {
    e.plugin in cfg.plugins && cfg.plugins[e.plugin].remove(e.id, e in vault) == Returns(false)
  }

  /** The plugin reports the removal as done. */
  predicate LetsGo(cfg: Config, vault: Vault, e: EntryKey) {
    e.plugin in cfg.plugins && cfg.plugins[e.plugin].remove(e.id, e in vault) == Returns(true)
  }

  function LetGo(cfg: Config, vault: Vault, entries: set<EntryKey>): set<EntryKey> {
    set e | e in entries && LetsGo(cfg, vault, e)
  }

  lemma OneMoreRef(services: map<string, Service>, names: seq<string>)
    requires names != [] && forall k | k in names :: k in services
    ensures
      var k := names[|names| - 1];
      RefKeys(services, names)
      == RefKeys(services, names[..|names| - 1])
       + if PLUGIN_ID in services[k].params then {EntryKey(k, services[k].params[PLUGIN_ID])} else {}
  {
    var k := names[|names| - 1];
    var all, front := RefKeys(services, names), RefKeys(services, names[..|names| - 1]);
    LastApart(names);
    forall e ensures e in all
        <==> e in front || (PLUGIN_ID in services[k].params && e == EntryKey(k, services[k].params[PLUGIN_ID])) {
      assert e.plugin in names <==> e.plugin in names[..|names| - 1] || e.plugin == k;
    }
  }

  lemma RemoveOneMore(cfg: Config, vault: Vault, front: set<EntryKey>, e: EntryKey)
    ensures vault - LetGo(cfg, vault, front + {e})
         == if LetsGo(cfg, vault, e) then (vault - LetGo(cfg, vault, front)) - {e} else vault - LetGo(cfg, vault, front)
  {
    var more, less := LetGo(cfg, vault, front + {e}), LetGo(cfg, vault, front);
    assert more == if LetsGo(cfg, vault, e) then less + {e} else less;
  }

  /** The plugin of the service refuses to remove the entry that the service refers to. */
  predicate RefusesService(cfg: Config, vault: Vault, services: map<string, Service>, k: string) {
    k in services && PLUGIN_ID in services[k].params && Refuses(cfg, vault, EntryKey(k, services[k].params[PLUGIN_ID]))
  }

  /** How many of the services are reached before a plugin refuses; all of them if none does. */
  function FirstRefusal(cfg: Config, vault: Vault, services: map<string, Service>, names: seq<string>): (m: nat)
    ensures m <= |names|
    ensures forall i | 0 <= i < m :: !RefusesService(cfg, vault, services, names[i])
    ensures m < |names| ==> RefusesService(cfg, vault, services, names[m])
  {
    if names == [] then 0
    else
      var m := FirstRefusal(cfg, vault, services, names[..|names| - 1]);
      if m < |names| - 1 || RefusesService(cfg, vault, services, names[|names| - 1]) then m else m + 1
  }

  /** The entries whose removal is asked for before the first refusal. */
  function ReachedKeys(cfg: Config, vault: Vault, services: map<string, Service>, names: seq<string>): set<EntryKey> {
    RefKeys(services, names[..FirstRefusal(cfg, vault, services, names)])
  }

  /** One more service, when none before it was refused. */
  lemma RemoveNext(cfg: Config, vault: Vault, services: map<string, Service>, names: seq<string>)
    requires names != [] && Distinct(names) && forall k | k in names :: k in services
    ensures
      var front, k := names[..|names| - 1], names[|names| - 1];
      RemoveCustom(cfg, vault - LetGo(cfg, vault, RefKeys(services, front)), k, services[k])
      == RemovalRun(!RefusesService(cfg, vault, services, k),
                    vault - LetGo(cfg, vault,
                        RefKeys(services, if RefusesService(cfg, vault, services, k) then front else names)))
  {
    var front, k := names[..|names| - 1], names[|names| - 1];
    SplitNames(names);
    OneMoreRef(services, names);
    if PLUGIN_ID in services[k].params {
      var e := EntryKey(k, services[k].params[PLUGIN_ID]);
      RemoveOneMore(cfg, vault, RefKeys(services, front), e);
    }
  }

  /**
   Removal goes through iff no plugin refuses the entry referred to. Either way it has taken away exactly
   those entries, among the ones reached before the first refusal, whose removal was reported as done.
   */
  lemma {:induction false} RemovalExact(cfg: Config, vault: Vault, services: map<string, Service>, names: seq<string>)
    requires Distinct(names) && forall k | k in names :: k in services
    ensures RemoveCustomUpTo(cfg, vault, services, names)
         == RemovalRun(FirstRefusal(cfg, vault, services, names) == |names|,
                       vault - LetGo(cfg, vault, ReachedKeys(cfg, vault, services, names)))
  {
    if names == [] {
      assert LetGo(cfg, vault, ReachedKeys(cfg, vault, services, names)) == {};
      assert vault - {} == vault;
    } else {
      var front := names[..|names| - 1];
      var m := FirstRefusal(cfg, vault, services, front);
      SplitNames(names);
      RemovalExact(cfg, vault, services, front);
      assert names[..m] == front[..m];
      assert front[..|front|] == front && names[..|names|] == names;
      if m == |front| {
        RemoveNext(cfg, vault, services, names);
      }
    }
  }

  /** None refuses iff none of the entries referred to is refused; then all of them are reached. */
  lemma NoneRefuses(cfg: Config, vault: Vault, services: map<string, Service>, names: seq<string>)
    requires forall k | k in names :: k in services
    ensures FirstRefusal(cfg, vault, services, names) == |names|
         <==> forall e | e in RefKeys(services, names) :: !Refuses(cfg, vault, e)
    ensures FirstRefusal(cfg, vault, services, names) == |names|
         ==> ReachedKeys(cfg, vault, services, names) == RefKeys(services, names)
    ensures ReachedKeys(cfg, vault, services, names) <= RefKeys(services, names)
  {
    var m := FirstRefusal(cfg, vault, services, names);
    assert names[..|names|] == names;
    if m < |names| {
      var k := names[m];
      RefAmong(services, names, EntryKey(k, services[k].params[PLUGIN_ID]));
    } else {
      forall e | e in RefKeys(services, names) ensures !Refuses(cfg, vault, e) {
        var i :| 0 <= i < |names| && names[i] == e.plugin;
        assert !RefusesService(cfg, vault, services, names[i]);
      }
    }
  }

  /** Removing a live entry never ends in a refusal. */
  ghost predicate NeverRefuses(cfg: Config) {
    forall t, id | t in cfg.plugins :: cfg.plugins[t].remove(id, true) != Returns(false)
  }

  /** If every reference is live and no plugin refuses live entries, removal goes through. */
  lemma RemovalSucceeds(cfg: Config, vault: Vault, services: map<string, Service>, names: seq<string>)
    requires NeverRefuses(cfg) && Distinct(names) && forall k | k in names :: k in services
    requires RefKeys(services, names) <= vault.Keys
    ensures RemoveCustomUpTo(cfg, vault, services, names).ok
  {
    RemovalExact(cfg, vault, services, names);
    NoneRefuses(cfg, vault, services, names);
    forall e | e in RefKeys(services, names) ensures !Refuses(cfg, vault, e) {
      assert e in vault;
    }
  }
}
