/**
 Verifying, cleaning up and removing a whole account: the functions, and the class that works
 through its services in place.
 */
module AccountObjects {
  import opened Base
  import opened Secrets
  import opened Plugins
  import opened Accounts
  import opened Services
  import opened Environment

  // ---------------------------------------------------------------- provider defaults

  function Defaulted(table: map<string, StrMap>, name: string, service: Service): Service {
    if name in table then service.(params := table[name] + service.params) else service
  }

  function DefaultedUpTo(table: map<string, StrMap>, services: map<string, Service>,
                         names: seq<string>): (r: map<string, Service>)
    requires forall k | k in names :: k in services
    ensures r.Keys == services.Keys
  {
    if names == [] then services
    else
      var k := names[|names| - 1];
      var r := DefaultedUpTo(table, services, names[..|names| - 1]);
      r[k := Defaulted(table, k, r[k])]
  }

  /** The account with the provider's parameters added under those it already has; None for an unknown provider. */
  function WithProvider(cfg: Config, account: Account): Option<Account> {
    if account.provider == "" then Some(account)
    else if account.provider !in cfg.providers then None
    else
      var table := cfg.providers[account.provider];
      Some(account.(services := map k | k in account.services :: Defaulted(table, k, account.services[k])))
  }

  lemma DefaultedAll(table: map<string, StrMap>, services: map<string, Service>, names: seq<string>)
    requires Enumerates(names, services.Keys)
    ensures DefaultedUpTo(table, services, names) == map k | k in services :: Defaulted(table, k, services[k])
  {
    DefaultedKeys(table, services, names);
  }

  lemma {:induction false} DefaultedKeys(table: map<string, StrMap>, services: map<string, Service>, names: seq<string>)
    requires forall k | k in names :: k in services
    requires forall i, j | 0 <= i < j < |names| :: names[i] != names[j]
    ensures forall k | k in services ::
              DefaultedUpTo(table, services, names)[k] == if k in names then Defaulted(table, k, services[k])
                  else services[k]
  {
    if names != [] {
      var n := |names| - 1;
      assert names == names[..n] + [names[n]];
      DefaultedKeys(table, services, names[..n]);
    }
  }

  // ---------------------------------------------------------------- verification

  datatype ServicesRun = ServicesRun(ok: bool, services: map<string, Service>, items: seq<SecretItem>, vault: Vault)

  ghost function VerifyNext(cfg: Config, id: Uuid, title: string, r: ServicesRun, k: string): ServicesRun
    requires k in r.services
  {
    var s := VerifyService(PluginAt(cfg.plugins, k), cfg.dual, id, title, k, r.services[k], r.items, r.vault);
    ServicesRun(r.ok && s.ok, r.services[k := s.service], s.items, s.vault)
  }

  /** Every service is verified, in key order, also after one has failed. */
  ghost function VerifyServices(cfg: Config, id: Uuid, title: string, services: map<string, Service>,
                                items: seq<SecretItem>, vault: Vault, names: seq<string>): (r: ServicesRun)
    requires forall k | k in names :: k in services
    ensures r.services.Keys == services.Keys
  {
    if names == [] then ServicesRun(true, services, items, vault)
    else
      VerifyNext(cfg, id, title, VerifyServices(cfg, id, title, services, items, vault, names[..|names| - 1]),
          names[|names| - 1])
  }

  datatype AccountRun = AccountRun(ok: bool, account: Account, items: seq<SecretItem>, vault: Vault)

  /** The secrets of the services go again if any of them failed; without an account id they stay. */
  function AfterFailure(items: seq<SecretItem>, id: Uuid, names: seq<string>): seq<SecretItem> {
    if id == NIL_ID then items else WithoutServices(items, id, names)
  }

  ghost function VerifyGiven(cfg: Config, account: Account, items: seq<SecretItem>, vault: Vault): AccountRun {
    var names := Sorted(account.services.Keys);
    var r := VerifyServices(cfg, account.id, account.title, account.services, items, vault, names);
    AccountRun(r.ok, account.(services := r.services),
               if r.ok then r.items else AfterFailure(r.items, account.id, names), r.vault)
  }

  ghost function VerifyAccount(cfg: Config, account: Account, items: seq<SecretItem>, vault: Vault): AccountRun {
    if account.title == "" then AccountRun(false, account, items, vault) else
    var given := WithProvider(cfg, account);
    if given.None? then AccountRun(false, account, items, vault)
    else VerifyGiven(cfg, given.value, items, vault)
  }

  // ---------------------------------------------------------------- clean-up, custom read, removal

  /** The secrets left when the services not among the kept ones give theirs up. */
  function CleanedUp(items: seq<SecretItem>, id: Uuid, names: seq<string>, kept: set<string>): seq<SecretItem> {
    if names == [] then items
    else
      var k := names[|names| - 1];
      var r := CleanedUp(items, id, names[..|names| - 1], kept);
      if k in kept || id == NIL_ID then r else Without(r, ServiceQuery(id, k))
  }

  function ReadCustom(cfg: Config, vault: Vault, name: string, service: Service): Service {
    if name in cfg.plugins then CustomRead(cfg.plugins[name], vault, name, service) else service
  }

  function ReadCustomUpTo(cfg: Config, vault: Vault, services: map<string, Service>,
                          names: seq<string>): (r: map<string, Service>)
    requires forall k | k in names :: k in services
    ensures r.Keys == services.Keys
  {
    if names == [] then services
    else
      var k := names[|names| - 1];
      var r := ReadCustomUpTo(cfg, vault, services, names[..|names| - 1]);
      r[k := ReadCustom(cfg, vault, k, r[k])]
  }

  function ReadCustomAll(cfg: Config, vault: Vault, services: map<string, Service>): map<string, Service> {
    map k | k in services :: ReadCustom(cfg, vault, k, services[k])
  }

  lemma ReadCustomEvery(cfg: Config, vault: Vault, services: map<string, Service>, names: seq<string>)
    requires Enumerates(names, services.Keys)
    ensures ReadCustomUpTo(cfg, vault, services, names) == ReadCustomAll(cfg, vault, services)
  {
    ReadCustomKeys(cfg, vault, services, names);
  }

  lemma {:induction false} ReadCustomKeys(cfg: Config, vault: Vault, services: map<string, Service>, names: seq<string>)
    requires forall k | k in names :: k in services
    requires forall i, j | 0 <= i < j < |names| :: names[i] != names[j]
    ensures forall k | k in services ::
              ReadCustomUpTo(cfg, vault, services, names)[k] == if k in names
                  then ReadCustom(cfg, vault, k, services[k]) else services[k]
  {
    if names != [] {
      var n := |names| - 1;
      assert names == names[..n] + [names[n]];
      ReadCustomKeys(cfg, vault, services, names[..n]);
    }
  }

  function RemoveCustom(cfg: Config, vault: Vault, name: string, service: Service): RemovalRun {
    if name in cfg.plugins then CustomRemoval(cfg.plugins[name], vault, name, service) else RemovalRun(true, vault)
  }

  /** Custom removal, service by service, up to the first plugin that refuses. */
  function RemoveCustomUpTo(cfg: Config, vault: Vault, services: map<string, Service>, names: seq<string>): RemovalRun
    requires forall k | k in names :: k in services
  {
    if names == [] then RemovalRun(true, vault)
    else
      var k := names[|names| - 1];
      var r := RemoveCustomUpTo(cfg, vault, services, names[..|names| - 1]);
      if r.ok then RemoveCustom(cfg, r.vault, k, services[k]) else r
  }

  lemma {:induction false} RemoveCustomStops(cfg: Config, vault: Vault, services: map<string, Service>,
                                             names: seq<string>, n: nat)
    requires forall k | k in names :: k in services
    requires n <= |names| && !RemoveCustomUpTo(cfg, vault, services, names[..n]).ok
    ensures RemoveCustomUpTo(cfg, vault, services, names) == RemoveCustomUpTo(cfg, vault, services, names[..n])
  {
    if n == |names| {
      assert names[..n] == names;
    } else {
      var m := |names| - 1;
      assert names[..m][..n] == names[..n];
      RemoveCustomStops(cfg, vault, services, names[..m], n);
    }
  }

  class AccountObject {
    var id: Uuid
    var title: string
    var provider: string
    var active: bool
    var settings: StrMap
    var services: map<string, AccountService>

    /** Services are separate objects, each initialised under the name it is stored under. */
    ghost predicate Valid(plugins: map<string, Plugin>)
      reads this, services.Values
    {
      && (forall k | k in services :: services[k].name == k && services[k].plugin == PluginAt(plugins, k))
      && (forall j, k | j in services && k in services && j != k :: services[j] != services[k])
    }

    function Value(): Account
      reads this, services.Values
    {
      Account(id, title, provider, active, settings, map k | k in services :: services[k].Value())
    }

    constructor ()
      ensures Value() == NEW_ACCOUNT && services == map[]
    {
      id, title, provider, active, settings, services := NIL_ID, "", "", false, map[], map[];
    }

    /** The service names in key order. */
    method ServiceNames() returns (names: seq<string>)
      ensures Value() == old(Value()) && names == Sorted(Value().services.Keys)
      ensures forall k | k in names :: k in services && k in Value().services
      ensures Value().services.Keys == services.Keys
    {
      assert Value().services.Keys == services.Keys;
      names := KeysOf(services.Keys);
    }

    method HasService(name: string) returns (has: bool)
      ensures has == (name in services)
    {
      var names := KeysOf(services.Keys);
      for i := 0 to |names|
        invariant forall j | 0 <= j < i :: names[j] != name
      {
        if names[i] == name {
          assert names[i] in names;
          return true;
        }
      }
      assert name in services ==> name in names;
      return false;
    }

    method AddSettings(pairs: seq<Pair>)
      modifies this`settings
      ensures settings == Assign(old(settings), pairs)
    {
      for i := 0 to |pairs|
        invariant settings == Assign(old(settings), pairs[..i])
      {
        assert pairs[..i + 1][..i] == pairs[..i];
        settings := settings[pairs[i].key := pairs[i].value];
      }
      assert pairs[..|pairs|] == pairs;
    }

    /** Valid, but for the service of one name. */
    ghost predicate ValidBut(name: string, plugins: map<string, Plugin>)
      reads this, services.Values
    {
      && (forall k | k in services && k != name :: services[k].name == k && services[k].plugin == PluginAt(plugins, k))
      && (forall j, k | j in services && k in services && j != k :: services[j] != services[k])
    }

    /** The service stored under a name, created if need be. */
    method ServiceFor(name: string, ghost plugins: map<string, Plugin>) returns (service: AccountService)
      requires Valid(plugins)
      modifies this`services
      ensures services == old(services)[name := service]
      ensures if name in old(services) then service == old(services[name]) else fresh(service)
      ensures fresh(services.Values - old(services.Values)) && service in services.Values
      ensures service.Value() == ServiceAt(old(Value()).services, name)
      ensures ValidBut(name, plugins)
      ensures Value() == old(Value()).(services := old(Value()).services[name := service.Value()])
    {
      if name in services {
        service := services[name];
      } else {
        service := new AccountService();
        services := services[name := service];
      }
      forall v | v in services.Values ensures v == service || v in old(services.Values) {
        var k :| k in services && services[k] == v;
        assert k != name ==> old(services)[k] == v;
      }
      assert services[name] in services.Values;
      assert Value().services == old(Value()).services[name := service.Value()];
    }

    method InitService(node: ServiceNode, host: Host) returns (ok: bool)
      requires ValidBut(node.name, host.plugins.plugins) && host.plugins.Valid() && node.name in services
      modifies services[node.name]
      ensures Valid(host.plugins.plugins)
      ensures ok == (node.name in host.plugins.plugins)
      ensures
        var was := old(Value()).services[node.name];
        var now := if ok then was.(params := Assign(was.params, node.params)) else was;
        Value() == old(Value()).(services := old(Value()).services[node.name := now])
    {
      ok := services[node.name].Init(node.name, host.plugins);
      if ok {
        AssignParams(services[node.name], node.params);
      }
      assert Value().services == old(Value()).services[node.name := services[node.name].Value()];
    }

    /** Initialises the named service and adds the given parameters to it. */
    method AddService(node: ServiceNode, host: Host) returns (ok: bool)
      requires Valid(host.plugins.plugins) && host.plugins.Valid()
      modifies this`services, services.Values
      ensures Valid(host.plugins.plugins) && fresh(services.Values - old(services.Values))
      ensures ReadServices(ok, Value().services) == ReadNode(host.plugins.plugins.Keys, old(Value()).services, node)
      ensures Value() == old(Value()).(services := Value().services)
    {
      ghost var before := Value().services;
      var service := ServiceFor(node.name, host.plugins.plugins);
      ghost var middle := Value().services;
      ok := InitService(node, host);
      ghost var was := ServiceAt(before, node.name);
      ghost var now := if ok then was.(params := Assign(was.params, node.params)) else was;
      UpdateTwice(before, node.name, was, now);
    }

    static method AssignParams(service: AccountService, pairs: seq<Pair>)
      modifies service
      ensures service.Value() == old(service.Value()).(params := Assign(old(service.params), pairs))
      ensures service.name == old(service.name) && service.plugin == old(service.plugin)
    {
      for i := 0 to |pairs|
        invariant service.Value() == old(service.Value()).(params := Assign(old(service.params), pairs[..i]))
        invariant service.name == old(service.name) && service.plugin == old(service.plugin)
      {
        assert pairs[..i + 1][..i] == pairs[..i];
        service.params := service.params[pairs[i].key := pairs[i].value];
      }
      assert pairs[..|pairs|] == pairs;
    }

    /** Adds services up to the first that cannot be initialised. */
    method AddServices(nodes: seq<ServiceNode>, host: Host) returns (ok: bool)
      requires Valid(host.plugins.plugins) && host.plugins.Valid()
      modifies this`services, services.Values
      ensures Valid(host.plugins.plugins) && fresh(services.Values - old(services.Values))
      ensures ReadServices(ok, Value().services) == ReadNodes(host.plugins.plugins.Keys, old(Value()).services, nodes)
      ensures Value() == old(Value()).(services := Value().services)
    {
      ghost var before, registered := Value(), host.plugins.plugins.Keys;
      for i := 0 to |nodes|
        invariant Valid(host.plugins.plugins) && fresh(services.Values - old(services.Values))
        invariant ReadServices(true, Value().services) == ReadNodes(registered, before.services, nodes[..i])
        invariant Value() == before.(services := Value().services)
      {
        assert nodes[..i + 1][..i] == nodes[..i];
        var added := AddService(nodes[i], host);
        if !added {
          ReadNodesStops(registered, before.services, nodes, i + 1);
          return false;
        }
      }
      assert nodes[..|nodes|] == nodes;
      return true;
    }

    method AddDefaults(service: AccountService, defaults: StrMap)
      modifies service
      ensures service.Value() == old(service.Value()).(params := defaults + old(service.params))
      ensures service.name == old(service.name) && service.plugin == old(service.plugin)
    {
      var keys := KeysOf(defaults.Keys);
      for i := 0 to |keys|
        invariant service.Value()
             == old(service.Value()).(params := Underlaid(old(service.params), defaults, keys[..i]))
        invariant service.name == old(service.name) && service.plugin == old(service.plugin)
      {
        assert keys[i] in keys && keys[..i + 1][..i] == keys[..i];
        if keys[i] !in service.params {
          service.params := service.params[keys[i] := defaults[keys[i]]];
        }
      }
      assert keys[..|keys|] == keys;
      UnderlaidAll(old(service.params), defaults, keys);
    }

    method AddProviderDefaults(name: string, table: map<string, StrMap>, ghost plugins: map<string, Plugin>)
      requires Valid(plugins) && name in services
      modifies services[name]
      ensures Valid(plugins)
      ensures Value() == old(Value()).(services :=
                old(Value()).services[name := Defaulted(table, name, old(Value()).services[name])])
    {
      if name in table {
        AddDefaults(services[name], table[name]);
      }
      assert Value().services == old(Value()).services[name := services[name].Value()];
    }

    method AddDefaultsInOrder(names: seq<string>, table: map<string, StrMap>, ghost plugins: map<string, Plugin>)
      requires Valid(plugins)
      requires forall k | k in names :: k in services && k in Value().services
      modifies services.Values
      ensures Valid(plugins)
      ensures Value() == old(Value()).(services := DefaultedUpTo(table, old(Value()).services, names))
    {
      ghost var before := Value();
      for i := 0 to |names|
        invariant Valid(plugins)
        invariant Value() == before.(services := DefaultedUpTo(table, before.services, names[..i]))
      {
        assert names[..i + 1][..i] == names[..i];
        AddProviderDefaults(names[i], table, plugins);
      }
      assert names[..|names|] == names;
    }

    method AppendProviderParams(host: Host) returns (ok: bool)
      requires provider != "" && Valid(host.plugins.plugins)
      modifies services.Values
      ensures Valid(host.plugins.plugins)
      ensures if ok then Some(Value()) == WithProvider(old(host.Configuration()), old(Value()))
              else Value() == old(Value())
      ensures ok == (provider in host.providers)
    {
      if provider !in host.providers {
        return false;
      }
      var table := host.providers[provider];
      var names := ServiceNames();
      ghost var before := Value();
      DefaultedAll(table, before.services, names);
      AddDefaultsInOrder(names, table, host.plugins.plugins);
      return true;
    }

    method VerifyOne(name: string, verified: bool, host: Host) returns (ok: bool)
      requires Valid(host.plugins.plugins) && host.plugins.Valid() && name in services
      modifies services[name], host.secrets, host.store
      ensures Valid(host.plugins.plugins)
      ensures ServicesRun(ok, Value().services, host.secrets.items, host.store.entries)
           == VerifyNext(old(host.Configuration()), id, title,
                ServicesRun(verified, old(Value()).services, old(host.secrets.items), old(host.store.entries)), name)
      ensures Value() == old(Value()).(services := Value().services)
    {
      var known := true;
      var plugin := host.plugins.Lookup(name);
      if plugin.None? {
        known := false;
      }
      ok := services[name].Verify(id, title, host.secrets, host.store);
      ok := verified && ok && known;
      assert Value().services == old(Value()).services[name := services[name].Value()];
    }

    method VerifyInOrder(names: seq<string>, host: Host) returns (verified: bool)
      requires Valid(host.plugins.plugins) && host.plugins.Valid()
      requires forall k | k in names :: k in services && k in Value().services
      modifies services.Values, host.secrets, host.store
      ensures Valid(host.plugins.plugins)
      ensures ServicesRun(verified, Value().services, host.secrets.items, host.store.entries)
           == VerifyServices(old(host.Configuration()), id, title, old(Value()).services,
                             old(host.secrets.items), old(host.store.entries), names)
      ensures Value() == old(Value()).(services := Value().services)
    {
      ghost var before, items, vault, cfg := Value(), host.secrets.items, host.store.entries, host.Configuration();
      verified := true;
      for i := 0 to |names|
        invariant Valid(host.plugins.plugins)
        invariant ServicesRun(verified, Value().services, host.secrets.items, host.store.entries)
               == VerifyServices(cfg, id, title, before.services, items, vault, names[..i])
        invariant Value() == before.(services := Value().services)
      {
        assert names[..i + 1][..i] == names[..i];
        verified := VerifyOne(names[i], verified, host);
      }
      assert names[..|names|] == names;
    }

    /** Removes the secrets of the named services, one after the other. */
    method RemoveSecretsInOrder(names: seq<string>, host: Host)
      requires Valid(host.plugins.plugins)
      requires forall k | k in names :: k in services
      modifies host.secrets
      ensures host.secrets.items == AfterFailure(old(host.secrets.items), id, names)
      ensures Value() == old(Value()) && Valid(host.plugins.plugins)
    {
      ghost var own: set<object> := services.Values;
      assert host.secrets !in own;
      for i := 0 to |names|
        invariant host.secrets.items == AfterFailure(old(host.secrets.items), id, names[..i])
      {
        assert names[..i + 1][..i] == names[..i];
        var removed := services[names[i]].RemoveSecrets(id, host.secrets);
      }
      assert names[..|names|] == names;
    }

    method RemoveSecretsUnless(verified: bool, names: seq<string>, host: Host)
      requires Valid(host.plugins.plugins)
      requires forall k | k in names :: k in services
      modifies host.secrets
      ensures host.secrets.items
           == if verified then old(host.secrets.items) else AfterFailure(old(host.secrets.items), id, names)
      ensures Value() == old(Value()) && Valid(host.plugins.plugins)
    {
      if !verified {
        RemoveSecretsInOrder(names, host);
      }
    }

    method ApplyProvider(host: Host) returns (ok: bool)
      requires Valid(host.plugins.plugins)
      modifies services.Values
      ensures Valid(host.plugins.plugins)
      ensures WithProvider(old(host.Configuration()), old(Value())) == if ok then Some(Value()) else None
      ensures !ok ==> Value() == old(Value())
    {
      ok := true;
      if provider != "" {
        ok := AppendProviderParams(host);
      }
    }

    method VerifyServicesOrCleanUp(host: Host) returns (ok: bool)
      requires Valid(host.plugins.plugins) && host.plugins.Valid()
      modifies services.Values, host.secrets, host.store
      ensures Valid(host.plugins.plugins)
      ensures AccountRun(ok, Value(), host.secrets.items, host.store.entries)
           == VerifyGiven(old(host.Configuration()), old(Value()), old(host.secrets.items), old(host.store.entries))
    {
      ghost var given, items, vault, cfg := Value(), host.secrets.items, host.store.entries, host.Configuration();
      var names := ServiceNames();
      ok := VerifyInOrder(names, host);
      RemoveSecretsUnless(ok, names, host);
      assert AccountRun(ok, Value(), host.secrets.items, host.store.entries) == VerifyGiven(cfg, given, items, vault);
    }

    method Verify(host: Host) returns (ok: bool)
      requires Valid(host.plugins.plugins) && host.plugins.Valid()
      modifies services.Values, host.secrets, host.store
      ensures Valid(host.plugins.plugins)
      ensures AccountRun(ok, Value(), host.secrets.items, host.store.entries)
           == VerifyAccount(old(host.Configuration()), old(Value()), old(host.secrets.items), old(host.store.entries))
    {
      if title == "" {
        return false;
      }
      var appended := ApplyProvider(host);
      if !appended {
        return false;
      }
      ok := VerifyServicesOrCleanUp(host);
    }

    method Cleanup(kept: Account, host: Host)
      requires Valid(host.plugins.plugins)
      modifies host.secrets
      ensures host.secrets.items
           == CleanedUp(old(host.secrets.items), id, Sorted(old(Value()).services.Keys), kept.services.Keys)
    {
      var names := ServiceNames();
      CleanUpInOrder(names, kept.services.Keys, host);
    }

    method CleanUpInOrder(names: seq<string>, kept: set<string>, host: Host)
      requires Valid(host.plugins.plugins)
      requires forall k | k in names :: k in services
      modifies host.secrets
      ensures host.secrets.items == CleanedUp(old(host.secrets.items), id, names, kept)
    {
      ghost var own: set<object> := services.Values;
      assert host.secrets !in own;
      for i := 0 to |names|
        invariant host.secrets.items == CleanedUp(old(host.secrets.items), id, names[..i], kept)
      {
        assert names[..i + 1][..i] == names[..i];
        if names[i] !in kept {
          var removed := services[names[i]].RemoveSecrets(id, host.secrets);
        }
      }
      assert names[..|names|] == names;
    }

    method RemoveCustomInOrder(names: seq<string>, host: Host) returns (ok: bool)
      requires Valid(host.plugins.plugins)
      requires forall k | k in names :: k in services && k in Value().services && k in host.plugins.plugins
      modifies host.store
      ensures RemovalRun(ok, host.store.entries)
           == RemoveCustomUpTo(old(host.Configuration()), old(host.store.entries), old(Value()).services, names)
    {
      ghost var all, cfg := Value().services, host.Configuration();
      for i := 0 to |names|
        invariant RemoveCustomUpTo(cfg, old(host.store.entries), all, names[..i])
             == RemovalRun(true, host.store.entries)
      {
        assert names[..i + 1][..i] == names[..i];
        var removed := services[names[i]].PerformServiceCustomRemoval(host.store);
        if !removed {
          RemoveCustomStops(cfg, old(host.store.entries), all, names, i + 1);
          return false;
        }
      }
      assert names[..|names|] == names;
      return true;
    }

    /** Plugins first, then the secrets; a plugin that refuses keeps the secrets in place. */
    method PerformAccountRemoval(host: Host) returns (ok: bool)
      requires Valid(host.plugins.plugins)
      requires Value().services.Keys <= host.plugins.plugins.Keys
      modifies host.store, host.secrets
      ensures RemovalRun(ok, host.store.entries)
           == RemoveCustomUpTo(old(host.Configuration()), old(host.store.entries), old(Value()).services,
                               Sorted(old(Value()).services.Keys))
      ensures host.secrets.items == if ok then Without(old(host.secrets.items), AccountQuery(id))
           else old(host.secrets.items)
    {
      var names := ServiceNames();
      ok := RemoveCustomInOrder(names, host);
      if ok {
        host.secrets.RemoveAccount(id);
      }
    }

    method ReadCustomOne(name: string, host: Host)
      requires Valid(host.plugins.plugins) && name in services && name in host.plugins.plugins
      modifies services[name]
      ensures Valid(host.plugins.plugins)
      ensures Value() == old(Value()).(services := old(Value()).services[
                name := ReadCustom(old(host.Configuration()), host.store.entries, name, old(Value()).services[name])])
    {
      var read := services[name].PerformCustomRead(host.store);
      assert Value().services == old(Value()).services[name := services[name].Value()];
    }

    method ReadCustomInOrder(names: seq<string>, host: Host)
      requires Valid(host.plugins.plugins)
      requires forall k | k in names :: k in services && k in Value().services && k in host.plugins.plugins
      modifies services.Values
      ensures Valid(host.plugins.plugins)
      ensures Value() == old(Value()).(services :=
                ReadCustomUpTo(old(host.Configuration()), host.store.entries, old(Value()).services, names))
    {
      ghost var before, cfg := Value(), host.Configuration();
      for i := 0 to |names|
        invariant Valid(host.plugins.plugins)
        invariant Value() == before.(services := ReadCustomUpTo(cfg, host.store.entries, before.services, names[..i]))
      {
        assert names[..i + 1][..i] == names[..i];
        ReadCustomOne(names[i], host);
      }
      assert names[..|names|] == names;
    }

    /** Replaces references to plugin storage by what the plugins read from there. */
    method PerformCustomReads(host: Host)
      requires Valid(host.plugins.plugins)
      requires Value().services.Keys <= host.plugins.plugins.Keys
      modifies services.Values
      ensures Valid(host.plugins.plugins)
      ensures Value() == old(Value()).(services :=
                ReadCustomAll(old(host.Configuration()), host.store.entries, old(Value()).services))
    {
      var names := ServiceNames();
      ReadCustomEvery(host.Configuration(), host.store.entries, Value().services, names);
      ReadCustomInOrder(names, host);
    }
  }

  function Underlaid(m: StrMap, defaults: StrMap, keys: seq<string>): StrMap {
    if keys == [] then m
    else
      var k := keys[|keys| - 1];
      var r := Underlaid(m, defaults, keys[..|keys| - 1]);
      if k in r then r else r[k := Get(defaults, k)]
  }

  lemma {:induction false} UnderlaidKeys(m: StrMap, defaults: StrMap, keys: seq<string>)
    ensures forall k :: k in Underlaid(m, defaults, keys) <==> k in m || k in keys
    ensures forall k | k in Underlaid(m, defaults, keys) ::
              Underlaid(m, defaults, keys)[k] == if k in m then m[k] else Get(defaults, k)
  {
    if keys != [] {
      var n := |keys| - 1;
      UnderlaidKeys(m, defaults, keys[..n]);
      assert keys == keys[..n] + [keys[n]];
    }
  }

  lemma UnderlaidAll(m: StrMap, defaults: StrMap, keys: seq<string>)
    requires forall k :: k in keys <==> k in defaults
    ensures Underlaid(m, defaults, keys) == defaults + m
  {
    UnderlaidKeys(m, defaults, keys);
  }
}
