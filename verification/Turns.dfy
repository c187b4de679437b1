/**
 The services of an account are verified one after the other. What each of them gets out of its turn, and
 what the plugins' storage holds afterwards, without any assumption on plugins or callers.
 */
module Turns {
  import opened Base
  import opened Secrets
  import opened Plugins
  import opened Accounts
  import opened Services
  import opened Environment
  import opened AccountObjects
  import opened ServiceLaws
  import opened AccountLaws

  // ---------------------------------------------------------------- one service

  /** What the custom write answers, if the verification of the service gets that far. */
  ghost function WriteOf(cfg: Config, id: Uuid, title: string, name: string, params: StrMap,
                         items: seq<SecretItem>, vault: Vault): Option<Written>
  {
    if name !in cfg.plugins then None
    else WrittenFor(cfg.plugins[name], cfg.dual, id, title, name, params, items, vault)
  }

  /** What the plugin's answer to the given parameters would put into the account file. */
  function Answer(cfg: Config, name: string, params: StrMap): StrMap
    requires name in cfg.plugins
  {
    Unprotected(Applied(cfg.plugins[name].verify(params).params))
  }

  ghost function Serve(cfg: Config, id: Uuid, title: string, name: string, service: Service,
                       items: seq<SecretItem>, vault: Vault): ServiceRun
  {
    VerifyService(PluginAt(cfg.plugins, name), cfg.dual, id, title, name, service, items, vault)
  }

  function WithEntry(vault: Vault, name: string, written: Option<Written>): Vault {
    if written.Some? then vault[EntryKey(name, written.value.id) := written.value.params] else vault
  }

  /** What a service is stored with. */
  function Result(written: Option<Written>, answer: StrMap): StrMap {
    if written.Some? then map[PLUGIN_ID := written.value.id] else answer
  }

  lemma TurnStores(cfg: Config, id: Uuid, title: string, name: string, service: Service, items: seq<SecretItem>,
                   vault: Vault)
    ensures
      var s := Serve(cfg, id, title, name, service, items, vault);
      var w := WriteOf(cfg, id, title, name, service.params, items, vault);
      && s.vault == WithEntry(vault, name, w)
      && (w.Some? ==> s.ok && s.service == Reference(w.value.id))
      && (s.ok ==> name in cfg.plugins)
      && (s.ok && w.None? ==>
            s.service == Applied(Loaded(cfg.plugins[name], cfg.dual, id, name, service.params, items)))
  {
    if name in cfg.plugins {
      VerifiedAnswer(cfg.plugins[name], cfg.dual, id, name, service.params, items);
    }
  }

  /** A turn stores what the write answers, and leaves the reference alone or the plugin's public answer. */
  lemma OneTurn(cfg: Config, id: Uuid, title: string, name: string, service: Service, items: seq<SecretItem>,
                vault: Vault)
    ensures
      var s := Serve(cfg, id, title, name, service, items, vault);
      var w := WriteOf(cfg, id, title, name, service.params, items, vault);
      && s.vault == WithEntry(vault, name, w)
      && (w.Some? ==> s.ok)
      && (s.ok ==> name in cfg.plugins && Unprotected(s.service) == Result(w, Answer(cfg, name, service.params)))
  {
    TurnStores(cfg, id, title, name, service, items, vault);
    if name in cfg.plugins {
      PublicUntouched(cfg.plugins[name], cfg.dual, id, name, service.params, items);
    }
  }

  /** A turn depends on the storage only through the plugin's own ids. */
  lemma OwnIdsDecide(cfg: Config, id: Uuid, title: string, name: string, service: Service, items: seq<SecretItem>,
                     vault: Vault, other: Vault)
    requires LiveIds(vault, name) == LiveIds(other, name)
    ensures WriteOf(cfg, id, title, name, service.params, items, vault)
         == WriteOf(cfg, id, title, name, service.params, items, other)
    ensures Serve(cfg, id, title, name, service, items, vault).ok
         == Serve(cfg, id, title, name, service, items, other).ok
    ensures Serve(cfg, id, title, name, service, items, vault).service
         == Serve(cfg, id, title, name, service, items, other).service
  {
  }

  // ---------------------------------------------------------------- one after the other

  /** The secret store when a service's turn comes. */
  ghost function ItemsAt(cfg: Config, given: Account, items: seq<SecretItem>, vault: Vault, names: seq<string>,
                         k: string): seq<SecretItem>
    requires forall j | j in names :: j in given.services
  {
    if names == [] then items
    else
      var front := names[..|names| - 1];
      if names[|names| - 1] == k
      then VerifyServices(cfg, given.id, given.title, given.services, items, vault, front).items
      else ItemsAt(cfg, given, items, vault, front, k)
  }

  ghost function WriteAt(cfg: Config, given: Account, items: seq<SecretItem>, vault: Vault, names: seq<string>,
                         k: string): Option<Written>
    requires forall j | j in names :: j in given.services
  {
    if k !in names then None
    else WriteOf(cfg, given.id, given.title, k, given.services[k].params, ItemsAt(cfg, given, items, vault, names, k),
        vault)
  }

  /** The entry under a key once the write under its plugin has happened. */
  function EntryAfter(vault: Vault, e: EntryKey, written: Option<Written>): Option<StrMap> {
    if written.Some? && written.value.id == e.id then Some(written.value.params) else EntryOf(vault, e.plugin, e.id)
  }

  ghost function VerifyNames(cfg: Config, given: Account, items: seq<SecretItem>, vault: Vault,
                             names: seq<string>): ServicesRun
    requires forall j | j in names :: j in given.services
  {
    VerifyServices(cfg, given.id, given.title, given.services, items, vault, names)
  }

  predicate Distinct(names: seq<string>) {
    forall i, j | 0 <= i < j < |names| :: names[i] != names[j]
  }

  lemma SplitNames(names: seq<string>)
    requires names != [] && Distinct(names)
    ensures Distinct(names[..|names| - 1]) && names[|names| - 1] !in names[..|names| - 1]
    ensures forall k :: k in names <==> k in names[..|names| - 1] || k == names[|names| - 1]
  {
    LastApart(names);
  }

  /** A service's turn, seen from the storage before the first of them. */
  lemma LastTurn(cfg: Config, given: Account, items: seq<SecretItem>, vault: Vault, names: seq<string>)
    requires names != [] && Distinct(names) && forall j | j in names :: j in given.services
    requires forall e: EntryKey | e.plugin == names[|names| - 1] ::
      EntryOf(VerifyNames(cfg, given, items, vault, names[..|names| - 1]).vault, e.plugin, e.id)
          == EntryOf(vault, e.plugin, e.id)
    ensures
      var k := names[|names| - 1];
      var r := VerifyNames(cfg, given, items, vault, names[..|names| - 1]);
      var s := Serve(cfg, given.id, given.title, k, given.services[k], r.items, vault);
      var r' := VerifyNames(cfg, given, items, vault, names);
      && r'.vault == WithEntry(r.vault, k, WriteAt(cfg, given, items, vault, names, k))
      && r'.services == r.services[k := s.service] && r'.ok == (r.ok && s.ok)
  {
    var k := names[|names| - 1];
    var front := names[..|names| - 1];
    SplitNames(names);
    var r := VerifyNames(cfg, given, items, vault, front);
    UntouchedServices(cfg, given.id, given.title, given.services, items, vault, front, k);
    forall x ensures x in LiveIds(r.vault, k) <==> x in LiveIds(vault, k) {
      assert EntryOf(r.vault, EntryKey(k, x).plugin, x) == EntryOf(vault, EntryKey(k, x).plugin, x);
    }
    assert LiveIds(r.vault, k) == LiveIds(vault, k);
    OwnIdsDecide(cfg, given.id, given.title, k, given.services[k], r.items, r.vault, vault);
    OneTurn(cfg, given.id, given.title, k, given.services[k], r.items, r.vault);
  }

  /** The storage afterwards, entry by entry. */
  lemma {:induction false} Contents(cfg: Config, given: Account, items: seq<SecretItem>, vault: Vault,
                                    names: seq<string>, e: EntryKey)
    requires Distinct(names) && forall j | j in names :: j in given.services
    ensures EntryOf(VerifyNames(cfg, given, items, vault, names).vault, e.plugin, e.id)
         == EntryAfter(vault, e, WriteAt(cfg, given, items, vault, names, e.plugin))
  {
    if names != [] {
      var front := names[..|names| - 1];
      SplitNames(names);
      Contents(cfg, given, items, vault, front, e);
      forall x: EntryKey | x.plugin == names[|names| - 1]
        ensures EntryOf(VerifyNames(cfg, given, items, vault, front).vault, x.plugin, x.id)
             == EntryOf(vault, x.plugin, x.id)
      {
        Contents(cfg, given, items, vault, front, x);
      }
      LastTurn(cfg, given, items, vault, names);
    }
  }

  /** Every service ends as it would on its own with the secret store of its turn; all must succeed. */
  lemma {:induction false} Ends(cfg: Config, given: Account, items: seq<SecretItem>, vault: Vault, names: seq<string>)
    requires Distinct(names) && forall j | j in names :: j in given.services
    ensures
      var r := VerifyNames(cfg, given, items, vault, names);
      && (forall k | k in names :: r.services[k]
            == Serve(cfg, given.id, given.title, k, given.services[k], ItemsAt(cfg, given, items, vault, names, k),
                vault).service)
      && (r.ok <==> forall k | k in names ::
            Serve(cfg, given.id, given.title, k, given.services[k], ItemsAt(cfg, given, items, vault, names, k),
                vault).ok)
  {
    if names != [] {
      var front := names[..|names| - 1];
      SplitNames(names);
      Ends(cfg, given, items, vault, front);
      forall x: EntryKey | x.plugin == names[|names| - 1]
        ensures EntryOf(VerifyNames(cfg, given, items, vault, front).vault, x.plugin, x.id)
             == EntryOf(vault, x.plugin, x.id)
      {
        Contents(cfg, given, items, vault, front, x);
      }
      LastTurn(cfg, given, items, vault, names);
    }
  }
}
