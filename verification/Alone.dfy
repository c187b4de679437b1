/**
 If tokens keep to their own service, the services of an account do not meet: each is verified as if it were
 the only one. So the outcome can be told from the parameters given, before anything has happened.
 */
module Alone {
  import opened Base
  import opened Secrets
  import opened Plugins
  import opened Accounts
  import opened Services
  import opened Environment
  import opened AccountObjects
  import opened ServiceLaws
  import opened TokenLaws
  import opened AccountLaws
  import opened Turns
  import opened VaultLaws

  // ---------------------------------------------------------------- secrets of other services

  predicate Elsewhere(item: SecretItem, name: string) {
    "service" in item.attributes && item.attributes["service"] != name
  }

  lemma {:induction false} SavedSkips(dual: DualPassword, found: seq<SecretItem>, rest: seq<SecretItem>, name: string,
                                      key: string)
    requires forall item | item in rest :: Elsewhere(item, name)
    ensures SavedValue(dual, found + rest, name, key) == SavedValue(dual, found, name, key)
  {
    if rest == [] {
      assert found + rest == found;
    } else {
      var n := |rest| - 1;
      assert (found + rest)[..|found| + n] == found + rest[..n];
      assert (found + rest)[|found| + n] == rest[n] && rest[n] in rest;
      SavedSkips(dual, found, rest[..n], name, key);
    }
  }

  lemma {:induction false} LoadSame(dual: DualPassword, found: seq<SecretItem>, other: seq<SecretItem>, name: string,
                                    list: seq<ServiceParam>)
    requires forall key :: SavedValue(dual, found, name, key) == SavedValue(dual, other, name, key)
    ensures LoadParams(dual, found, name, list) == LoadParams(dual, other, name, list)
  {
    if list != [] {
      LoadSame(dual, found, other, name, list[..|list| - 1]);
    }
  }

  /** Secrets of other services make no difference to a service. */
  lemma ParamsAlone(p: Plugin, dual: DualPassword, id: Uuid, name: string, params: StrMap, items: seq<SecretItem>,
                    added: seq<SecretItem>)
    requires forall item | item in added :: Elsewhere(item, name)
    ensures VerifiedParams(p, dual, id, name, params, items + added) == VerifiedParams(p, dual, id, name, params, items)
  {
    var found, rest := Found(items, AccountQuery(id)), Found(added, AccountQuery(id));
    FoundAppend(items, added, AccountQuery(id));
    FoundMembers(added, AccountQuery(id));
    forall key ensures SavedValue(dual, found + rest, name, key) == SavedValue(dual, found, name, key) {
      SavedSkips(dual, found, rest, name, key);
    }
    LoadSame(dual, found + rest, found, name, p.verify(params).params);
  }

  lemma ServeAlone(cfg: Config, id: Uuid, title: string, name: string, service: Service,
                   items: seq<SecretItem>, added: seq<SecretItem>, vault: Vault)
    requires forall item | item in added :: Elsewhere(item, name)
    ensures Serve(cfg, id, title, name, service, items + added, vault).ok
         == Serve(cfg, id, title, name, service, items, vault).ok
    ensures WriteOf(cfg, id, title, name, service.params, items + added, vault)
         == WriteOf(cfg, id, title, name, service.params, items, vault)
  {
    if name in cfg.plugins {
      var p := cfg.plugins[name];
      ParamsAlone(p, cfg.dual, id, name, service.params, items, added);
      VerifiedAnswer(p, cfg.dual, id, name, service.params, items);
      VerifiedAnswer(p, cfg.dual, id, name, service.params, items + added);
      var v := VerifiedParams(p, cfg.dual, id, name, service.params, items);
      if v.Some? {
        var tokens := p.authenticate(v.value.params).tokens;
        SavingIndependent(items, id, title, name, tokens);
        SavingIndependent(items + added, id, title, name, tokens);
      }
    }
  }

  /** What is in the store when a service's turn comes, beyond what was there, is not its own. */
  lemma {:induction false} AddedElsewhere(cfg: Config, given: Account, items: seq<SecretItem>, vault: Vault,
                                          names: seq<string>, k: string)
    returns (added: seq<SecretItem>)
    requires CleanPlugins(cfg) && Distinct(names) && forall j | j in names :: j in given.services
    ensures ItemsAt(cfg, given, items, vault, names, k) == items + added
    ensures forall item | item in added :: Elsewhere(item, k)
  {
    added := [];
    if names == [] {
      assert items + added == items;
    } else {
      var front := names[..|names| - 1];
      SplitNames(names);
      if names[|names| - 1] == k {
        ServicesAppend(cfg, given.id, given.title, given.services, items, vault, front);
        var more :| ItemsAt(cfg, given, items, vault, names, k) == items + more
          && forall item | item in more :: InServices(item, given.id, front);
        forall item | item in more ensures Elsewhere(item, k) {
          InServicesBelongs(item, given.id, front);
        }
        added := more;
      } else {
        added := AddedElsewhere(cfg, given, items, vault, front, k);
      }
    }
  }

  // ---------------------------------------------------------------- the account

  /** The service on its own, with its provider's parameters and the secrets saved before. */
  ghost function First(cfg: Config, account: Account, items: seq<SecretItem>, vault: Vault, k: string): ServiceRun
    requires k in account.services
  {
    GivenKeys(cfg, account);
    Serve(cfg, account.id, account.title, k, Given(cfg, account).services[k], items, vault)
  }

  ghost function FirstWrite(cfg: Config, account: Account, items: seq<SecretItem>, vault: Vault,
                            k: string): Option<Written>
    requires k in account.services
  {
    GivenKeys(cfg, account);
    WriteOf(cfg, account.id, account.title, k, Given(cfg, account).services[k].params, items, vault)
  }

  /** What a verification stores for a service is what it would store for the service alone. */
  lemma WritesAlone(cfg: Config, account: Account, items: seq<SecretItem>, vault: Vault, k: string)
    requires CleanPlugins(cfg) && Begins(cfg, account) && k in account.services
    ensures Writes(cfg, account, items, vault, k) == FirstWrite(cfg, account, items, vault, k)
  {
    GivenKeys(cfg, account);
    var given := Given(cfg, account);
    var added := AddedElsewhere(cfg, given, items, vault, Sorted(account.services.Keys), k);
    ServeAlone(cfg, given.id, given.title, k, given.services[k], items, added, vault);
  }

  lemma TurnAlone(cfg: Config, account: Account, items: seq<SecretItem>, vault: Vault, k: string)
    requires CleanPlugins(cfg) && k in account.services && Given(cfg, account).services.Keys == account.services.Keys
    ensures
      var given, names := Given(cfg, account), Sorted(account.services.Keys);
      Serve(cfg, given.id, given.title, k, given.services[k], ItemsAt(cfg, given, items, vault, names, k), vault).ok
      == First(cfg, account, items, vault, k).ok
  {
    GivenKeys(cfg, account);
    var given, names := Given(cfg, account), Sorted(account.services.Keys);
    var added := AddedElsewhere(cfg, given, items, vault, names, k);
    ServeAlone(cfg, given.id, given.title, k, given.services[k], items, added, vault);
  }

  lemma TurnsAlone(cfg: Config, account: Account, items: seq<SecretItem>, vault: Vault)
    requires CleanPlugins(cfg) && Given(cfg, account).services.Keys == account.services.Keys
    ensures VerifyNames(cfg, Given(cfg, account), items, vault, Sorted(account.services.Keys)).ok
       <==> forall k | k in account.services :: First(cfg, account, items, vault, k).ok
  {
    var names := Sorted(account.services.Keys);
    Ends(cfg, Given(cfg, account), items, vault, names);
    forall k | k in account.services ensures k in names {
    }
    forall k | k in names {
      TurnAlone(cfg, account, items, vault, k);
    }
  }

  /** A verification succeeds iff it gets to the services and would succeed for each of them alone. */
  lemma VerifiesIff(cfg: Config, account: Account, items: seq<SecretItem>, vault: Vault)
    requires CleanPlugins(cfg)
    ensures VerifyAccount(cfg, account, items, vault).ok
       <==> Begins(cfg, account) && forall k | k in account.services :: First(cfg, account, items, vault, k).ok
  {
    GivenKeys(cfg, account);
    TurnsAlone(cfg, account, items, vault);
  }

  // ---------------------------------------------------------------- a new account

  /** The plugin verifies and authenticates the given parameters, and all tokens it answers with can be stored. */
  predicate Passes(cfg: Config, title: string, k: string, params: StrMap) {
    && k in cfg.plugins
    && cfg.plugins[k].verify(params).verified
    && var a := cfg.plugins[k].authenticate(cfg.plugins[k].verify(params).params);
    && a.authenticated
    && AllAccepted(Grouped(NIL_ID, title, k, a.tokens))
  }

  /** The plugin then stores the service. */
  ghost predicate Stores(cfg: Config, title: string, k: string, params: StrMap, vault: Vault) {
    && Passes(cfg, title, k, params)
    && var v := cfg.plugins[k].verify(params);
    cfg.plugins[k].write(v, cfg.plugins[k].authenticate(v.params), LiveIds(vault, k)).Some?
  }

  /** For an account without saved secrets, in terms of the plugin's functions and the given parameters. */
  lemma FirstOfNew(cfg: Config, account: Account, items: seq<SecretItem>, vault: Vault, k: string)
    requires k in account.services && forall i | 0 <= i < |items| :: !Matches(items[i], AccountQuery(account.id))
    ensures
      k in Given(cfg, account).services
      && var params := Given(cfg, account).services[k].params;
      && (First(cfg, account, items, vault, k).ok <==> Passes(cfg, account.title, k, params))
      && (FirstWrite(cfg, account, items, vault, k).Some? <==> Stores(cfg, account.title, k, params, vault))
  {
    GivenKeys(cfg, account);
    if k in cfg.plugins {
      var p, service := cfg.plugins[k], Given(cfg, account).services[k];
      var v := p.verify(service.params);
      NothingPassedOn(cfg.dual, items, account.id, k, v.params);
      ServiceVerified(p, cfg.dual, account.id, account.title, k, service, items, vault);
      SavingIndependent(items, account.id, account.title, k, p.authenticate(v.params).tokens);
    }
  }
}
