/** What is asked of plugins, and what verifying a whole account does to the secret store and to the account. */
module AccountLaws {
  import opened Base
  import opened Secrets
  import opened Plugins
  import opened Accounts
  import opened Services
  import opened Environment
  import opened AccountObjects
  import opened TokenLaws

  // ---------------------------------------------------------------- what is asked of plugins

  /** No plugin sends its tokens to another account or service. */
  ghost predicate CleanPlugins(cfg: Config) {
    forall t, ps | t in cfg.plugins :: CleanTokens(t, cfg.plugins[t].authenticate(ps).tokens)
  }

  predicate FreshId(plugin: Plugin, v: VerifyResult, a: AuthResult, live: set<string>) {
    plugin.write(v, a, live).Some? ==> plugin.write(v, a, live).value.id !in live
  }

  /** A custom write never answers with an id that is in use. */
  ghost predicate FreshWrites(cfg: Config) {
    forall t, v, a, live | t in cfg.plugins :: FreshId(cfg.plugins[t], v, a, live)
  }

  predicate AddsNoReference(plugin: Plugin, params: StrMap) {
    PLUGIN_ID !in params ==>
      forall i | 0 <= i < |plugin.verify(params).params| :: plugin.verify(params).params[i].key != PLUGIN_ID
  }

  /** The reference parameter is not one of the plugins' or the providers' own. */
  ghost predicate ReferenceReserved(cfg: Config) {
    && (forall t, params | t in cfg.plugins :: AddsNoReference(cfg.plugins[t], params))
    && (forall p, s | p in cfg.providers && s in cfg.providers[p] :: PLUGIN_ID !in cfg.providers[p][s])
  }

  /** A caller's account that brings no reference of its own. */
  predicate NoReferences(services: map<string, Service>) {
    forall k | k in services :: PLUGIN_ID !in services[k].params
  }

  // ---------------------------------------------------------------- secrets

  lemma AppendsTrans(a: seq<SecretItem>, b: seq<SecretItem>, c: seq<SecretItem>, id: Uuid, names: seq<string>)
    requires names != []
    requires Appends(a, b, id, names[..|names| - 1]) && Appends(b, c, id, [names[|names| - 1]])
    ensures Appends(a, c, id, names)
  {
    var n := |names| - 1;
    var x :| b == a + x && forall item | item in x :: InServices(item, id, names[..n]);
    var y :| c == b + y && forall item | item in y :: InServices(item, id, [names[n]]);
    assert c == a + (x + y);
    forall item | item in x + y ensures InServices(item, id, names) {
      if item in x {
        var i :| 0 <= i < n && Owned(item, id, names[..n][i]);
        assert Owned(item, id, names[i]);
      } else {
        assert Owned(item, id, names[n]);
      }
    }
  }

  lemma AppendsNothing(items: seq<SecretItem>, id: Uuid, names: seq<string>)
    ensures Appends(items, items, id, names)
  {
    assert items == items + [];
  }

  lemma ServiceAppends(cfg: Config, id: Uuid, title: string, name: string, service: Service, items: seq<SecretItem>,
                       vault: Vault)
    requires CleanPlugins(cfg)
    ensures Appends(items,
         VerifyService(PluginAt(cfg.plugins, name), cfg.dual, id, title, name, service, items, vault).items, id, [name])
  {
    AppendsNothing(items, id, [name]);
    if name in cfg.plugins {
      var p := cfg.plugins[name];
      var v := VerifiedParams(p, cfg.dual, id, name, service.params, items);
      if v.Some? && p.authenticate(v.value.params).authenticated {
        assert CleanTokens(name, p.authenticate(v.value.params).tokens);
        TokensAppend(items, id, title, name, p.authenticate(v.value.params).tokens);
      }
    }
  }

  lemma {:induction false} ServicesAppend(cfg: Config, id: Uuid, title: string, services: map<string, Service>,
                                          items: seq<SecretItem>, vault: Vault, names: seq<string>)
    requires CleanPlugins(cfg)
    requires forall k | k in names :: k in services
    ensures Appends(items, VerifyServices(cfg, id, title, services, items, vault, names).items, id, names)
  {
    if names == [] {
      AppendsNothing(items, id, names);
    } else {
      var n := |names| - 1;
      ServicesAppend(cfg, id, title, services, items, vault, names[..n]);
      var r := VerifyServices(cfg, id, title, services, items, vault, names[..n]);
      ServiceAppends(cfg, id, title, names[n], r.services[names[n]], r.items, r.vault);
      AppendsTrans(items, r.items, VerifyServices(cfg, id, title, services, items, vault, names).items, id, names);
    }
  }

  lemma RetainedAfterAppend(items: seq<SecretItem>, after: seq<SecretItem>, id: Uuid, names: seq<string>)
    requires Appends(items, after, id, names)
    ensures Retained(after, id, names) == Retained(items, id, names)
  {
    var added :| after == items + added && forall item | item in added :: InServices(item, id, names);
    RetainedUndoesAppend(items, added, id, names);
  }

  /** The verification gets as far as the services. */
  predicate Begins(cfg: Config, account: Account) {
    account.title != "" && (account.provider == "" || account.provider in cfg.providers)
  }

  /**
   The secret store after a verification: on success it has grown by items of the account's services;
   on failure exactly the secrets of the account's services are gone, if the services were reached.
   */
  lemma VerifiedSecrets(cfg: Config, account: Account, items: seq<SecretItem>, vault: Vault)
    requires CleanPlugins(cfg) && account.id != NIL_ID
    ensures
      var r := VerifyAccount(cfg, account, items, vault);
      var names := Sorted(account.services.Keys);
      && (r.ok ==> Begins(cfg, account) && Appends(items, r.items, account.id, names))
      && (!r.ok && Begins(cfg, account) ==> r.items == Retained(items, account.id, names))
      && (!Begins(cfg, account) ==> r.items == items)
  {
    if Begins(cfg, account) {
      var given := WithProvider(cfg, account).value;
      assert given.services.Keys == account.services.Keys;
      var names := Sorted(given.services.Keys);
      ServicesAppend(cfg, account.id, account.title, given.services, items, vault, names);
      var r := VerifyServices(cfg, account.id, account.title, given.services, items, vault, names);
      RetainedAfterAppend(items, r.items, account.id, names);
      WithoutServicesIsRetained(r.items, account.id, names);
    }
  }

  /** Without an account id no secret can be taken back: whatever was saved stays, also after a failure. */
  lemma VerifiedWithoutId(cfg: Config, account: Account, items: seq<SecretItem>, vault: Vault)
    requires CleanPlugins(cfg) && account.id == NIL_ID && Begins(cfg, account)
    ensures
      var given, names := WithProvider(cfg, account).value, Sorted(account.services.Keys);
      && given.services.Keys == account.services.Keys
      && VerifyAccount(cfg, account, items, vault).items
         == VerifyServices(cfg, NIL_ID, account.title, given.services, items, vault, names).items
      && Appends(items, VerifyAccount(cfg, account, items, vault).items, NIL_ID, names)
  {
    var given := WithProvider(cfg, account).value;
    assert given.services.Keys == account.services.Keys;
    ServicesAppend(cfg, NIL_ID, account.title, given.services, items, vault, Sorted(given.services.Keys));
  }

  // ---------------------------------------------------------------- the account itself

  lemma {:induction false} UntouchedServices(cfg: Config, id: Uuid, title: string, services: map<string, Service>,
                                             items: seq<SecretItem>, vault: Vault, names: seq<string>, k: string)
    requires forall j | j in names :: j in services
    requires k in services && k !in names
    ensures VerifyServices(cfg, id, title, services, items, vault, names).services[k] == services[k]
  {
    if names != [] {
      UntouchedServices(cfg, id, title, services, items, vault, names[..|names| - 1], k);
    }
  }

  lemma {:induction false} VerifiedRegistered(cfg: Config, id: Uuid, title: string, services: map<string, Service>,
                                              items: seq<SecretItem>, vault: Vault, names: seq<string>)
    requires forall j | j in names :: j in services
    ensures VerifyServices(cfg, id, title, services, items, vault, names).ok ==> forall k | k in names ::
         k in cfg.plugins
  {
    if names != [] {
      var n := |names| - 1;
      assert names == names[..n] + [names[n]];
      VerifiedRegistered(cfg, id, title, services, items, vault, names[..n]);
    }
  }

  /** Only the services' contents change, and every service of a verified account has a plugin. */
  lemma {:induction false} VerifiedAccount(cfg: Config, account: Account, items: seq<SecretItem>, vault: Vault)
    ensures
      var r := VerifyAccount(cfg, account, items, vault);
      && r.account == account.(services := r.account.services)
      && r.account.services.Keys == account.services.Keys
      && (r.ok ==> account.services.Keys <= cfg.plugins.Keys)
  {
    if Begins(cfg, account) {
      var given := WithProvider(cfg, account).value;
      assert given.services.Keys == account.services.Keys;
      var names := Sorted(given.services.Keys);
      VerifiedRegistered(cfg, account.id, account.title, given.services, items, vault, names);
      var r := VerifyAccount(cfg, account, items, vault);
      if r.ok {
        forall k | k in account.services.Keys ensures k in cfg.plugins.Keys {
          assert k in names;
        }
      }
    }
  }
}
