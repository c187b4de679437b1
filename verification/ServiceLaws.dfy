/** What a verification of one service is for: what it stores, and what it leaves alone. */
module ServiceLaws {
  import opened Base
  import opened Secrets
  import opened Plugins
  import opened Accounts
  import opened Services

  // ---------------------------------------------------------------- parameters: the last one wins

  /** No later parameter has the same key. */
  predicate IsLast(list: seq<ServiceParam>, i: nat) {
    i < |list| && forall j | i < j < |list| :: list[j].key != list[i].key
  }

  lemma {:induction false} AppliedAt(list: seq<ServiceParam>, i: nat)
    requires IsLast(list, i)
    ensures
      var s := Applied(list);
      && list[i].key in s.params && s.params[list[i].key] == list[i].val
      && list[i].key in s.guarded && s.guarded[list[i].key] == list[i].isProtected
      && list[i].key in s.required && s.required[list[i].key] == list[i].isRequired
  {
    var n := |list| - 1;
    if i < n {
      assert IsLast(list[..n], i);
      AppliedAt(list[..n], i);
    }
  }

  lemma {:induction false} AppliedDomain(list: seq<ServiceParam>, key: string) returns (i: nat)
    requires key in Applied(list).params
    ensures IsLast(list, i) && list[i].key == key
  {
    var n := |list| - 1;
    if list[n].key == key {
      i := n;
    } else {
      i := AppliedDomain(list[..n], key);
    }
  }

  /**
   A service verified without a custom write is stored with exactly its unprotected parameters: a key
   is written iff its last parameter is unprotected, and then with that parameter's value.
   */
  lemma StoredParams(list: seq<ServiceParam>, key: string)
    ensures key in Unprotected(Applied(list)) <==>
            exists i: nat :: IsLast(list, i) && list[i].key == key && !list[i].isProtected
    ensures forall i: nat | IsLast(list, i) && list[i].key == key && !list[i].isProtected
              :: key in Unprotected(Applied(list)) && Unprotected(Applied(list))[key] == list[i].val
  {
    AppliedVerified(list);
    if key in Applied(list).params {
      var i := AppliedDomain(list, key);
      AppliedAt(list, i);
    }
    forall i: nat | IsLast(list, i) && list[i].key == key && !list[i].isProtected
      ensures key in Unprotected(Applied(list)) && Unprotected(Applied(list))[key] == list[i].val
    {
      AppliedAt(list, i);
    }
  }

  // ---------------------------------------------------------------- parameters: what the secret store fills in

  /** A secret that answers for the parameters of this account and service. */
  predicate SavedFor(item: SecretItem, id: Uuid, name: string) {
    && "account_id" in item.attributes && item.attributes["account_id"] == id
    && "service" in item.attributes && item.attributes["service"] == name
    && "schema" in item.attributes
    && (item.attributes["schema"] == "dual_password" || item.attributes["schema"] == "password")
  }

  predicate LastSaved(items: seq<SecretItem>, id: Uuid, name: string, i: nat) {
    && i < |items| && SavedFor(items[i], id, name)
    && forall j | i < j < |items| :: !SavedFor(items[j], id, name)
  }

  /** The value in the last secret saved for the account and the service; no value if there is none. */
  ghost function Recalled(dual: DualPassword, items: seq<SecretItem>, id: Uuid, name: string, key: string): string {
    if exists i: nat :: LastSaved(items, id, name, i) then
      var i: nat :| LastSaved(items, id, name, i);
      if items[i].attributes["schema"] == "dual_password" then dual(items[i], key)
      else if "password" in items[i].secrets then items[i].secrets["password"] else ""
    else ""
  }

  /** Only a protected parameter that comes without a value is looked up. */
  ghost function Recall(dual: DualPassword, items: seq<SecretItem>, id: Uuid, name: string,
                        p: ServiceParam): ServiceParam {
    if p.isProtected && p.val == "" then p.(val := Recalled(dual, items, id, name, p.key)) else p
  }

  /** A plugin's answer, with what the secret store has for it. */
  ghost function PassedOn(dual: DualPassword, items: seq<SecretItem>, id: Uuid, name: string,
                          answer: seq<ServiceParam>): seq<ServiceParam> {
    seq(|answer|, i requires 0 <= i < |answer| => Recall(dual, items, id, name, answer[i]))
  }

  lemma FoundLast(items: seq<SecretItem>, id: Uuid)
    requires items != []
    ensures
      var n := |items| - 1;
      var belongs := "account_id" in items[n].attributes && items[n].attributes["account_id"] == id;
      Found(items, AccountQuery(id))
      == Found(items[..n], AccountQuery(id)) + if belongs && Known(items[n]) then [items[n]] else []
  {
    BelongsMeaning(items[|items| - 1], id);
  }

  /** One more item in the store: it answers, or what was there before does. */
  lemma RecalledNext(dual: DualPassword, items: seq<SecretItem>, id: Uuid, name: string, key: string)
    requires items != []
    ensures
      var n := |items| - 1;
      Recalled(dual, items, id, name, key)
      == if !SavedFor(items[n], id, name) then Recalled(dual, items[..n], id, name, key)
         else if items[n].attributes["schema"] == "dual_password" then dual(items[n], key)
         else Get(items[n].secrets, "password")
  {
    var n := |items| - 1;
    if SavedFor(items[n], id, name) {
      assert LastSaved(items, id, name, n);
    } else {
      forall i: nat ensures LastSaved(items, id, name, i) <==> LastSaved(items[..n], id, name, i) {
        if i < n { assert items[..n][i] == items[i]; }
        if LastSaved(items[..n], id, name, i) {
          forall j | i < j < |items| ensures !SavedFor(items[j], id, name) {
            if j < n { assert items[..n][j] == items[j]; }
          }
        }
      }
    }
  }

  lemma SavedNext(dual: DualPassword, found: seq<SecretItem>, item: SecretItem, name: string, key: string)
    ensures SavedValue(dual, found + [item], name, key)
         == if "service" !in item.attributes || item.attributes["service"] != name
            then SavedValue(dual, found, name, key)
            else if Get(item.attributes, "schema") == "dual_password" then dual(item, key)
            else if Get(item.attributes, "schema") == "password" then Get(item.secrets, "password")
            else SavedValue(dual, found, name, key)
  {
    assert (found + [item])[..|found|] == found;
  }

  lemma {:induction false} SavedIsRecalled(dual: DualPassword, items: seq<SecretItem>, id: Uuid, name: string,
                                           key: string)
    ensures SavedValue(dual, Found(items, AccountQuery(id)), name, key) == Recalled(dual, items, id, name, key)
  {
    if items != [] {
      var n := |items| - 1;
      SavedIsRecalled(dual, items[..n], id, name, key);
      FoundLast(items, id);
      KnownSchemas(items[n]);
      var front := Found(items[..n], AccountQuery(id));
      SavedNext(dual, front, items[n], name, key);
      assert front + [] == front;
      RecalledNext(dual, items, id, name, key);
    }
  }

  /**
   The parameters that go on to authentication, storage and the service are the plugin's own, in order, with
   their flags. Only a protected one without a value gets one, from the last secret saved for the service.
   */
  lemma {:induction false} LoadedParams(dual: DualPassword, items: seq<SecretItem>, id: Uuid, name: string,
                                        list: seq<ServiceParam>)
    ensures LoadParams(dual, Found(items, AccountQuery(id)), name, list) == PassedOn(dual, items, id, name, list)
  {
    if list != [] {
      var n := |list| - 1;
      LoadedParams(dual, items, id, name, list[..n]);
      SavedIsRecalled(dual, items, id, name, list[n].key);
      LastApart(PassedOn(dual, items, id, name, list));
    }
  }

  /** Nothing is filled in for an account without saved secrets. */
  lemma NothingPassedOn(dual: DualPassword, items: seq<SecretItem>, id: Uuid, name: string, list: seq<ServiceParam>)
    requires forall i | 0 <= i < |items| :: !Belongs(items[i], id)
    ensures PassedOn(dual, items, id, name, list) == list
  {
    forall i | 0 <= i < |items| ensures !SavedFor(items[i], id, name) {
      BelongsMeaning(items[i], id);
    }
  }

  /** The parameters a verification goes on with. */
  ghost function Loaded(plugin: Plugin, dual: DualPassword, id: Uuid, name: string, params: StrMap,
                        items: seq<SecretItem>): seq<ServiceParam> {
    PassedOn(dual, items, id, name, plugin.verify(params).params)
  }

  lemma VerifiedAnswer(plugin: Plugin, dual: DualPassword, id: Uuid, name: string, params: StrMap,
                       items: seq<SecretItem>)
    ensures
      var v := plugin.verify(params);
      VerifiedParams(plugin, dual, id, name, params, items)
      == if v.verified then Some(v.(params := Loaded(plugin, dual, id, name, params, items))) else None
  {
    LoadedParams(dual, items, id, name, plugin.verify(params).params);
  }

  // ---------------------------------------------------------------- the whole verification

  /** The service has exactly the listed parameters with their flags, the last of a key deciding, and is verified. */
  ghost predicate TakesOver(service: Service, list: seq<ServiceParam>) {
    && service.verified
    && service.required.Keys == service.params.Keys && service.guarded.Keys == service.params.Keys
    && (forall key :: key in service.params <==> exists i: nat :: IsLast(list, i) && list[i].key == key)
    && forall i: nat, key | IsLast(list, i) && list[i].key == key ::
         && service.params[key] == list[i].val && service.required[key] == list[i].isRequired
         && service.guarded[key] == list[i].isProtected
  }

  lemma {:induction false} AppliedKeys(list: seq<ServiceParam>)
    ensures Applied(list).required.Keys == Applied(list).params.Keys == Applied(list).guarded.Keys
  {
    if list != [] {
      AppliedKeys(list[..|list| - 1]);
    }
  }

  lemma AppliedTakesOver(list: seq<ServiceParam>)
    ensures TakesOver(Applied(list), list)
  {
    var s := Applied(list);
    AppliedVerified(list);
    AppliedKeys(list);
    forall key | key in s.params ensures exists i: nat :: IsLast(list, i) && list[i].key == key {
      var i := AppliedDomain(list, key);
    }
    forall i: nat, key | IsLast(list, i) && list[i].key == key
      ensures key in s.params && s.params[key] == list[i].val && s.required[key] == list[i].isRequired
           && s.guarded[key] == list[i].isProtected
    {
      AppliedAt(list, i);
    }
  }

  /** What a plugin stores for a service, once it has verified and authenticated it and its tokens are saved. */
  ghost function WrittenFor(plugin: Plugin, dual: DualPassword, id: Uuid, title: string, name: string, params: StrMap,
                         items: seq<SecretItem>, vault: Vault): Option<Written> {
    var v, list := plugin.verify(params), Loaded(plugin, dual, id, name, params, items);
    var a := plugin.authenticate(list);
    if v.verified && a.authenticated && SaveTokens(items, id, title, name, a.tokens).ok
    then plugin.write(v.(params := list), a, LiveIds(vault, name)) else None
  }

  /**
   The verification of a service, stage by stage. It succeeds iff the plugin verifies the parameters and
   authenticates its own answer, completed from the secret store, and the tokens can be saved. Then the plugin
   is asked to store the service: if it does, only its reference remains; if not, the completed answer. A
   service that fails keeps its parameters, or the completed answer once the plugin has verified it. Without a
   plugin nothing happens.
   */
  lemma ServiceVerified(plugin: Plugin, dual: DualPassword, id: Uuid, title: string, name: string,
                        service: Service, items: seq<SecretItem>, vault: Vault)
    ensures
      var r := VerifyService(Some(plugin), dual, id, title, name, service, items, vault);
      var v, list := plugin.verify(service.params), Loaded(plugin, dual, id, name, service.params, items);
      var a := plugin.authenticate(list);
      var saved := SaveTokens(items, id, title, name, a.tokens);
      var w := WrittenFor(plugin, dual, id, title, name, service.params, items, vault);
      && (r.ok <==> v.verified && a.authenticated && saved.ok)
      && r.items == (if v.verified && a.authenticated then saved.items else items)
      && r.vault == (if w.Some? then vault[EntryKey(name, w.value.id) := w.value.params] else vault)
      && (if w.Some? then r.service == Service(map[PLUGIN_ID := w.value.id], map[], map[], true)
          else if v.verified then TakesOver(r.service, list) else r.service == service)
    ensures VerifyService(None, dual, id, title, name, service, items, vault)
         == ServiceRun(false, service, items, vault)
  {
    VerifiedAnswer(plugin, dual, id, name, service.params, items);
    AppliedTakesOver(Loaded(plugin, dual, id, name, service.params, items));
  }

  /** The plugin's custom write answered with an id and the entry is in its storage. */
  ghost predicate Wrote(plugin: Plugin, name: string, vault: Vault, vault': Vault, service: Service) {
    exists v, a, w ::
      && plugin.write(v, a, LiveIds(vault, name)) == Some(w)
      && vault' == vault[EntryKey(name, w.id) := w.params]
      && service == Reference(w.id)
  }

  /** The ways a verification can end, as far as the service and the plugin's storage go. */
  lemma {:induction false} Endings(plugin: Plugin, dual: DualPassword, id: Uuid, title: string, name: string,
                service: Service, items: seq<SecretItem>, vault: Vault)
    ensures
      var r := VerifyService(Some(plugin), dual, id, title, name, service, items, vault);
      && (!r.ok ==>
           && r.vault == vault
           && (r.service == service || r.service == Applied(Loaded(plugin, dual, id, name, service.params, items))))
      && (r.ok ==>
           || Wrote(plugin, name, vault, r.vault, r.service)
           || (r.vault == vault && r.service == Applied(Loaded(plugin, dual, id, name, service.params, items))))
  {
    var r := VerifyService(Some(plugin), dual, id, title, name, service, items, vault);
    VerifiedAnswer(plugin, dual, id, name, service.params, items);
    if r.ok {
      var v := VerifiedParams(plugin, dual, id, name, service.params, items).value;
      var a := plugin.authenticate(v.params);
      var w := plugin.write(v, a, LiveIds(vault, name));
      if w.Some? {
        assert plugin.write(v, a, LiveIds(vault, name)) == Some(w.value);
      }
    }
  }

  /**
   What a successful verification leaves to be written to the account file: a reference to the
   plugin's storage and nothing else, or the plugin's own unprotected parameters, whose values no
   saved secret has touched.
   */
  lemma ProtectedStayOut(plugin: Plugin, dual: DualPassword, id: Uuid, title: string, name: string,
                         service: Service, items: seq<SecretItem>, vault: Vault)
    ensures
      var r := VerifyService(Some(plugin), dual, id, title, name, service, items, vault);
      r.ok ==>
        || (exists pluginId ::
            EntryKey(name, pluginId) in r.vault && Unprotected(r.service) == map[PLUGIN_ID := pluginId])
        || Unprotected(r.service) == Unprotected(Applied(plugin.verify(service.params).params))
  {
    var r := VerifyService(Some(plugin), dual, id, title, name, service, items, vault);
    Endings(plugin, dual, id, title, name, service, items, vault);
    if r.ok {
      if Wrote(plugin, name, vault, r.vault, r.service) {
        var v, a, w :| plugin.write(v, a, LiveIds(vault, name)) == Some(w)
          && r.vault == vault[EntryKey(name, w.id) := w.params] && r.service == Reference(w.id);
        assert Unprotected(r.service) == map[PLUGIN_ID := w.id];
      } else {
        PublicUntouched(plugin, dual, id, name, service.params, items);
      }
    }
  }

  /** Saved secrets do not show in what is written. */
  lemma PublicUntouched(plugin: Plugin, dual: DualPassword, id: Uuid, name: string, params: StrMap,
                        items: seq<SecretItem>)
    ensures Unprotected(Applied(Loaded(plugin, dual, id, name, params, items)))
         == Unprotected(Applied(plugin.verify(params).params))
  {
    LoadingKeepsPublic(plugin.verify(params).params, Loaded(plugin, dual, id, name, params, items));
  }

  lemma LoadingKeepsPublic(given: seq<ServiceParam>, loaded: seq<ServiceParam>)
    requires |given| == |loaded|
    requires forall i | 0 <= i < |given| ::
      loaded[i].key == given[i].key && loaded[i].isProtected == given[i].isProtected
      && (!given[i].isProtected ==> loaded[i].val == given[i].val)
    ensures Unprotected(Applied(given)) == Unprotected(Applied(loaded))
  {
    var a, b := Unprotected(Applied(given)), Unprotected(Applied(loaded));
    forall key ensures (key in a <==> key in b) && (key in a ==> a[key] == b[key]) {
      StoredParams(given, key);
      StoredParams(loaded, key);
      assert forall i: nat :: IsLast(given, i) <==> IsLast(loaded, i);
    }
  }
}
