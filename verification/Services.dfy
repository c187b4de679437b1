/**
 Verifying one service of an account: plugin check, saved secrets, authentication, storing the tokens,
 custom write. The functions say what a run does; the class does it step by step.
 */
module Services {
  import opened Base
  import opened Secrets
  import opened Plugins
  import opened Accounts

  type DualPassword = (SecretItem, string) -> string

  // ---------------------------------------------------------------- verified parameters

  /** The value a protected parameter without a value takes from the secrets saved for the account. */
  function SavedValue(dual: DualPassword, found: seq<SecretItem>, name: string, key: string): string {
    if found == [] then ""
    else
      var item := found[|found| - 1];
      var before := SavedValue(dual, found[..|found| - 1], name, key);
      if "service" !in item.attributes || item.attributes["service"] != name then before
      else if Get(item.attributes, "schema") == "dual_password" then dual(item, key)
      else if Get(item.attributes, "schema") == "password" then Get(item.secrets, "password")
      else before
  }

  function LoadParam(dual: DualPassword, found: seq<SecretItem>, name: string, p: ServiceParam): ServiceParam {
    if p.isProtected && p.val == "" then p.(val := SavedValue(dual, found, name, p.key)) else p
  }

  function LoadParams(dual: DualPassword, found: seq<SecretItem>, name: string,
                      params: seq<ServiceParam>): seq<ServiceParam> {
    if params == [] then []
    else
      LoadParams(dual, found, name, params[..|params| - 1]) + [LoadParam(dual, found, name, params[|params| - 1])]
  }

  /** The service after its verified parameters were taken over one by one. */
  function Applied(params: seq<ServiceParam>): Service {
    if params == [] then Service(map[], map[], map[], true)
    else
      var p := params[|params| - 1];
      var s := Applied(params[..|params| - 1]);
      s.(params := s.params[p.key := p.val],
         required := s.required[p.key := p.isRequired],
         guarded := s.guarded[p.key := p.isProtected])
  }

  // ---------------------------------------------------------------- tokens

  predicate HasSchema(t: Token) {
    "schema" in t.attributes
  }

  predicate Merged(t: Token) {
    Get(t.attributes, "schema") == "oauth2" || Get(t.attributes, "schema") == "dual_password"
  }

  /** The key of the item a token goes to: tokens of the merged schemas share one. */
  function ItemKey(t: Token): string {
    if Merged(t) then Get(t.attributes, "schema") else t.caption
  }

  /** The key of the token's secret inside its item. */
  function SecretKey(t: Token): string {
    if Merged(t) then t.caption else "password"
  }

  function Attributes(before: StrMap, id: Uuid, name: string, others: StrMap): StrMap {
    before["service" := name]["account_id" := id]["schema" := Get(before, "schema")] + others
  }

  function ItemAt(dict: map<string, SecretItem>, key: string): SecretItem {
    if key in dict then dict[key] else SecretItem("", map[], map[])
  }

  function WithToken(item: SecretItem, id: Uuid, title: string, name: string, t: Token): SecretItem {
    SecretItem(
      title + "->" + name + " [" + Get(t.attributes, "schema") + "]",
      item.secrets[SecretKey(t) := t.secret],
      Attributes(item.attributes, id, name, t.attributes))
  }

  /** The items made of an authentication's tokens; a token without a schema is dropped. */
  function Grouped(id: Uuid, title: string, name: string, tokens: seq<Token>): map<string, SecretItem> {
    if tokens == [] then map[]
    else
      var t := tokens[|tokens| - 1];
      var before := Grouped(id, title, name, tokens[..|tokens| - 1]);
      if HasSchema(t) then before[ItemKey(t) := WithToken(ItemAt(before, ItemKey(t)), id, title, name, t)] else before
  }

  datatype StoreRun = StoreRun(ok: bool, items: seq<SecretItem>)

  /** Store the items under the given keys in turn, up to the first that is refused. */
  function SaveItems(items: seq<SecretItem>, dict: map<string, SecretItem>, keys: seq<string>): StoreRun
    requires forall k | k in keys :: k in dict
  {
    if keys == [] then StoreRun(true, items)
    else
      var n := |keys| - 1;
      var r := SaveItems(items, dict, keys[..n]);
      if !r.ok then r
      else if Accepts(dict[keys[n]]) then StoreRun(true, r.items + [dict[keys[n]]])
      else StoreRun(false, r.items)
  }

  ghost function SaveTokens(items: seq<SecretItem>, id: Uuid, title: string, name: string,
                            tokens: seq<Token>): StoreRun {
    var dict := Grouped(id, title, name, tokens);
    SaveItems(items, dict, Sorted(dict.Keys))
  }

  // ---------------------------------------------------------------- one verification

  datatype ServiceRun = ServiceRun(ok: bool, service: Service, items: seq<SecretItem>, vault: Vault)

  /** The plugin's answer with saved secrets filled in; None if the parameters are not accepted. */
  function VerifiedParams(plugin: Plugin, dual: DualPassword, id: Uuid, name: string, params: StrMap,
                          items: seq<SecretItem>)
    : Option<VerifyResult>
  {
    var v := plugin.verify(params);
    if !v.verified then None
    else Some(v.(params := LoadParams(dual, Found(items, AccountQuery(id)), name, v.params)))
  }

  /** What is stored for a service whose custom write answered with an id. */
  function Reference(pluginId: string): Service {
    Service(map[PLUGIN_ID := pluginId], map[], map[], true)
  }

  ghost function VerifyService(
    plugin: Option<Plugin>, dual: DualPassword, id: Uuid, title: string, name: string,
    service: Service, items: seq<SecretItem>, vault: Vault): ServiceRun
  {
    if plugin.None? then ServiceRun(false, service, items, vault) else
    var p := plugin.value;
    var v := VerifiedParams(p, dual, id, name, service.params, items);
    if v.None? then ServiceRun(false, service, items, vault) else
    var applied := Applied(v.value.params);
    var a := p.authenticate(v.value.params);
    if !a.authenticated then ServiceRun(false, applied, items, vault) else
    var saved := SaveTokens(items, id, title, name, a.tokens);
    if !saved.ok then ServiceRun(false, applied, saved.items, vault) else
    var (vault', pluginId) := WriteEntry(vault, name, p, v.value, a);
    ServiceRun(true, if pluginId.Some? then Reference(pluginId.value) else applied, saved.items, vault')
  }

  /** The parameters a custom read gives; without a reference, or if the plugin cannot read it, none. */
  function CustomParams(plugin: Plugin, vault: Vault, name: string, service: Service): Option<StrMap> {
    if PLUGIN_ID !in service.params then None
    else plugin.read(service.params[PLUGIN_ID], EntryOf(vault, name, service.params[PLUGIN_ID]))
  }

  function CustomRead(plugin: Plugin, vault: Vault, name: string, service: Service): Service {
    match CustomParams(plugin, vault, name, service)
    case None => service
    case Some(params) => Service(params, map[], map[], service.verified)
  }

  datatype RemovalRun = RemovalRun(ok: bool, vault: Vault)

  /** A plugin that throws, or has no removal, does not stop the deletion of an account. */
  function CustomRemoval(plugin: Plugin, vault: Vault, name: string, service: Service): RemovalRun {
    if PLUGIN_ID !in service.params then RemovalRun(true, vault)
    else
      var (vault', outcome) := RemoveEntry(vault, name, plugin, service.params[PLUGIN_ID]);
      RemovalRun(outcome != Returns(false), vault')
  }

  class AccountService {
    var params: StrMap
    var required: map<string, bool>
    var guarded: map<string, bool>
    var verified: bool
    var name: string
    var plugin: Option<Plugin>

    function Value(): Service
      reads this
    {
      Service(params, required, guarded, verified)
    }

    constructor ()
      ensures Value() == Plain(map[]) && plugin.None?
    {
      params, required, guarded, verified := map[], map[], map[], false;
      name, plugin := "", None;
    }

    method Init(name: string, plugins: PluginManager) returns (ok: bool)
      requires plugins.Valid()
      modifies this
      ensures this.name == name && Value() == old(Value())
      ensures plugin == if name in plugins.plugins then Some(plugins.plugins[name]) else None
      ensures ok == (name in plugins.plugins)
    {
      this.name := name;
      plugin := plugins.Lookup(name);
      ok := plugin.Some?;
    }

    method ClearService()
      modifies this
      ensures Value() == Service(map[], map[], map[], old(verified))
      ensures name == old(name) && plugin == old(plugin)
    {
      params, guarded, required := map[], map[], map[];
    }

    method ApplyVerification(list: seq<ServiceParam>)
      modifies this
      ensures Value() == Applied(list)
      ensures name == old(name) && plugin == old(plugin)
    {
      verified := false;
      ClearService();
      for i := 0 to |list|
        invariant Value() == Applied(list[..i]).(verified := false)
        invariant name == old(name) && plugin == old(plugin)
      {
        assert list[..i + 1][..i] == list[..i];
        var p := list[i];
        params := params[p.key := p.val];
        required := required[p.key := p.isRequired];
        guarded := guarded[p.key := p.isProtected];
      }
      assert list[..|list|] == list;
      AppliedVerified(list);
      verified := true;
    }

    method LoadSavedValue(dual: DualPassword, found: seq<SecretItem>, key: string) returns (val: string)
      ensures val == SavedValue(dual, found, name, key)
    {
      val := "";
      for i := 0 to |found|
        invariant val == SavedValue(dual, found[..i], name, key)
      {
        assert found[..i + 1][..i] == found[..i];
        var item := found[i];
        if "service" in item.attributes && item.attributes["service"] == name {
          if Get(item.attributes, "schema") == "dual_password" {
            val := dual(item, key);
          } else if Get(item.attributes, "schema") == "password" {
            val := Get(item.secrets, "password");
          }
        }
      }
      assert found[..|found|] == found;
    }

    method LoadSavedParams(dual: DualPassword, found: seq<SecretItem>, list: seq<ServiceParam>)
      returns (loaded: seq<ServiceParam>)
      ensures loaded == LoadParams(dual, found, name, list)
    {
      loaded := [];
      for i := 0 to |list|
        invariant loaded == LoadParams(dual, found, name, list[..i])
      {
        assert list[..i + 1][..i] == list[..i];
        var p := list[i];
        if p.isProtected && p.val == "" {
          var val := LoadSavedValue(dual, found, p.key);
          p := p.(val := val);
        }
        loaded := loaded + [p];
      }
      assert list[..|list|] == list;
    }

    method VerifyParams(id: Uuid, secrets: SecretManager) returns (r: Option<VerifyResult>)
      modifies this
      ensures name == old(name) && plugin == old(plugin)
      ensures old(plugin).None? ==> r.None?
      ensures old(plugin).Some? ==>
        r == VerifiedParams(old(plugin).value, secrets.dualPassword, id, name, old(params), secrets.items)
      ensures Value() == if r.Some? then Applied(r.value.params) else old(Value())
    {
      if plugin.None? {
        return None;
      }
      var v := plugin.value.verify(params);
      if !v.verified {
        return None;
      }
      var found := secrets.GetAccountSecrets(id);
      var loaded := LoadSavedParams(secrets.dualPassword, found, v.params);
      ApplyVerification(loaded);
      return Some(v.(params := loaded));
    }

    method UpdateAttributes(before: StrMap, id: Uuid, others: StrMap) returns (attributes: StrMap)
      ensures attributes == Attributes(before, id, name, others)
    {
      attributes := before["service" := name];
      attributes := attributes["account_id" := id];
      attributes := attributes["schema" := Get(before, "schema")];
      attributes := AssignAll(attributes, others);
    }

    static method AssignAll(base: StrMap, others: StrMap) returns (m: StrMap)
      ensures m == base + others
    {
      m := base;
      var keys := KeysOf(others.Keys);
      for i := 0 to |keys|
        invariant m == Overlaid(base, others, keys[..i])
      {
        assert keys[i] in keys && keys[..i + 1][..i] == keys[..i];
        m := m[keys[i] := others[keys[i]]];
      }
      assert keys[..|keys|] == keys;
      OverlaidAll(base, others, keys);
    }

    method GroupTokens(id: Uuid, title: string, tokens: seq<Token>) returns (dict: map<string, SecretItem>)
      ensures dict == Grouped(id, title, name, tokens)
    {
      dict := map[];
      for i := 0 to |tokens|
        invariant dict == Grouped(id, title, name, tokens[..i])
      {
        assert tokens[..i + 1][..i] == tokens[..i];
        var token := tokens[i];
        if "schema" in token.attributes {
          var key := token.caption;
          var schema := token.attributes["schema"];
          var secretKey := "password";
          if schema == "oauth2" || schema == "dual_password" {
            secretKey := token.caption;
            key := schema;
          }
          var item := ItemAt(dict, key);
          var attributes := UpdateAttributes(item.attributes, id, token.attributes);
          dict := dict[key := SecretItem(
            title + "->" + name + " [" + schema + "]", item.secrets[secretKey := token.secret], attributes)];
        }
      }
      assert tokens[..|tokens|] == tokens;
    }

    method SaveProtectedParams(id: Uuid, title: string, tokens: seq<Token>, secrets: SecretManager) returns (ok: bool)
      modifies secrets
      ensures StoreRun(ok, secrets.items) == SaveTokens(old(secrets.items), id, title, name, tokens)
    {
      var dict := GroupTokens(id, title, tokens);
      var keys := KeysOf(dict.Keys);
      ok := SaveInOrder(dict, keys, secrets);
    }

    static method SaveInOrder(dict: map<string, SecretItem>, keys: seq<string>, secrets: SecretManager)
      returns (ok: bool)
      requires forall k | k in keys :: k in dict
      modifies secrets
      ensures StoreRun(ok, secrets.items) == SaveItems(old(secrets.items), dict, keys)
    {
      for i := 0 to |keys|
        invariant SaveItems(old(secrets.items), dict, keys[..i]) == StoreRun(true, secrets.items)
      {
        assert keys[..i + 1][..i] == keys[..i];
        var stored := secrets.SetSecret(dict[keys[i]]);
        if !stored {
          SaveItemsStops(old(secrets.items), dict, keys, i + 1);
          return false;
        }
      }
      assert keys[..|keys|] == keys;
      return true;
    }

    method Verify(id: Uuid, title: string, secrets: SecretManager, store: PluginStore) returns (ok: bool)
      modifies this, secrets, store
      ensures ServiceRun(ok, Value(), secrets.items, store.entries)
           == VerifyService(old(plugin), secrets.dualPassword, id, title, old(name), old(Value()), old(secrets.items),
               old(store.entries))
      ensures name == old(name) && plugin == old(plugin)
    {
      var v := VerifyParams(id, secrets);
      if v.None? {
        return false;
      }
      var a := plugin.value.authenticate(v.value.params);
      if !a.authenticated {
        return false;
      }
      var saved := SaveProtectedParams(id, title, a.tokens, secrets);
      if !saved {
        return false;
      }
      var pluginId := store.Write(name, plugin.value, v.value, a);
      if pluginId.Some? {
        AppliedVerified(v.value.params);
        ClearService();
        params := params[PLUGIN_ID := pluginId.value];
      }
      return true;
    }

    /** Asks the secret service to forget this service's secrets; refused while the account has no id. */
    method RemoveSecrets(id: Uuid, secrets: SecretManager) returns (ok: bool)
      modifies secrets
      ensures ok == (id != NIL_ID)
      ensures secrets.items == if ok then Without(old(secrets.items), ServiceQuery(id, name)) else old(secrets.items)
    {
      if id == NIL_ID {
        return false;
      }
      secrets.RemoveService(id, name);
      return true;
    }

    method PerformCustomRead(store: PluginStore) returns (ok: bool)
      requires plugin.Some?
      modifies this
      ensures Value() == CustomRead(old(plugin).value, store.entries, name, old(Value()))
      ensures ok == CustomParams(old(plugin).value, store.entries, name, old(Value())).Some?
      ensures name == old(name) && plugin == old(plugin)
    {
      if PLUGIN_ID !in params {
        return false;
      }
      var read := store.Read(name, plugin.value, params[PLUGIN_ID]);
      if read.None? {
        return false;
      }
      ClearService();
      params := read.value;
      return true;
    }

    method PerformServiceCustomRemoval(store: PluginStore) returns (ok: bool)
      requires plugin.Some?
      modifies store
      ensures RemovalRun(ok, store.entries) == CustomRemoval(plugin.value, old(store.entries), name, Value())
    {
      if PLUGIN_ID !in params {
        return true;
      }
      var outcome := store.Remove(name, plugin.value, params[PLUGIN_ID]);
      ok := outcome != Returns(false);
    }
  }

  lemma {:induction false} AppliedVerified(list: seq<ServiceParam>)
    ensures Applied(list).verified
  {
    if list != [] {
      AppliedVerified(list[..|list| - 1]);
    }
  }

  lemma {:induction false} SaveItemsStops(items: seq<SecretItem>, dict: map<string, SecretItem>, keys: seq<string>,
                                          n: nat)
    requires forall k | k in keys :: k in dict
    requires n <= |keys| && !SaveItems(items, dict, keys[..n]).ok
    ensures SaveItems(items, dict, keys) == SaveItems(items, dict, keys[..n])
  {
    if n == |keys| {
      assert keys[..n] == keys;
    } else {
      var m := |keys| - 1;
      assert keys[..m][..n] == keys[..n];
      SaveItemsStops(items, dict, keys[..m], n);
    }
  }
}
