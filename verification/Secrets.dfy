/**
 The secret store. `SecretManager` stands for the client together with the remote service, whose
 behaviour is that of the simulator the repository tests against.
 */
module Secrets {
  import opened Base

  datatype SecretItem = SecretItem(caption: string, secrets: StrMap, attributes: StrMap)

  const REQUIRED_ATTRIBUTES: seq<string> := ["service", "username", "account_id", "schema"]

  function SchemaKeys(schema: string): seq<string> {
    if schema == "password" then ["password"]
    else if schema == "dual_password" then ["user_password", "service_password"]
    else if schema == "oauth2" then ["client_id", "secret_id", "access_token", "refresh_token"]
    else []
  }

  predicate Has(m: StrMap, keys: seq<string>) {
    forall i | 0 <= i < |keys| :: keys[i] in m
  }

  /** The service stores an item only if it has every known attribute and every key of its schema. */
  predicate Accepts(item: SecretItem) {
    Has(item.attributes, REQUIRED_ATTRIBUTES) && Has(item.secrets, SchemaKeys(Get(item.attributes, "schema")))
  }

  predicate Matches(item: SecretItem, query: StrMap) {
    forall k | k in query :: k in item.attributes && item.attributes[k] == query[k]
  }

  /** The client has a class for three schemas and drops every other item it receives. */
  predicate Known(item: SecretItem) {
    Get(item.attributes, "schema") in ["password", "dual_password", "oauth2"]
  }

  function AccountQuery(id: Uuid): StrMap {
    map["account_id" := id]
  }

  function ServiceQuery(id: Uuid, service: string): StrMap {
    map["account_id" := id, "service" := service]
  }

  predicate Owned(item: SecretItem, id: Uuid, service: string) {
    Matches(item, ServiceQuery(id, service))
  }

  /** The items a search reports, in store order. */
  function Found(items: seq<SecretItem>, query: StrMap): seq<SecretItem> {
    if items == [] then []
    else
      var n := |items| - 1;
      Found(items[..n], query) + if Matches(items[n], query) && Known(items[n]) then [items[n]] else []
  }

  /** The items a deletion leaves, in store order. */
  function Without(items: seq<SecretItem>, query: StrMap): seq<SecretItem> {
    if items == [] then []
    else
      var n := |items| - 1;
      Without(items[..n], query) + if Matches(items[n], query) then [] else [items[n]]
  }

  /** One deletion per service name. */
  function WithoutServices(items: seq<SecretItem>, id: Uuid, names: seq<string>): seq<SecretItem> {
    if names == [] then items
    else
      var n := |names| - 1;
      Without(WithoutServices(items, id, names[..n]), ServiceQuery(id, names[n]))
  }

  class SecretManager {
    /** How a dual-password item answers for a parameter. */
    const dualPassword: (SecretItem, string) -> string

    var items: seq<SecretItem>

    constructor (dualPassword: (SecretItem, string) -> string)
      ensures items == [] && this.dualPassword == dualPassword
    {
      this.dualPassword := dualPassword;
      items := [];
    }

    method HasAll(m: StrMap, keys: seq<string>) returns (ok: bool)
      ensures ok == Has(m, keys)
    {
      for i := 0 to |keys|
        invariant forall j | 0 <= j < i :: keys[j] in m
      {
        if keys[i] !in m {
          return false;
        }
      }
      return true;
    }

    method SetSecret(item: SecretItem) returns (ok: bool)
      modifies this
      ensures ok == Accepts(item)
      ensures items == if ok then old(items) + [item] else old(items)
    {
      var attributesOk := HasAll(item.attributes, REQUIRED_ATTRIBUTES);
      if !attributesOk {
        return false;
      }
      var secretsOk := HasAll(item.secrets, SchemaKeys(Get(item.attributes, "schema")));
      if !secretsOk {
        return false;
      }
      items := items + [item];
      return true;
    }

    method Search(query: StrMap) returns (found: seq<SecretItem>)
      ensures found == Found(items, query)
    {
      found := [];
      for i := 0 to |items|
        invariant found == Found(items[..i], query)
      {
        assert items[..i + 1][..i] == items[..i];
        if Matches(items[i], query) && Known(items[i]) {
          found := found + [items[i]];
        }
      }
      assert items[..|items|] == items;
    }

    /** Erases in place: the position advances exactly when nothing was erased there. */
    method DeleteSecret(query: StrMap)
      modifies this
      ensures items == Without(old(items), query)
    {
      ghost var was, seen := items, 0;
      var it := 0;
      while it < |items|
        invariant seen <= |was| && it == |Without(was[..seen], query)|
        invariant items == Without(was[..seen], query) + was[seen..]
        decreases |items| - it
      {
        DeletionTurn(was, seen, query, items, it);
        if Matches(items[it], query) {
          items := items[..it] + items[it + 1..];
        } else {
          it := it + 1;
        }
        seen := seen + 1;
      }
      assert was[..seen] == was;
    }

    method GetAccountSecrets(id: Uuid) returns (found: seq<SecretItem>)
      ensures found == Found(items, AccountQuery(id))
    {
      found := Search(AccountQuery(id));
    }

    method RemoveService(id: Uuid, service: string)
      modifies this
      ensures items == Without(old(items), ServiceQuery(id, service))
    {
      DeleteSecret(ServiceQuery(id, service));
    }

    method RemoveAccount(id: Uuid)
      modifies this
      ensures items == Without(old(items), AccountQuery(id))
    {
      DeleteSecret(AccountQuery(id));
    }
  }

  // ---------------------------------------------------------------- laws of deletion and search

  lemma WithoutTurn(items: seq<SecretItem>, n: nat, query: StrMap)
    requires n < |items|
    ensures Without(items[..n + 1], query)
         == Without(items[..n], query) + if Matches(items[n], query) then [] else [items[n]]
  {
    assert items[..n + 1][..n] == items[..n];
  }

  /** Both arms of one turn of the deletion loop, which has `n` items of `was` behind it. */
  lemma DeletionTurn(was: seq<SecretItem>, n: nat, query: StrMap, now: seq<SecretItem>, it: nat)
    requires n < |was| && it == |Without(was[..n], query)|
    requires now == Without(was[..n], query) + was[n..]
    ensures it < |now| && now[it] == was[n]
    ensures Matches(now[it], query) ==>
      now[..it] + now[it + 1..] == Without(was[..n + 1], query) + was[n + 1..] && it == |Without(was[..n + 1], query)|
    ensures !Matches(now[it], query) ==>
      now == Without(was[..n + 1], query) + was[n + 1..] && it + 1 == |Without(was[..n + 1], query)|
  {
    WithoutTurn(was, n, query);
    var done := Without(was[..n], query);
    assert was[n..] == [was[n]] + was[n + 1..];
    assert now == done + [was[n]] + was[n + 1..];
  }

  lemma {:induction false} WithoutAppend(a: seq<SecretItem>, b: seq<SecretItem>, query: StrMap)
    ensures Without(a + b, query) == Without(a, query) + Without(b, query)
  {
    if b == [] {
      assert a + b == a;
    } else {
      var n := |b| - 1;
      assert (a + b)[..|a| + n] == a + b[..n];
      WithoutAppend(a, b[..n], query);
    }
  }

  lemma {:induction false} WithoutNone(items: seq<SecretItem>, query: StrMap)
    requires forall item | item in items :: !Matches(item, query)
    ensures Without(items, query) == items
  {
    if items != [] {
      WithoutNone(items[..|items| - 1], query);
    }
  }

  lemma {:induction false} WithoutAll(items: seq<SecretItem>, query: StrMap)
    requires forall item | item in items :: Matches(item, query)
    ensures Without(items, query) == []
  {
    if items != [] {
      WithoutAll(items[..|items| - 1], query);
    }
  }

  lemma {:induction false} WithoutMembers(items: seq<SecretItem>, query: StrMap)
    ensures forall item :: item in Without(items, query) <==> item in items && !Matches(item, query)
  {
    if items != [] {
      WithoutMembers(items[..|items| - 1], query);
    }
  }

  lemma {:induction false} FoundMembers(items: seq<SecretItem>, query: StrMap)
    ensures forall item :: item in Found(items, query) <==> item in items && Matches(item, query) && Known(item)
  {
    if items != [] {
      FoundMembers(items[..|items| - 1], query);
    }
  }

  predicate Reported(item: SecretItem, query: StrMap) {
    Matches(item, query) && Known(item)
  }

  lemma FoundSnoc(items: seq<SecretItem>, item: SecretItem, query: StrMap)
    ensures Found(items + [item], query) == Found(items, query) + if Reported(item, query) then [item] else []
  {
    assert (items + [item])[..|items|] == items;
  }

  lemma Regroup<T>(a: seq<T>, b: seq<T>)
    requires b != []
    ensures a + b == (a + b[..|b| - 1]) + [b[|b| - 1]]
  {
  }

  /** A search reports what it finds in the one part of the store, then what it finds in the other. */
  lemma {:induction false} FoundAppend(a: seq<SecretItem>, b: seq<SecretItem>, query: StrMap)
    ensures Found(a + b, query) == Found(a, query) + Found(b, query)
  {
    if b == [] {
      assert a + b == a;
    } else {
      var front, last := b[..|b| - 1], b[|b| - 1];
      Regroup(a, b);
      LastApart(b);
      FoundAppend(a, front, query);
      FoundSnoc(a + front, last, query);
      FoundSnoc(front, last, query);
    }
  }

  /** Of a single item it reports that item, iff it matches and its schema is known. */
  lemma FoundOne(item: SecretItem, query: StrMap)
    ensures Found([item], query) == if Reported(item, query) then [item] else []
  {
    FoundSnoc([], item, query);
    assert [] + [item] == [item];
  }

  /** A search after a deletion by the same attributes finds nothing. */
  lemma FoundAfterWithout(items: seq<SecretItem>, query: StrMap)
    ensures Found(Without(items, query), query) == []
  {
    var found := Found(Without(items, query), query);
    if found != [] { assert found[0] in found; }
    WithoutMembers(items, query);
    FoundMembers(Without(items, query), query);
  }

  /** An item that belongs to the account and to one of the named services. */
  predicate InServices(item: SecretItem, id: Uuid, names: seq<string>) {
    exists i | 0 <= i < |names| :: Owned(item, id, names[i])
  }

  function Retained(items: seq<SecretItem>, id: Uuid, names: seq<string>): seq<SecretItem> {
    if items == [] then []
    else
      var n := |items| - 1;
      Retained(items[..n], id, names) + if InServices(items[n], id, names) then [] else [items[n]]
  }

  lemma {:induction false} RetainedStep(items: seq<SecretItem>, id: Uuid, names: seq<string>)
    requires names != []
    ensures Without(Retained(items, id, names[..|names| - 1]), ServiceQuery(id, names[|names| - 1]))
         == Retained(items, id, names)
  {
    if items != [] {
      var n, m := |items| - 1, |names| - 1;
      RetainedStep(items[..n], id, names);
      var front := names[..m];
      assert InServices(items[n], id, names) <==> InServices(items[n], id, front) || Owned(items[n], id, names[m]) by {
        if InServices(items[n], id, front) {
          var i :| 0 <= i < m && Owned(items[n], id, front[i]);
          assert names[i] == front[i];
        }
        if InServices(items[n], id, names) {
          var i :| 0 <= i < |names| && Owned(items[n], id, names[i]);
          if i < m { assert front[i] == names[i]; }
        }
      }
      var kept := Retained(items[..n], id, front);
      if InServices(items[n], id, front) {
        assert Retained(items, id, front) == kept;
      } else {
        WithoutAppend(kept, [items[n]], ServiceQuery(id, names[m]));
        WithoutSingle(items[n], ServiceQuery(id, names[m]));
      }
    }
  }

  lemma WithoutSingle(item: SecretItem, query: StrMap)
    ensures Without([item], query) == if Matches(item, query) then [] else [item]
  {
    assert [item][..0] == [];
  }

  lemma {:induction false} RetainedAll(items: seq<SecretItem>, id: Uuid)
    ensures Retained(items, id, []) == items
  {
    if items != [] {
      RetainedAll(items[..|items| - 1], id);
    }
  }

  /** Deleting service by service keeps, in order, exactly the items of no named service of the account. */
  lemma {:induction false} WithoutServicesIsRetained(items: seq<SecretItem>, id: Uuid, names: seq<string>)
    ensures WithoutServices(items, id, names) == Retained(items, id, names)
  {
    if names == [] {
      RetainedAll(items, id);
    } else {
      WithoutServicesIsRetained(items, id, names[..|names| - 1]);
      RetainedStep(items, id, names);
    }
  }

  lemma {:induction false} RetainedMembers(items: seq<SecretItem>, id: Uuid, names: seq<string>)
    ensures forall item :: item in Retained(items, id, names) <==> item in items && !InServices(item, id, names)
  {
    if items != [] {
      RetainedMembers(items[..|items| - 1], id, names);
    }
  }

  /** Items of the named services added at the end are taken out again, and nothing else is. */
  lemma {:induction false} RetainedUndoesAppend(items: seq<SecretItem>, added: seq<SecretItem>, id: Uuid,
                                                names: seq<string>)
    requires forall item | item in added :: InServices(item, id, names)
    ensures Retained(items + added, id, names) == Retained(items, id, names)
  {
    if added == [] {
      assert items + added == items;
    } else {
      var n := |added| - 1;
      assert (items + added)[..|items| + n] == items + added[..n];
      RetainedUndoesAppend(items, added[..n], id, names);
    }
  }

  // ---------------------------------------------------------------- what the service accepts and reports

  /** The three schemas the client knows. */
  lemma KnownSchemas(item: SecretItem)
    ensures Known(item) <==>
      && "schema" in item.attributes
      && (item.attributes["schema"] == "password" || item.attributes["schema"] == "dual_password"
          || item.attributes["schema"] == "oauth2")
  {
    var schemas := ["password", "dual_password", "oauth2"];
    assert schemas[0] == "password" && schemas[1] == "dual_password" && schemas[2] == "oauth2";
  }

  /** The keys without which the service refuses an item of the schema; other schemas have none. */
  lemma AcceptsIff(item: SecretItem)
    ensures Accepts(item) <==>
      && "service" in item.attributes && "username" in item.attributes
      && "account_id" in item.attributes && "schema" in item.attributes
      && (item.attributes["schema"] == "password" ==> "password" in item.secrets)
      && (item.attributes["schema"] == "dual_password" ==>
            "user_password" in item.secrets && "service_password" in item.secrets)
      && (item.attributes["schema"] == "oauth2" ==>
            "client_id" in item.secrets && "secret_id" in item.secrets
            && "access_token" in item.secrets && "refresh_token" in item.secrets)
  {
    var r := REQUIRED_ATTRIBUTES;
    assert r[0] == "service" && r[1] == "username" && r[2] == "account_id" && r[3] == "schema";
    var keys := SchemaKeys(Get(item.attributes, "schema"));
    assert Get(item.attributes, "schema") == "password" ==> keys[0] == "password";
    assert Get(item.attributes, "schema") == "dual_password" ==>
        keys[0] == "user_password" && keys[1] == "service_password";
    assert Get(item.attributes, "schema") == "oauth2" ==>
        keys[0] == "client_id" && keys[1] == "secret_id" && keys[2] == "access_token" && keys[3] == "refresh_token";
  }

  // ---------------------------------------------------------------- whose items they are

  predicate Belongs(item: SecretItem, id: Uuid) {
    Matches(item, AccountQuery(id))
  }

  lemma BelongsMeaning(item: SecretItem, id: Uuid)
    ensures Belongs(item, id) <==> "account_id" in item.attributes && item.attributes["account_id"] == id
  {
    assert AccountQuery(id)["account_id"] == id;
  }

  lemma OwnedMeaning(item: SecretItem, id: Uuid, service: string)
    ensures Owned(item, id, service) <==>
            Belongs(item, id) && "service" in item.attributes && item.attributes["service"] == service
  {
    BelongsMeaning(item, id);
    var q := ServiceQuery(id, service);
    assert q["account_id"] == id && q["service"] == service;
  }

  lemma InServicesBelongs(item: SecretItem, id: Uuid, names: seq<string>)
    requires InServices(item, id, names)
    ensures Belongs(item, id) && "service" in item.attributes && item.attributes["service"] in names
  {
    var i :| 0 <= i < |names| && Owned(item, id, names[i]);
    OwnedMeaning(item, id, names[i]);
  }

  lemma {:induction false} RetainedOthers(items: seq<SecretItem>, id: Uuid, names: seq<string>)
    requires forall k | 0 <= k < |items| :: !Belongs(items[k], id)
    ensures Retained(items, id, names) == items
  {
    if items != [] {
      var n := |items| - 1;
      RetainedOthers(items[..n], id, names);
      if InServices(items[n], id, names) {
        InServicesBelongs(items[n], id, names);
      }
    }
  }

  // ---------------------------------------------------------------- the simulator's loop as written

  /** One turn of the simulator's delete loop, whose iterator moves only when it erases. */
  function EraseOnlyTurn(items: seq<SecretItem>, query: StrMap): seq<SecretItem> {
    if items != [] && Matches(items[0], query) then items[1..] else items
  }

  function EraseOnlyTurns(items: seq<SecretItem>, query: StrMap, n: nat): seq<SecretItem> {
    if n == 0 then items else EraseOnlyTurns(EraseOnlyTurn(items, query), query, n - 1)
  }

  lemma {:induction false} EraseOnlyStuck(items: seq<SecretItem>, query: StrMap, n: nat)
    requires EraseOnlyTurns(items, query, n) == []
    ensures forall item | item in items :: Matches(item, query)
    decreases n
  {
    if n > 0 && items != [] {
      EraseOnlyStuck(EraseOnlyTurn(items, query), query, n - 1);
      assert items == [items[0]] + items[1..];
    }
  }

  lemma {:induction false} EraseOnlyDrains(items: seq<SecretItem>, query: StrMap)
    requires forall item | item in items :: Matches(item, query)
    ensures EraseOnlyTurns(items, query, |items|) == []
  {
    if items != [] {
      EraseOnlyDrains(items[1..], query);
    }
  }

  /** The loop as written leaves the store's end reachable exactly when every stored item matches. */
  lemma EraseOnlyTerminates(items: seq<SecretItem>, query: StrMap)
    ensures (exists n: nat :: EraseOnlyTurns(items, query, n) == [])
         <==> forall item | item in items :: Matches(item, query)
  {
    if forall item | item in items :: Matches(item, query) {
      EraseOnlyDrains(items, query);
    }
    if n: nat :| EraseOnlyTurns(items, query, n) == [] {
      EraseOnlyStuck(items, query, n);
    }
  }
}
