/** From the tokens of an authentication to the stored items: nothing is lost, nothing is made up. */
module TokenLaws {
  import opened Base
  import opened Secrets
  import opened Plugins
  import opened Services

  predicate Labelled(t: Token) {
    "schema" in t.attributes
  }

  /**
   The item a token's secret goes to, and its key there. All tokens of an oauth2 or dual_password schema go to
   one item of that schema, under their own captions; any other token is the password of its own item.
   */
  function Place(t: Token): (string, string)
    requires Labelled(t)
  {
    var schema := t.attributes["schema"];
    if schema == "oauth2" || schema == "dual_password" then (schema, t.caption) else (t.caption, "password")
  }

  /** No later token writes the same secret of the same item. */
  predicate Wins(tokens: seq<Token>, i: nat) {
    && i < |tokens| && Labelled(tokens[i])
    && forall j | i < j < |tokens| && Labelled(tokens[j]) :: Place(tokens[j]) != Place(tokens[i])
  }

  /** No later token goes to the same item. */
  predicate Closes(tokens: seq<Token>, i: nat) {
    && i < |tokens| && Labelled(tokens[i])
    && forall j | i < j < |tokens| && Labelled(tokens[j]) :: Place(tokens[j]).0 != Place(tokens[i]).0
  }

  /** The winning token's secret is stored at its place. */
  lemma {:induction false} WinnerIsStored(id: Uuid, title: string, name: string, tokens: seq<Token>, i: nat)
    requires Wins(tokens, i)
    ensures
      var dict := Grouped(id, title, name, tokens);
      && Place(tokens[i]).0 in dict && Place(tokens[i]).1 in dict[Place(tokens[i]).0].secrets
      && dict[Place(tokens[i]).0].secrets[Place(tokens[i]).1] == tokens[i].secret
  {
    var n := |tokens| - 1;
    if i < n {
      assert Wins(tokens[..n], i);
      WinnerIsStored(id, title, name, tokens[..n], i);
    }
  }

  /** Every stored secret comes from a winning token. */
  lemma {:induction false} StoredHasWinner(id: Uuid, title: string, name: string, tokens: seq<Token>, k: string,
                                           s: string) returns (i: nat)
    requires k in Grouped(id, title, name, tokens) && s in Grouped(id, title, name, tokens)[k].secrets
    ensures Wins(tokens, i) && Place(tokens[i]) == (k, s)
  {
    var n := |tokens| - 1;
    if Labelled(tokens[n]) && Place(tokens[n]) == (k, s) {
      i := n;
    } else {
      i := StoredHasWinner(id, title, name, tokens[..n], k, s);
    }
  }

  function DistinctPairs(tokens: seq<Token>): set<(string, string)> {
    set i | 0 <= i < |tokens| && Labelled(tokens[i]) :: Place(tokens[i])
  }

  function StoredPairs(dict: map<string, SecretItem>, keys: seq<string>): set<(string, string)>
    requires forall k | k in keys :: k in dict
  {
    set k, s | k in keys && s in dict[k].secrets :: (k, s)
  }

  function SecretTotal(dict: map<string, SecretItem>, keys: seq<string>): nat
    requires forall k | k in keys :: k in dict
  {
    if keys == [] then 0 else SecretTotal(dict, keys[..|keys| - 1]) + |dict[keys[|keys| - 1]].secrets|
  }

  lemma {:induction false} LastWinnerExists(tokens: seq<Token>, i: nat) returns (w: nat)
    requires i < |tokens| && Labelled(tokens[i])
    ensures Wins(tokens, w) && Place(tokens[w]) == Place(tokens[i])
    decreases |tokens| - i
  {
    if j :| i < j < |tokens| && Labelled(tokens[j]) && Place(tokens[j]) == Place(tokens[i]) {
      w := LastWinnerExists(tokens, j);
    } else {
      w := i;
    }
  }

  lemma PairsMatch(id: Uuid, title: string, name: string, tokens: seq<Token>, keys: seq<string>)
    requires Enumerates(keys, Grouped(id, title, name, tokens).Keys)
    ensures StoredPairs(Grouped(id, title, name, tokens), keys) == DistinctPairs(tokens)
  {
    var dict := Grouped(id, title, name, tokens);
    forall p | p in StoredPairs(dict, keys) ensures p in DistinctPairs(tokens) {
      var k, s :| k in keys && s in dict[k].secrets && p == (k, s);
      var i := StoredHasWinner(id, title, name, tokens, k, s);
    }
    forall p | p in DistinctPairs(tokens) ensures p in StoredPairs(dict, keys) {
      var i :| 0 <= i < |tokens| && Labelled(tokens[i]) && p == Place(tokens[i]);
      var w := LastWinnerExists(tokens, i);
      WinnerIsStored(id, title, name, tokens, w);
      assert Place(tokens[w]).0 in keys;
      assert (Place(tokens[w]).0, Place(tokens[w]).1) in StoredPairs(dict, keys);
    }
  }

  function Tagged(k: string, ss: set<string>): set<(string, string)> {
    set s | s in ss :: (k, s)
  }

  lemma {:induction false} TaggedCardinality(k: string, ss: set<string>)
    ensures |Tagged(k, ss)| == |ss|
    decreases |ss|
  {
    if ss == {} {
      assert Tagged(k, ss) == {};
    } else {
      var x :| x in ss;
      TaggedCardinality(k, ss - {x});
      assert Tagged(k, ss) == Tagged(k, ss - {x}) + {(k, x)};
    }
  }

  lemma {:induction false} TotalIsPairs(dict: map<string, SecretItem>, keys: seq<string>)
    requires forall k | k in keys :: k in dict
    requires forall i, j | 0 <= i < j < |keys| :: keys[i] != keys[j]
    ensures |StoredPairs(dict, keys)| == SecretTotal(dict, keys)
  {
    if keys == [] {
      assert StoredPairs(dict, keys) == {};
    } else {
      var n := |keys| - 1;
      TotalIsPairs(dict, keys[..n]);
      TaggedCardinality(keys[n], dict[keys[n]].secrets.Keys);
      SplitPairs(dict, keys);
    }
  }

  lemma SplitPairs(dict: map<string, SecretItem>, keys: seq<string>)
    requires keys != [] && forall k | k in keys :: k in dict
    requires forall i, j | 0 <= i < j < |keys| :: keys[i] != keys[j]
    ensures
      var n := |keys| - 1;
      |StoredPairs(dict, keys)| == |StoredPairs(dict, keys[..n])| + |Tagged(keys[n], dict[keys[n]].secrets.Keys)|
  {
    var n := |keys| - 1;
    var front, mine := StoredPairs(dict, keys[..n]), Tagged(keys[n], dict[keys[n]].secrets.Keys);
    assert keys == keys[..n] + [keys[n]];
    forall p | p in front ensures p !in mine {
      assert p.0 in keys[..n];
    }
    assert StoredPairs(dict, keys) == front + mine by {
      forall p ensures p in StoredPairs(dict, keys) <==> p in front + mine {
        assert p.0 in keys <==> p.0 in keys[..n] || p.0 == keys[n];
      }
    }
  }

  /** As many secrets are stored as there are different places the schema-bearing tokens go to. */
  lemma TokensConserved(id: Uuid, title: string, name: string, tokens: seq<Token>)
    ensures
      var dict := Grouped(id, title, name, tokens);
      SecretTotal(dict, Sorted(dict.Keys)) == |DistinctPairs(tokens)|
  {
    var dict := Grouped(id, title, name, tokens);
    PairsMatch(id, title, name, tokens, Sorted(dict.Keys));
    TotalIsPairs(dict, Sorted(dict.Keys));
  }

  // ---------------------------------------------------------------- whose items they are

  /** The token's own attributes do not send its item to another account or service. */
  predicate StaysHome(t: Token, id: Uuid, name: string) {
    && ("service" in t.attributes ==> t.attributes["service"] == name)
    && ("account_id" in t.attributes ==> t.attributes["account_id"] == id)
  }

  lemma WithTokenOwned(item: SecretItem, id: Uuid, title: string, name: string, t: Token)
    ensures Owned(WithToken(item, id, title, name, t), id, name) <==> StaysHome(t, id, name)
  {
    var a := WithToken(item, id, title, name, t).attributes;
    assert a["service"] == if "service" in t.attributes then t.attributes["service"] else name;
    assert a["account_id"] == if "account_id" in t.attributes then t.attributes["account_id"] else id;
    var q := ServiceQuery(id, name);
    assert q["service"] == name && q["account_id"] == id;
  }

  lemma {:induction false} ItemOfCloser(id: Uuid, title: string, name: string, tokens: seq<Token>, i: nat)
    requires Closes(tokens, i)
    ensures Place(tokens[i]).0 in Grouped(id, title, name, tokens)
    ensures Owned(Grouped(id, title, name, tokens)[Place(tokens[i]).0], id, name) <==> StaysHome(tokens[i], id, name)
  {
    var n := |tokens| - 1;
    if i < n {
      assert Closes(tokens[..n], i);
      ItemOfCloser(id, title, name, tokens[..n], i);
    } else {
      WithTokenOwned(ItemAt(Grouped(id, title, name, tokens[..n]), Place(tokens[n]).0), id, title, name, tokens[n]);
    }
  }

  lemma {:induction false} ItemHasCloser(id: Uuid, title: string, name: string, tokens: seq<Token>, k: string)
    returns (i: nat)
    requires k in Grouped(id, title, name, tokens)
    ensures Closes(tokens, i) && Place(tokens[i]).0 == k
  {
    var n := |tokens| - 1;
    if Labelled(tokens[n]) && Place(tokens[n]).0 == k {
      i := n;
    } else {
      i := ItemHasCloser(id, title, name, tokens[..n], k);
    }
  }

  /**
   Token attributes are written over the account id and the service. The items carry the right ones
   iff the last token of each item leaves both as they are.
   */
  lemma {:induction false} ItemsOwnedIff(id: Uuid, title: string, name: string, tokens: seq<Token>)
    ensures (forall k | k in Grouped(id, title, name, tokens) :: Owned(Grouped(id, title, name, tokens)[k], id, name))
       <==> (forall i: nat | Closes(tokens, i) :: StaysHome(tokens[i], id, name))
  {
    var dict := Grouped(id, title, name, tokens);
    forall i: nat | Closes(tokens, i)
      ensures Place(tokens[i]).0 in dict
      ensures Owned(dict[Place(tokens[i]).0], id, name) <==> StaysHome(tokens[i], id, name)
    {
      ItemOfCloser(id, title, name, tokens, i);
    }
    forall k | k in dict && (forall i: nat | Closes(tokens, i) :: StaysHome(tokens[i], id, name))
      ensures Owned(dict[k], id, name)
    {
      var i := ItemHasCloser(id, title, name, tokens, k);
    }
  }

  // ---------------------------------------------------------------- storing the items

  /** The items added to a store. */
  ghost predicate Appends(before: seq<SecretItem>, after: seq<SecretItem>, id: Uuid, names: seq<string>) {
    exists added :: after == before + added && forall item | item in added :: InServices(item, id, names)
  }

  lemma {:induction false} SaveAppends(items: seq<SecretItem>, dict: map<string, SecretItem>, keys: seq<string>)
    returns (added: seq<SecretItem>)
    requires forall k | k in keys :: k in dict
    ensures SaveItems(items, dict, keys).items == items + added
    ensures forall item | item in added :: exists k :: k in keys && dict[k] == item
    ensures SaveItems(items, dict, keys).ok ==> |added| == |keys| && forall i | 0 <= i < |keys| ::
         added[i] == dict[keys[i]]
  {
    if keys == [] {
      added := [];
    } else {
      var n := |keys| - 1;
      var front := SaveAppends(items, dict, keys[..n]);
      var r := SaveItems(items, dict, keys[..n]);
      assert keys == keys[..n] + [keys[n]];
      if r.ok && Accepts(dict[keys[n]]) {
        added := front + [dict[keys[n]]];
        forall item | item in added ensures exists k :: k in keys && dict[k] == item {
          if item != dict[keys[n]] {
            var k :| k in keys[..n] && dict[k] == item;
          }
        }
      } else {
        added := front;
        forall item | item in added ensures exists k :: k in keys && dict[k] == item {
          var k :| k in keys[..n] && dict[k] == item;
        }
      }
    }
  }

  /**
   The last token of each item keeps to the service it was asked for and names no account; what the others
   say is overwritten.
   */
  predicate CleanTokens(name: string, tokens: seq<Token>) {
    forall i: nat | i < |tokens| && Closes(tokens, i) ::
      "account_id" !in tokens[i].attributes
      && ("service" in tokens[i].attributes ==> tokens[i].attributes["service"] == name)
  }

  /** Storing clean tokens only adds items of that account and service, also when an item is refused. */
  lemma TokensAppend(items: seq<SecretItem>, id: Uuid, title: string, name: string, tokens: seq<Token>)
    requires CleanTokens(name, tokens)
    ensures Appends(items, SaveTokens(items, id, title, name, tokens).items, id, [name])
  {
    var dict := Grouped(id, title, name, tokens);
    ItemsOwnedIff(id, title, name, tokens);
    var added := SaveAppends(items, dict, Sorted(dict.Keys));
    forall item | item in added ensures InServices(item, id, [name]) {
      var k :| k in Sorted(dict.Keys) && dict[k] == item;
      assert Owned(item, id, [name][0]);
    }
  }

  // ---------------------------------------------------------------- when the items can be stored

  predicate AllAccepted(dict: map<string, SecretItem>) {
    forall k | k in dict :: Accepts(dict[k])
  }

  lemma {:induction false} SaveItemsOk(items: seq<SecretItem>, dict: map<string, SecretItem>, keys: seq<string>)
    requires forall k | k in keys :: k in dict
    ensures SaveItems(items, dict, keys).ok <==> forall k | k in keys :: Accepts(dict[k])
  {
    if keys != [] {
      var n := |keys| - 1;
      assert keys == keys[..n] + [keys[n]];
      SaveItemsOk(items, dict, keys[..n]);
    }
  }

  /** Alike but for the account they belong to. */
  predicate Alike(a: SecretItem, b: SecretItem) {
    && a.secrets == b.secrets && a.attributes.Keys == b.attributes.Keys
    && Get(a.attributes, "schema") == Get(b.attributes, "schema")
  }

  lemma AlikeWithToken(a: SecretItem, b: SecretItem, id: Uuid, id': Uuid, title: string, name: string, t: Token)
    requires Alike(a, b) && HasSchema(t)
    ensures Alike(WithToken(a, id, title, name, t), WithToken(b, id', title, name, t))
  {
    assert Attributes(a.attributes, id, name, t.attributes)["schema"] == t.attributes["schema"];
    assert Attributes(b.attributes, id', name, t.attributes)["schema"] == t.attributes["schema"];
  }

  lemma {:induction false} GroupedAlike(id: Uuid, id': Uuid, title: string, name: string, tokens: seq<Token>)
    ensures Grouped(id, title, name, tokens).Keys == Grouped(id', title, name, tokens).Keys
    ensures forall k | k in Grouped(id, title, name, tokens) ::
              Alike(Grouped(id, title, name, tokens)[k], Grouped(id', title, name, tokens)[k])
  {
    if tokens != [] {
      var n := |tokens| - 1;
      var t := tokens[n];
      GroupedAlike(id, id', title, name, tokens[..n]);
      if HasSchema(t) {
        AlikeWithToken(ItemAt(Grouped(id, title, name, tokens[..n]), ItemKey(t)),
                       ItemAt(Grouped(id', title, name, tokens[..n]), ItemKey(t)), id, id', title, name, t);
      }
    }
  }

  lemma AcceptsAlike(a: SecretItem, b: SecretItem)
    requires Alike(a, b)
    ensures Accepts(a) <==> Accepts(b)
  {
  }

  /** Whether an authentication's tokens can all be stored depends neither on the account nor on the store. */
  lemma SavingIndependent(items: seq<SecretItem>, id: Uuid, title: string, name: string, tokens: seq<Token>)
    ensures SaveTokens(items, id, title, name, tokens).ok <==> AllAccepted(Grouped(NIL_ID, title, name, tokens))
  {
    var dict, other := Grouped(id, title, name, tokens), Grouped(NIL_ID, title, name, tokens);
    SaveItemsOk(items, dict, Sorted(dict.Keys));
    GroupedAlike(id, NIL_ID, title, name, tokens);
    forall k | k in dict ensures Accepts(dict[k]) <==> Accepts(other[k]) {
      AcceptsAlike(dict[k], other[k]);
    }
    assert forall k :: k in Sorted(dict.Keys) <==> k in dict;
  }
}
