/** What the items made of an authentication's tokens contain, and which of them are stored. */
module ItemLaws {
  import opened Base
  import opened Secrets
  import opened Plugins
  import opened Services
  import opened TokenLaws

  /** The token belongs to the item. */
  predicate GoesTo(t: Token, k: string) {
    Labelled(t) && Place(t).0 == k
  }

  /** The last token of the item that has the attribute. */
  predicate Gives(tokens: seq<Token>, i: nat, k: string, key: string) {
    && i < |tokens| && GoesTo(tokens[i], k) && key in tokens[i].attributes
    && forall j | i < j < |tokens| && GoesTo(tokens[j], k) :: key !in tokens[j].attributes
  }

  lemma GivesNext(tokens: seq<Token>, i: nat, k: string, key: string)
    requires tokens != []
    ensures
      var n := |tokens| - 1;
      Gives(tokens, i, k, key)
      <==> if GoesTo(tokens[n], k) && key in tokens[n].attributes then i == n else Gives(tokens[..n], i, k, key)
  {
    var n := |tokens| - 1;
    if i < n { assert tokens[..n][i] == tokens[i]; }
    if i < n && Gives(tokens[..n], i, k, key) && !(GoesTo(tokens[n], k) && key in tokens[n].attributes) {
      forall j | i < j < |tokens| && GoesTo(tokens[j], k) ensures key !in tokens[j].attributes {
        if j < n { assert tokens[..n][j] == tokens[j]; }
      }
    }
    if i < n && Gives(tokens, i, k, key) {
      forall j | i < j < n && GoesTo(tokens[..n][j], k) ensures key !in tokens[..n][j].attributes {
        assert tokens[..n][j] == tokens[j];
      }
    }
  }

  /** The attributes of an item of the given key; none while there is no such item. */
  function AttributesAt(dict: map<string, SecretItem>, k: string): StrMap {
    if k in dict then dict[k].attributes else map[]
  }

  lemma GroupedNext(id: Uuid, title: string, name: string, tokens: seq<Token>, k: string)
    requires tokens != []
    ensures
      var n := |tokens| - 1;
      var before, t := AttributesAt(Grouped(id, title, name, tokens[..n]), k), tokens[n];
      AttributesAt(Grouped(id, title, name, tokens), k)
      == if GoesTo(t, k) then Attributes(before, id, name, t.attributes) else before
  {
  }

  lemma AttributesOver(before: StrMap, id: Uuid, name: string, others: StrMap, key: string)
    requires "schema" in others
    ensures
      var a := Attributes(before, id, name, others);
      && (key in others ==> key in a && a[key] == others[key])
      && (key !in others && key == "service" ==> key in a && a[key] == name)
      && (key !in others && key == "account_id" ==> key in a && a[key] == id)
      && (key !in others && key != "service" && key != "account_id" ==>
            (key in a <==> key in before) && (key in a ==> a[key] == before[key]))
  {
  }

  /**
   An attribute other than service and account id, the schema included, is in an item iff one of the item's
   tokens has it, and has the value that the last such token gives it.
   */
  lemma {:induction false} AttributeGiven(id: Uuid, title: string, name: string, tokens: seq<Token>, k: string,
                                          key: string)
    requires key != "service" && key != "account_id"
    ensures
      var a := AttributesAt(Grouped(id, title, name, tokens), k);
      && (key in a <==> exists i: nat :: Gives(tokens, i, k, key))
      && forall i: nat | Gives(tokens, i, k, key) :: a[key] == tokens[i].attributes[key]
  {
    if tokens != [] {
      var n := |tokens| - 1;
      AttributeGiven(id, title, name, tokens[..n], k, key);
      GroupedNext(id, title, name, tokens, k);
      forall i: nat ensures Gives(tokens, i, k, key) <==>
        if GoesTo(tokens[n], k) && key in tokens[n].attributes then i == n else Gives(tokens[..n], i, k, key)
      {
        GivesNext(tokens, i, k, key);
      }
      if GoesTo(tokens[n], k) {
        AttributesOver(AttributesAt(Grouped(id, title, name, tokens[..n]), k), id, name, tokens[n].attributes, key);
        assert key in tokens[n].attributes ==> Gives(tokens, n, k, key);
      }
    }
  }

  /**
   Service and account id of an item are those it was asked for, unless the last of its tokens says otherwise;
   the schema is that token's, and is named in the caption together with title and service.
   */
  lemma {:induction false} LabelOfCloser(id: Uuid, title: string, name: string, tokens: seq<Token>, i: nat)
    requires Closes(tokens, i)
    ensures
      var dict, t := Grouped(id, title, name, tokens), tokens[i];
      && Place(t).0 in dict
      && var item := dict[Place(t).0];
      && item.caption == title + "->" + name + " [" + t.attributes["schema"] + "]"
      && "schema" in item.attributes && item.attributes["schema"] == t.attributes["schema"]
      && "service" in item.attributes
      && item.attributes["service"] == (if "service" in t.attributes then t.attributes["service"] else name)
      && "account_id" in item.attributes
      && item.attributes["account_id"] == (if "account_id" in t.attributes then t.attributes["account_id"] else id)
  {
    var n := |tokens| - 1;
    if i < n {
      assert Closes(tokens[..n], i);
      LabelOfCloser(id, title, name, tokens[..n], i);
    } else {
      var before := AttributesAt(Grouped(id, title, name, tokens[..n]), Place(tokens[n]).0);
      AttributesOver(before, id, name, tokens[n].attributes, "schema");
      AttributesOver(before, id, name, tokens[n].attributes, "service");
      AttributesOver(before, id, name, tokens[n].attributes, "account_id");
    }
  }

  /** Items are made for exactly the places the tokens with a schema go to. */
  lemma {:induction false} ItemForToken(id: Uuid, title: string, name: string, tokens: seq<Token>, k: string)
    ensures k in Grouped(id, title, name, tokens) <==> exists i :: 0 <= i < |tokens| && GoesTo(tokens[i], k)
  {
    if tokens != [] {
      var n := |tokens| - 1;
      ItemForToken(id, title, name, tokens[..n], k);
      if i :| 0 <= i < n && GoesTo(tokens[..n][i], k) {
        assert GoesTo(tokens[i], k);
      }
      if i :| 0 <= i < |tokens| && GoesTo(tokens[i], k) {
        if i < n { assert GoesTo(tokens[..n][i], k); }
      }
    }
  }

  // ---------------------------------------------------------------- which of them are stored

  predicate Refused(dict: map<string, SecretItem>, k: string) {
    k in dict && !Accepts(dict[k])
  }

  /** How many items are stored before one is refused; all of them if none is. */
  function FirstRefused(dict: map<string, SecretItem>, keys: seq<string>): (m: nat)
    ensures m <= |keys|
  {
    if keys == [] then 0
    else
      var m := FirstRefused(dict, keys[..|keys| - 1]);
      if m < |keys| - 1 || Refused(dict, keys[|keys| - 1]) then m else m + 1
  }

  lemma {:induction false} FirstRefusedIs(dict: map<string, SecretItem>, keys: seq<string>)
    ensures
      var m := FirstRefused(dict, keys);
      (forall i | 0 <= i < m :: !Refused(dict, keys[i])) && (m < |keys| ==> Refused(dict, keys[m]))
  {
    if keys != [] {
      FirstRefusedIs(dict, keys[..|keys| - 1]);
    }
  }

  function ItemsFor(dict: map<string, SecretItem>, keys: seq<string>): seq<SecretItem>
    requires forall k | k in keys :: k in dict
  {
    seq(|keys|, i requires 0 <= i < |keys| => dict[keys[i]])
  }

  lemma ItemsForNext(dict: map<string, SecretItem>, keys: seq<string>)
    requires keys != [] && forall k | k in keys :: k in dict
    ensures ItemsFor(dict, keys) == ItemsFor(dict, keys[..|keys| - 1]) + [dict[keys[|keys| - 1]]]
  {
  }

  lemma SaveNext(items: seq<SecretItem>, dict: map<string, SecretItem>, keys: seq<string>)
    requires keys != [] && forall k | k in keys :: k in dict
    ensures
      var r, k := SaveItems(items, dict, keys[..|keys| - 1]), keys[|keys| - 1];
      SaveItems(items, dict, keys)
      == if !r.ok then r else if Refused(dict, k) then StoreRun(false, r.items) else StoreRun(true, r.items + [dict[k]])
  {
  }

  lemma {:induction false} SavesUpTo(items: seq<SecretItem>, dict: map<string, SecretItem>, keys: seq<string>)
    requires forall k | k in keys :: k in dict
    ensures
      var m := FirstRefused(dict, keys);
      SaveItems(items, dict, keys) == StoreRun(m == |keys|, items + ItemsFor(dict, keys[..m]))
  {
    if keys == [] {
      assert items + ItemsFor(dict, []) == items;
    } else {
      var front, m := keys[..|keys| - 1], FirstRefused(dict, keys[..|keys| - 1]);
      SavesUpTo(items, dict, front);
      SaveNext(items, dict, keys);
      assert front[..m] == keys[..m];
      if FirstRefused(dict, keys) == |keys| {
        assert keys[..|keys|] == keys && front[..|front|] == front;
        ItemsForNext(dict, keys);
      }
    }
  }

  /** The items go to the end of the store in key order, up to the first that is refused; then saving has failed. */
  lemma TokensSaved(items: seq<SecretItem>, id: Uuid, title: string, name: string, tokens: seq<Token>)
    ensures
      var dict := Grouped(id, title, name, tokens);
      var keys := Sorted(dict.Keys);
      var m := FirstRefused(dict, keys);
      && SaveTokens(items, id, title, name, tokens) == StoreRun(m == |keys|, items + ItemsFor(dict, keys[..m]))
      && (forall i | 0 <= i < m :: Accepts(dict[keys[i]])) && (m < |keys| ==> !Accepts(dict[keys[m]]))
  {
    var dict := Grouped(id, title, name, tokens);
    FirstRefusedIs(dict, Sorted(dict.Keys));
    SavesUpTo(items, dict, Sorted(dict.Keys));
  }
}
