/** Invariants of single steps: what every operation keeps, on every one of its exits. */
module Invariants {
  import opened Base
  import opened Secrets
  import opened Accounts
  import opened Environment
  import opened AccountObjects
  import opened Lifecycle
  import opened TokenLaws
  import opened AccountLaws
  import opened StepLaws

  // ---------------------------------------------------------------- no orphan secrets

  /** The account file a read selects for the id lists the service. */
  predicate Lists(dirs: seq<Dir>, id: Uuid, service: string) {
    Selected(dirs, id).Some? && service in Listing(Selected(dirs, id).value)
  }

  /** A secret belongs to a service that its account lists. */
  predicate Housed(dirs: seq<Dir>, item: SecretItem) {
    "account_id" in item.attributes && "service" in item.attributes ==>
      Lists(dirs, item.attributes["account_id"], item.attributes["service"])
  }

  ghost predicate NoOrphans(dirs: seq<Dir>, items: seq<SecretItem>) {
    forall k | 0 <= k < |items| :: Housed(dirs, items[k])
  }

  /** Changing one id's file cannot make another account's secrets homeless. */
  lemma SelectionElsewhere(before: seq<Dir>, after: seq<Dir>, id: Uuid, other: Uuid)
    requires |before| == |after| && other != id
    requires forall i | 0 <= i < |before| ::
      before[i].readOnly == after[i].readOnly && before[i].files - {id} == after[i].files - {id}
    requires other != NIL_ID
    ensures Selected(after, other) == Selected(before, other)
  {
    forall i | 0 <= i < |before|
      ensures other in before[i].files <==> other in after[i].files
      ensures other in before[i].files ==> before[i].files[other] == after[i].files[other]
    {
      assert other in before[i].files <==> other in before[i].files - {id};
      assert other in after[i].files <==> other in after[i].files - {id};
    }
    var p := FindParser(before, other, false);
    if p.Some? {
      FirstIs(after, other, false, p.value);
    }
  }

  /** What is asked of a step that touches one account: others' secrets are as before, its own are housed. */
  lemma OrphansByAccount(before: seq<Dir>, after: seq<Dir>, items: seq<SecretItem>, items': seq<SecretItem>, id: Uuid)
    requires NoOrphans(before, items) && WellKept(before)
    requires |before| == |after| && forall i | 0 <= i < |before| ::
      before[i].readOnly == after[i].readOnly && before[i].files - {id} == after[i].files - {id}
    requires forall item | item in items' :: item in items || Belongs(item, id)
    requires forall item | item in items' && Belongs(item, id) && "service" in item.attributes ::
      Lists(after, id, item.attributes["service"])
    ensures NoOrphans(after, items')
  {
    forall k | 0 <= k < |items'| ensures Housed(after, items'[k]) {
      var item := items'[k];
      assert item in items';
      BelongsMeaning(item, id);
      if !Belongs(item, id) && "account_id" in item.attributes && "service" in item.attributes {
        var j :| 0 <= j < |items| && items[j] == item;
        assert Housed(before, items[j]);
        var other := item.attributes["account_id"];
        assert other != NIL_ID;
        SelectionElsewhere(before, after, id, other);
      }
    }
  }

  lemma NoOrphansSubset(dirs: seq<Dir>, items: seq<SecretItem>, items': seq<SecretItem>)
    requires NoOrphans(dirs, items) && forall item | item in items' :: item in items
    ensures NoOrphans(dirs, items')
  {
    forall k | 0 <= k < |items'| ensures Housed(dirs, items'[k]) {
      assert items'[k] in items;
      var j :| 0 <= j < |items| && items[j] == items'[k];
      assert Housed(dirs, items[j]);
    }
  }

  lemma FilesElsewhere(dirs: seq<Dir>, p: nat, id: Uuid, doc: Document)
    requires p < |dirs|
    ensures forall i | 0 <= i < |dirs| ::
      WithFile(dirs, p, id, doc)[i].readOnly == dirs[i].readOnly
      && WithFile(dirs, p, id, doc)[i].files - {id} == dirs[i].files - {id}
      && WithoutFile(dirs, p, id)[i].readOnly == dirs[i].readOnly
      && WithoutFile(dirs, p, id)[i].files - {id} == dirs[i].files - {id}
  {
  }

  lemma SavedListsOwn(dirs: seq<Dir>, p: nat, account: Account, s: string)
    requires p < |dirs| && account.id != NIL_ID && forall i | 0 <= i < p :: account.id !in dirs[i].files
    requires s in account.services
    ensures Lists(WithFile(dirs, p, account.id, Print(account)), account.id, s)
  {
    WrittenIsSelected(dirs, p, account.id, Print(account));
    ListingOfPrint(account);
  }

  /** A failed create puts the secret store back exactly; a successful one adds secrets of the account's services. */
  lemma CreateSecrets(cfg: Config, w: World, account: Account, newId: Uuid)
    requires WellKept(w.dirs) && Fresh(w, newId) && CleanPlugins(cfg)
    ensures
      var o := Create(cfg, w, account, newId);
      if o.ok then Appends(w.items, o.world.items, newId, Sorted(o.account.services.Keys)) else o.world.items == w.items
  {
    var act := account.(id := newId);
    CreateOutcome(cfg, w, account, newId);
    VerifiedSecrets(cfg, act, w.items, w.vault);
    VerifiedAccount(cfg, act, w.items, w.vault);
    RetainedOthers(w.items, newId, Sorted(act.services.Keys));
  }

  /** The services that the new version lacks. */
  function Dropped(names: seq<string>, kept: set<string>): seq<string> {
    if names == [] then []
    else Dropped(names[..|names| - 1], kept) + if names[|names| - 1] in kept then [] else [names[|names| - 1]]
  }

  /** The clean-up keeps, in order, exactly the secrets of none of the services that the new version lacks. */
  lemma {:induction false} CleanedUpExact(items: seq<SecretItem>, id: Uuid, names: seq<string>, kept: set<string>)
    ensures CleanedUp(items, id, names, kept)
         == if id == NIL_ID then items else Retained(items, id, Dropped(names, kept))
  {
    if names == [] {
      RetainedAll(items, id);
    } else {
      var n := |names| - 1;
      CleanedUpExact(items, id, names[..n], kept);
      if names[n] !in kept {
        var dropped := Dropped(names, kept);
        assert dropped[..|dropped| - 1] == Dropped(names[..n], kept);
        RetainedStep(items, id, dropped);
      } else {
        assert Dropped(names, kept) == Dropped(names[..n], kept);
      }
    }
  }

  lemma {:induction false} DroppedMembers(names: seq<string>, kept: set<string>)
    ensures forall k :: k in Dropped(names, kept) <==> k in names && k !in kept
  {
    if names != [] {
      LastApart(names);
      DroppedMembers(names[..|names| - 1], kept);
    }
  }

  /** Writing a new account's file houses the secrets added for it. */
  lemma AddedHoused(dirs: seq<Dir>, p: nat, account: Account, items: seq<SecretItem>, items': seq<SecretItem>)
    requires NoOrphans(dirs, items) && WellKept(dirs) && account.id != NIL_ID
    requires p < |dirs| && forall i | 0 <= i < p :: account.id !in dirs[i].files
    requires forall k | 0 <= k < |items| :: !Belongs(items[k], account.id)
    requires Appends(items, items', account.id, Sorted(account.services.Keys))
    ensures NoOrphans(WithFile(dirs, p, account.id, Print(account)), items')
  {
    var id, names := account.id, Sorted(account.services.Keys);
    var after := WithFile(dirs, p, id, Print(account));
    var added :| items' == items + added && forall item | item in added :: InServices(item, id, names);
    FilesElsewhere(dirs, p, id, Print(account));
    forall item | item in items'
      ensures item in items || Belongs(item, id)
      ensures Belongs(item, id) && "service" in item.attributes ==> Lists(after, id, item.attributes["service"])
    {
      if item in added {
        InServicesBelongs(item, id, names);
        SavedListsOwn(dirs, p, account, item.attributes["service"]);
      } else {
        var k :| 0 <= k < |items| && items[k] == item;
      }
    }
    OrphansByAccount(dirs, after, items, items', id);
  }

  lemma CreateKeepsHoused(cfg: Config, w: World, account: Account, newId: Uuid)
    requires WellKept(w.dirs) && Fresh(w, newId) && CleanPlugins(cfg)
    requires NoOrphans(w.dirs, w.items)
    ensures
      var o := Create(cfg, w, account, newId);
      NoOrphans(o.world.dirs, o.world.items)
  {
    var o := Create(cfg, w, account, newId);
    CreateOutcome(cfg, w, account, newId);
    CreateSecrets(cfg, w, account, newId);
    if o.ok {
      AddedHoused(w.dirs, FindParser(w.dirs, NIL_ID, true).value, o.account, w.items, o.world.items);
    }
  }

  lemma {:induction false} CleanedUpMembers(items: seq<SecretItem>, id: Uuid, names: seq<string>, kept: set<string>)
    requires id != NIL_ID
    ensures forall item :: item in CleanedUp(items, id, names, kept) <==>
              item in items && forall i | 0 <= i < |names| && names[i] !in kept :: !Owned(item, id, names[i])
  {
    if names != [] {
      var n := |names| - 1;
      CleanedUpMembers(items, id, names[..n], kept);
      var r := CleanedUp(items, id, names[..n], kept);
      WithoutMembers(r, ServiceQuery(id, names[n]));
      forall item
        ensures item in CleanedUp(items, id, names, kept) <==>
                item in items && forall i | 0 <= i < |names| && names[i] !in kept :: !Owned(item, id, names[i])
      {
        assert (forall i | 0 <= i < |names| && names[i] !in kept :: !Owned(item, id, names[i])) <==>
               (forall i | 0 <= i < n && names[..n][i] !in kept :: !Owned(item, id, names[..n][i]))
               && (names[n] !in kept ==> !Owned(item, id, names[n]));
      }
    }
  }

  lemma {:induction false} ModifyKeepsHoused(cfg: Config, w: World, id: Uuid, account: Account)
    requires WellKept(w.dirs) && UserFirst(w.dirs) && CleanPlugins(cfg)
    requires NoOrphans(w.dirs, w.items)
    ensures
      var o := Modify(cfg, w, id, account);
      NoOrphans(o.world.dirs, o.world.items)
  {
    var o := Modify(cfg, w, id, account);
    var act := account.(id := id);
    ModifyOutcome(cfg, w, id, account);
    if o.ok {
      ModifiedHoused(cfg, w, id, account);
    } else if o.world != w {
      VerifiedSecrets(cfg, act, w.items, w.vault);
      RetainedMembers(w.items, id, Sorted(act.services.Keys));
      NoOrphansSubset(w.dirs, w.items, o.world.items);
    }
  }

  lemma ModifiedHoused(cfg: Config, w: World, id: Uuid, account: Account)
    requires WellKept(w.dirs) && UserFirst(w.dirs) && CleanPlugins(cfg)
    requires NoOrphans(w.dirs, w.items) && Modify(cfg, w, id, account).ok
    ensures
      var o := Modify(cfg, w, id, account);
      NoOrphans(o.world.dirs, o.world.items)
  {
    var o := Modify(cfg, w, id, account);
    var act := account.(id := id);
    ModifyOutcome(cfg, w, id, account);
    VerifiedSecrets(cfg, act, w.items, w.vault);
    VerifiedAccount(cfg, act, w.items, w.vault);
    ReadAccountMeaning(cfg, w, id);
    var dropped := Sorted(ReadAccount(cfg, w, id, NEW_ACCOUNT).account.services.Keys);
    var r := VerifyAccount(cfg, act, w.items, w.vault);
    ReplacedHoused(w, FindParser(w.dirs, id, true).value, dropped, o.account, r.items);
  }

  /** Rewriting an account's file, with the clean-up after it, houses its old and its new secrets. */
  lemma ReplacedHoused(w: World, p: nat, dropped: seq<string>, account: Account, items: seq<SecretItem>)
    requires NoOrphans(w.dirs, w.items) && WellKept(w.dirs) && account.id != NIL_ID
    requires p < |w.dirs| && forall i | 0 <= i < p :: account.id !in w.dirs[i].files
    requires Selected(w.dirs, account.id).Some?
    requires Enumerates(dropped, Listing(Selected(w.dirs, account.id).value).Keys)
    requires Appends(w.items, items, account.id, Sorted(account.services.Keys))
    ensures NoOrphans(WithFile(w.dirs, p, account.id, Print(account)),
                      CleanedUp(items, account.id, dropped, account.services.Keys))
  {
    var id, names := account.id, Sorted(account.services.Keys);
    var after, items' := WithFile(w.dirs, p, id, Print(account)), CleanedUp(items, id, dropped, account.services.Keys);
    var added :| items == w.items + added && forall item | item in added :: InServices(item, id, names);
    FilesElsewhere(w.dirs, p, id, Print(account));
    CleanedUpMembers(items, id, dropped, account.services.Keys);
    forall item | item in items'
      ensures item in w.items || Belongs(item, id)
      ensures Belongs(item, id) && "service" in item.attributes ==> Lists(after, id, item.attributes["service"])
    {
      if item in added {
        InServicesBelongs(item, id, names);
        SavedListsOwn(w.dirs, p, account, item.attributes["service"]);
      } else if Belongs(item, id) && "service" in item.attributes {
        KeptSecretListed(w, id, dropped, account, item);
        SavedListsOwn(w.dirs, p, account, item.attributes["service"]);
      }
    }
    OrphansByAccount(w.dirs, after, w.items, items', id);
  }

  /** A secret that was there before and survives the clean-up is of a service the account still has. */
  lemma {:induction false} KeptSecretListed(w: World, id: Uuid, names: seq<string>, account: Account, item: SecretItem)
    requires NoOrphans(w.dirs, w.items) && Selected(w.dirs, id).Some?
    requires Enumerates(names, Listing(Selected(w.dirs, id).value).Keys)
    requires item in w.items && Belongs(item, id) && "service" in item.attributes
    requires forall i | 0 <= i < |names| && names[i] !in account.services.Keys :: !Owned(item, id, names[i])
    ensures item.attributes["service"] in account.services
  {
    var k :| 0 <= k < |w.items| && w.items[k] == item;
    assert Housed(w.dirs, w.items[k]);
    BelongsMeaning(item, id);
    var s := item.attributes["service"];
    assert s in names;
    var i :| 0 <= i < |names| && names[i] == s;
    OwnedMeaning(item, id, s);
  }

  lemma DeleteKeepsHoused(cfg: Config, w: World, id: Uuid)
    requires WellKept(w.dirs) && NoOrphans(w.dirs, w.items)
    ensures
      var s := Delete(cfg, w, id);
      NoOrphans(s.world.dirs, s.world.items)
  {
    var s := Delete(cfg, w, id);
    DeleteOutcome(cfg, w, id);
    if s.ok {
      var p := FindParser(w.dirs, id, true).value;
      FilesElsewhere(w.dirs, p, id, Unreadable);
      WithoutMembers(w.items, AccountQuery(id));
      OrphansByAccount(w.dirs, s.world.dirs, w.items, s.world.items, id);
    }
  }
}
