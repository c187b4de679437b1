/** Entries in plugin storage that no account file refers to any more: exactly when an operation leaves some. */
module Garbage {
  import opened Base
  import opened Plugins
  import opened Accounts
  import opened Environment
  import opened AccountObjects
  import opened Lifecycle
  import opened AccountLaws
  import opened VaultLaws
  import opened StepLaws
  import opened References

  ghost predicate Referred(dirs: seq<Dir>, scope: set<int>, e: EntryKey) {
    exists i, id :: i in scope && Ref(dirs, i, id, e.plugin) == Some(e.id)
  }

  /** Every entry is referred to by a file in scope. */
  ghost predicate NoGarbage(dirs: seq<Dir>, vault: Vault, scope: set<int>) {
    forall e | e in vault :: Referred(dirs, scope, e)
  }

  /** The file of the id in directory p refers to the entry, which is there. */
  predicate RefersTo(w: World, p: nat, id: Uuid, e: EntryKey) {
    e in w.vault && Ref(w.dirs, p, id, e.plugin) == Some(e.id)
  }

  // ---------------------------------------------------------------- writing an account

  /** The new version of an account carries every live reference its old version had. */
  ghost predicate CarriesOn(cfg: Config, account: Account, w: World, p: nat) {
    forall e | RefersTo(w, p, account.id, e) :: Carried(cfg, account, w.items, w.vault, e.plugin) == Some(e.id)
  }

  lemma WrittenIsReferred(cfg: Config, account: Account, w: World, p: nat, scope: set<int>, e: EntryKey)
    requires p < |w.dirs| && p in scope && VerifyAccount(cfg, account, w.items, w.vault).ok
    requires NoGarbage(w.dirs, w.vault, scope) && CarriesOn(cfg, account, w, p)
    requires e in AfterWrite(cfg, account, w, p).vault
    ensures Referred(AfterWrite(cfg, account, w, p).dirs, scope, e)
  {
    VerifiedKeys(cfg, account, w.items, w.vault, e);
    WrittenRefs(cfg, account, w, p, p, account.id, e.plugin);
    if e in w.vault && !RefersTo(w, p, account.id, e) {
      assert Referred(w.dirs, scope, e);
      var i, id :| i in scope && Ref(w.dirs, i, id, e.plugin) == Some(e.id);
      WrittenRefs(cfg, account, w, p, i, id, e.plugin);
    } else if e in w.vault {
      assert Carried(cfg, account, w.items, w.vault, e.plugin) == Some(e.id);
    }
  }

  lemma ReferredIsCarriedOn(cfg: Config, account: Account, w: World, p: nat, scope: set<int>, e: EntryKey)
    requires FreshWrites(cfg) && p < |w.dirs| && p in scope && VerifyAccount(cfg, account, w.items, w.vault).ok
    requires RefsDistinct(w.dirs, scope) && RefersTo(w, p, account.id, e)
    requires NoGarbage(AfterWrite(cfg, account, w, p).dirs, AfterWrite(cfg, account, w, p).vault, scope)
    ensures Carried(cfg, account, w.items, w.vault, e.plugin) == Some(e.id)
  {
    var after := AfterWrite(cfg, account, w, p);
    VerifiedGrows(cfg, account, w.items, w.vault);
    assert Referred(after.dirs, scope, e);
    var i, id :| i in scope && Ref(after.dirs, i, id, e.plugin) == Some(e.id);
    WrittenRefs(cfg, account, w, p, i, id, e.plugin);
    if Writes(cfg, account, w.items, w.vault, e.plugin).Some? {
      NewEntry(cfg, account, w.items, w.vault, e.plugin);
    }
  }

  lemma WriteGarbageIff(cfg: Config, account: Account, w: World, p: nat, scope: set<int>)
    requires FreshWrites(cfg) && p < |w.dirs| && p in scope && VerifyAccount(cfg, account, w.items, w.vault).ok
    requires RefsDistinct(w.dirs, scope) && NoGarbage(w.dirs, w.vault, scope)
    ensures NoGarbage(AfterWrite(cfg, account, w, p).dirs, AfterWrite(cfg, account, w, p).vault, scope)
         <==> CarriesOn(cfg, account, w, p)
  {
    var after := AfterWrite(cfg, account, w, p);
    if CarriesOn(cfg, account, w, p) {
      forall e | e in after.vault ensures Referred(after.dirs, scope, e) {
        WrittenIsReferred(cfg, account, w, p, scope, e);
      }
    } else if NoGarbage(after.dirs, after.vault, scope) {
      forall e | RefersTo(w, p, account.id, e) ensures Carried(cfg, account, w.items, w.vault, e.plugin) == Some(e.id) {
        ReferredIsCarriedOn(cfg, account, w, p, scope, e);
      }
    }
  }

  // ---------------------------------------------------------------- failing

  /** No plugin stores a service of the account. */
  ghost predicate StoresNothing(cfg: Config, account: Account, w: World) {
    forall k :: Writes(cfg, account, w.items, w.vault, k).None?
  }

  /** A failed verification leaves the storage as it was iff no plugin had stored anything by then. */
  lemma UnchangedIff(cfg: Config, account: Account, w: World)
    requires FreshWrites(cfg)
    ensures VerifyAccount(cfg, account, w.items, w.vault).vault == w.vault <==> StoresNothing(cfg, account, w)
  {
    var after := VerifyAccount(cfg, account, w.items, w.vault).vault;
    if k :| Writes(cfg, account, w.items, w.vault, k).Some? {
      NewEntry(cfg, account, w.items, w.vault, k);
    } else {
      VerifiedGrows(cfg, account, w.items, w.vault);
      forall e ensures e in after <==> e in w.vault {
        VerifiedKeys(cfg, account, w.items, w.vault, e);
      }
    }
  }

  lemma FailureGarbageIff(cfg: Config, account: Account, w: World, scope: set<int>)
    requires FreshWrites(cfg) && RefsLive(w.dirs, w.vault, scope) && NoGarbage(w.dirs, w.vault, scope)
    ensures NoGarbage(w.dirs, VerifyAccount(cfg, account, w.items, w.vault).vault, scope)
         <==> StoresNothing(cfg, account, w)
  {
    if k :| Writes(cfg, account, w.items, w.vault, k).Some? {
      var e := EntryKey(k, Writes(cfg, account, w.items, w.vault, k).value.id);
      NewEntry(cfg, account, w.items, w.vault, k);
      assert !Referred(w.dirs, scope, e);
    } else {
      UnchangedIff(cfg, account, w);
    }
  }

  // ---------------------------------------------------------------- the operations

  /**
   A create leaves no garbage when it goes through; when it fails in verification, iff no plugin had
   stored anything.
   */
  lemma CreateGarbageIff(cfg: Config, w: World, account: Account, newId: Uuid, scope: set<int>)
    requires FreshWrites(cfg) && WellKept(w.dirs) && Unused(w, newId)
    requires Covers(w.dirs, scope) && RefsSound(w.dirs, w.vault, scope) && NoGarbage(w.dirs, w.vault, scope)
    ensures
      var o := Create(cfg, w, account, newId);
      var act := account.(id := newId);
      NoGarbage(o.world.dirs, o.world.vault, scope)
      <==> (!o.ok && FindParser(w.dirs, NIL_ID, true).Some? && WithinLimits(cfg, w.dirs, act)
          ==> StoresNothing(cfg, act, w))
  {
    var act := account.(id := newId);
    CreateOutcome(cfg, w, account, newId);
    if Create(cfg, w, account, newId).ok {
      WriteGarbageIff(cfg, act, w, FindParser(w.dirs, NIL_ID, true).value, scope);
    } else {
      FailureGarbageIff(cfg, act, w, scope);
    }
  }

  /**
   A modify that goes through leaves no garbage iff the new version carries every live reference of the
   version it replaces: for an account whose plugins store its services, it always leaves some. One
   that fails leaves none iff no plugin had stored anything.
   */
  lemma ModifyGarbageIff(cfg: Config, w: World, id: Uuid, account: Account, scope: set<int>)
    requires FreshWrites(cfg) && WellKept(w.dirs) && UserFirst(w.dirs)
    requires Covers(w.dirs, scope) && RefsSound(w.dirs, w.vault, scope) && NoGarbage(w.dirs, w.vault, scope)
    ensures
      var o := Modify(cfg, w, id, account);
      var act := account.(id := id);
      var p := FindParser(w.dirs, id, true);
      NoGarbage(o.world.dirs, o.world.vault, scope)
      <==> if o.ok then p.Some? && CarriesOn(cfg, act, w, p.value)
           else ReadAccount(cfg, w, id, NEW_ACCOUNT).ok && p.Some? ==> StoresNothing(cfg, act, w)
  {
    var act := account.(id := id);
    ModifyOutcome(cfg, w, id, account);
    if Modify(cfg, w, id, account).ok {
      WriteGarbageIff(cfg, act, w, FindParser(w.dirs, id, true).value, scope);
    } else {
      FailureGarbageIff(cfg, act, w, scope);
    }
  }

  lemma RemovedRef(dirs: seq<Dir>, p: nat, id: Uuid, i: int, other: Uuid, s: string)
    requires p < |dirs|
    ensures Ref(WithoutFile(dirs, p, id), i, other, s) == if (i, other) == (p, id) then None else Ref(dirs, i, other, s)
  {
  }

  /** After a delete, entry by entry. */
  lemma DeletedEntry(cfg: Config, w: World, id: Uuid, e: EntryKey)
    requires WellKept(w.dirs) && Delete(cfg, w, id).ok
    ensures
      var p := FindParser(w.dirs, id, true);
      && p.Some? && Delete(cfg, w, id).world.dirs == WithoutFile(w.dirs, p.value, id)
      && (e in Delete(cfg, w, id).world.vault
          <==> e in w.vault && !(RefersTo(w, p.value, id, e) && LetsGo(cfg, w.vault, e)))
  {
    DeleteOutcome(cfg, w, id);
    var p := FindParser(w.dirs, id, true).value;
    var services := PlainServices(Listing(w.dirs[p].files[id]));
    StoredRefs(w.dirs, p, id, e);
    RemovedEntry(cfg, w.vault, services, e);
  }

  lemma RemovedEntry(cfg: Config, vault: Vault, services: map<string, Service>, e: EntryKey)
    requires RemoveCustomUpTo(cfg, vault, services, Sorted(services.Keys)).ok
    ensures e in RemoveCustomUpTo(cfg, vault, services, Sorted(services.Keys)).vault <==>
      e in vault && !(e in RefKeys(services, Sorted(services.Keys)) && LetsGo(cfg, vault, e))
  {
    RemovalExact(cfg, vault, services, Sorted(services.Keys));
    NoneRefuses(cfg, vault, services, Sorted(services.Keys));
  }

  lemma DeletedGarbageIff(cfg: Config, w: World, id: Uuid, p: nat, scope: set<int>)
    requires WellKept(w.dirs) && Delete(cfg, w, id).ok && FindParser(w.dirs, id, true) == Some(p) && p in scope
    requires RefsDistinct(w.dirs, scope) && NoGarbage(w.dirs, w.vault, scope)
    ensures NoGarbage(Delete(cfg, w, id).world.dirs, Delete(cfg, w, id).world.vault, scope)
       <==> forall e | RefersTo(w, p, id, e) :: LetsGo(cfg, w.vault, e)
  {
    var after := Delete(cfg, w, id).world;
    forall e | e in after.vault ensures Referred(after.dirs, scope, e) <==> !RefersTo(w, p, id, e) {
      DeletedEntry(cfg, w, id, e);
      assert Referred(w.dirs, scope, e);
      var i, other :| i in scope && Ref(w.dirs, i, other, e.plugin) == Some(e.id);
      RemovedRef(w.dirs, p, id, i, other, e.plugin);
      if j, x :| j in scope && Ref(after.dirs, j, x, e.plugin) == Some(e.id) {
        RemovedRef(w.dirs, p, id, j, x, e.plugin);
        assert (j, x) != (p, id) && Ref(w.dirs, j, x, e.plugin).Some?;
      }
    }
    forall e | RefersTo(w, p, id, e) ensures e in after.vault <==> !LetsGo(cfg, w.vault, e) {
      DeletedEntry(cfg, w, id, e);
    }
  }

  /** A delete leaves no garbage iff the plugins report the removal of every entry of the account as done. */
  lemma DeleteGarbageIff(cfg: Config, w: World, id: Uuid, scope: set<int>)
    requires WellKept(w.dirs) && Covers(w.dirs, scope)
    requires RefsDistinct(w.dirs, scope) && NoGarbage(w.dirs, w.vault, scope)
    ensures
      var s := Delete(cfg, w, id);
      var p := FindParser(w.dirs, id, true);
      NoGarbage(s.world.dirs, s.world.vault, scope)
      <==> (s.ok ==> p.Some? && forall e | RefersTo(w, p.value, id, e) :: LetsGo(cfg, w.vault, e))
  {
    DeleteOutcome(cfg, w, id);
    var p := FindParser(w.dirs, id, true);
    if Delete(cfg, w, id).ok {
      DeletedGarbageIff(cfg, w, id, p.value, scope);
    } else {
      FailedDelete(cfg, w, id);
    }
  }
}
