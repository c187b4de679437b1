/** References from account files to plugin storage: always live, never shared. */
module References {
  import opened Base
  import opened Secrets
  import opened Plugins
  import opened Accounts
  import opened Environment
  import opened AccountObjects
  import opened Lifecycle
  import opened AccountLaws
  import opened Turns
  import opened VaultLaws
  import opened StepLaws

  function DocRef(doc: Document, service: string): Option<string> {
    if service in Listing(doc)
        && PLUGIN_ID in Listing(doc)[service] then Some(Listing(doc)[service][PLUGIN_ID]) else None
  }

  /** The reference stored in directory i, in the file of the id, under the service. */
  function Ref(dirs: seq<Dir>, i: int, id: Uuid, service: string): Option<string> {
    if 0 <= i < |dirs| && id in dirs[i].files then DocRef(dirs[i].files[id], service) else None
  }

  ghost predicate RefsLive(dirs: seq<Dir>, vault: Vault, scope: set<int>) {
    forall i, id, s | i in scope && Ref(dirs, i, id, s).Some? :: EntryKey(s, Ref(dirs, i, id, s).value) in vault
  }

  ghost predicate RefsDistinct(dirs: seq<Dir>, scope: set<int>) {
    forall i, j, id, id', s | i in scope && j in scope && (i, id) != (j, id')
      && Ref(dirs, i, id, s).Some? && Ref(dirs, j, id', s).Some?
      :: Ref(dirs, i, id, s) != Ref(dirs, j, id', s)
  }

  /** Among the directories in scope, every reference is live and no two files share an entry. */
  ghost predicate RefsSound(dirs: seq<Dir>, vault: Vault, scope: set<int>) {
    RefsLive(dirs, vault, scope) && RefsDistinct(dirs, scope)
  }

  /** The scope takes in every directory that can be written. */
  ghost predicate Covers(dirs: seq<Dir>, scope: set<int>) {
    forall i | 0 <= i < |dirs| && !dirs[i].readOnly :: i in scope
  }

  lemma WrittenRef(dirs: seq<Dir>, p: nat, account: Account, i: int, id: Uuid, s: string)
    requires p < |dirs|
    ensures Ref(WithFile(dirs, p, account.id, Print(account)), i, id, s)
         == if (i, id) == (p, account.id) then DocRef(Print(account), s) else Ref(dirs, i, id, s)
  {
  }

  lemma RefsGrow(dirs: seq<Dir>, vault: Vault, vault': Vault, scope: set<int>)
    requires RefsSound(dirs, vault, scope) && Grows(vault, vault')
    ensures RefsSound(dirs, vault', scope)
  {
  }

  // ---------------------------------------------------------------- references that services carry

  /** The PLUGIN_ID a service goes to the file with although its plugin has not stored it. */
  ghost function Carried(cfg: Config, account: Account, items: seq<SecretItem>, vault: Vault,
                         k: string): Option<string> {
    GivenKeys(cfg, account);
    if k !in account.services || k !in cfg.plugins || Writes(cfg, account, items, vault, k).Some? then None else
    var answer := Answer(cfg, k, Given(cfg, account).services[k].params);
    if PLUGIN_ID in answer then Some(answer[PLUGIN_ID]) else None
  }

  /** The references in a verified account's file are those its plugins wrote and those its services carry. */
  lemma StoredRef(cfg: Config, account: Account, items: seq<SecretItem>, vault: Vault, s: string)
    requires VerifyAccount(cfg, account, items, vault).ok
    ensures
      var w := Writes(cfg, account, items, vault, s);
      DocRef(Print(VerifyAccount(cfg, account, items, vault).account), s)
      == if w.Some? then Some(w.value.id) else Carried(cfg, account, items, vault, s)
  {
    var r := VerifyAccount(cfg, account, items, vault);
    ListingOfPrint(r.account);
    VerifiedAccount(cfg, account, items, vault);
    if s in account.services {
      VerifiedShown(cfg, account, items, vault, s);
    }
  }

  /** The entry is live, and no file in scope refers to it but the one that is written. */
  ghost predicate Free(dirs: seq<Dir>, vault: Vault, scope: set<int>, p: nat, id: Uuid, s: string, x: string) {
    && EntryKey(s, x) in vault
    && forall i, other | i in scope && (i, other) != (p, id) :: Ref(dirs, i, other, s) != Some(x)
  }

  /** Every reference the account carries into directory p is live already and not used by another file. */
  ghost predicate CarriesWell(cfg: Config, account: Account, w: World, p: nat, scope: set<int>) {
    forall s | Carried(cfg, account, w.items, w.vault, s).Some? ::
      Free(w.dirs, w.vault, scope, p, account.id, s, Carried(cfg, account, w.items, w.vault, s).value)
  }

  /** The world after writing a verified account into directory p. */
  ghost function AfterWrite(cfg: Config, account: Account, w: World, p: nat): World
    requires p < |w.dirs|
  {
    var r := VerifyAccount(cfg, account, w.items, w.vault);
    w.(dirs := WithFile(w.dirs, p, account.id, Print(r.account)), vault := r.vault)
  }

  lemma WrittenRefs(cfg: Config, account: Account, w: World, p: nat, i: int, id: Uuid, s: string)
    requires p < |w.dirs| && VerifyAccount(cfg, account, w.items, w.vault).ok
    ensures
      var written := Writes(cfg, account, w.items, w.vault, s);
      Ref(AfterWrite(cfg, account, w, p).dirs, i, id, s)
      == if (i, id) != (p, account.id) then Ref(w.dirs, i, id, s)
         else if written.Some? then Some(written.value.id) else Carried(cfg, account, w.items, w.vault, s)
  {
    var r := VerifyAccount(cfg, account, w.items, w.vault);
    VerifiedAccount(cfg, account, w.items, w.vault);
    WrittenRef(w.dirs, p, r.account, i, id, s);
    StoredRef(cfg, account, w.items, w.vault, s);
  }

  /** One reference of the new state: live, new if it was written, and otherwise one of before or carried. */
  lemma WrittenRefIsLive(cfg: Config, account: Account, w: World, p: nat, scope: set<int>, i: int, id: Uuid, s: string)
    requires FreshWrites(cfg) && RefsLive(w.dirs, w.vault, scope) && p < |w.dirs| && i in scope
    requires VerifyAccount(cfg, account, w.items, w.vault).ok && CarriesWell(cfg, account, w, p, scope)
    requires Ref(AfterWrite(cfg, account, w, p).dirs, i, id, s).Some?
    ensures
      var e := EntryKey(s, Ref(AfterWrite(cfg, account, w, p).dirs, i, id, s).value);
      && e in AfterWrite(cfg, account, w, p).vault
      && (e in w.vault <==> (i, id) != (p, account.id) || Writes(cfg, account, w.items, w.vault, s).None?)
  {
    WrittenRefs(cfg, account, w, p, i, id, s);
    VerifiedGrows(cfg, account, w.items, w.vault);
    if (i, id) != (p, account.id) {
      assert Ref(w.dirs, i, id, s).Some?;
    } else if Writes(cfg, account, w.items, w.vault, s).Some? {
      NewEntry(cfg, account, w.items, w.vault, s);
    } else {
      assert Free(w.dirs, w.vault, scope, p, account.id, s, Carried(cfg, account, w.items, w.vault, s).value);
    }
  }

  lemma CarriedWellIsSound(cfg: Config, account: Account, w: World, p: nat, scope: set<int>)
    requires FreshWrites(cfg) && RefsSound(w.dirs, w.vault, scope) && p < |w.dirs|
    requires VerifyAccount(cfg, account, w.items, w.vault).ok && CarriesWell(cfg, account, w, p, scope)
    ensures RefsSound(AfterWrite(cfg, account, w, p).dirs, AfterWrite(cfg, account, w, p).vault, scope)
  {
    var after := AfterWrite(cfg, account, w, p);
    forall i, id, s | i in scope && Ref(after.dirs, i, id, s).Some?
      ensures EntryKey(s, Ref(after.dirs, i, id, s).value) in after.vault
    {
      WrittenRefIsLive(cfg, account, w, p, scope, i, id, s);
    }
    forall i, j, id, id', s | i in scope && j in scope && (i, id) != (j, id')
      && Ref(after.dirs, i, id, s).Some? && Ref(after.dirs, j, id', s).Some?
      ensures Ref(after.dirs, i, id, s) != Ref(after.dirs, j, id', s)
    {
      WrittenApart(cfg, account, w, p, scope, i, id, j, id', s);
    }
  }

  lemma WrittenApart(cfg: Config, account: Account, w: World, p: nat, scope: set<int>,
                     i: int, id: Uuid, j: int, id': Uuid, s: string)
    requires FreshWrites(cfg) && RefsSound(w.dirs, w.vault, scope) && p < |w.dirs|
    requires VerifyAccount(cfg, account, w.items, w.vault).ok && CarriesWell(cfg, account, w, p, scope)
    requires i in scope && j in scope && (i, id) != (j, id')
    requires Ref(AfterWrite(cfg, account, w, p).dirs, i, id, s).Some?
         && Ref(AfterWrite(cfg, account, w, p).dirs, j, id', s).Some?
    ensures Ref(AfterWrite(cfg, account, w, p).dirs, i, id, s) != Ref(AfterWrite(cfg, account, w, p).dirs, j, id', s)
  {
    WrittenRefIsLive(cfg, account, w, p, scope, i, id, s);
    WrittenRefIsLive(cfg, account, w, p, scope, j, id', s);
    WrittenRefs(cfg, account, w, p, i, id, s);
    WrittenRefs(cfg, account, w, p, j, id', s);
    if Carried(cfg, account, w.items, w.vault, s).Some? {
      assert Free(w.dirs, w.vault, scope, p, account.id, s, Carried(cfg, account, w.items, w.vault, s).value);
    }
  }

  lemma SoundIsCarriedWell(cfg: Config, account: Account, w: World, p: nat, scope: set<int>)
    requires p < |w.dirs| && p in scope && VerifyAccount(cfg, account, w.items, w.vault).ok
    requires RefsSound(AfterWrite(cfg, account, w, p).dirs, AfterWrite(cfg, account, w, p).vault, scope)
    ensures CarriesWell(cfg, account, w, p, scope)
  {
    var after := AfterWrite(cfg, account, w, p);
    forall s | Carried(cfg, account, w.items, w.vault, s).Some?
      ensures Free(w.dirs, w.vault, scope, p, account.id, s, Carried(cfg, account, w.items, w.vault, s).value)
    {
      var x := Carried(cfg, account, w.items, w.vault, s).value;
      WrittenRefs(cfg, account, w, p, p, account.id, s);
      assert EntryKey(s, Ref(after.dirs, p, account.id, s).value) in after.vault;
      VerifiedKeys(cfg, account, w.items, w.vault, EntryKey(s, x));
      forall i, other | i in scope && (i, other) != (p, account.id) ensures Ref(w.dirs, i, other, s) != Some(x) {
        WrittenRefs(cfg, account, w, p, i, other, s);
      }
    }
  }

  /**
   Writing a verified account leaves every reference live and unshared iff each PLUGIN_ID that one of its
   services carries, its plugin not having stored it, names an entry that is there and free.
   */
  lemma ReferencesSoundIff(cfg: Config, account: Account, w: World, p: nat, scope: set<int>)
    requires FreshWrites(cfg) && RefsSound(w.dirs, w.vault, scope) && p < |w.dirs| && p in scope
    requires VerifyAccount(cfg, account, w.items, w.vault).ok
    ensures RefsSound(AfterWrite(cfg, account, w, p).dirs, AfterWrite(cfg, account, w, p).vault, scope)
       <==> CarriesWell(cfg, account, w, p, scope)
  {
    if CarriesWell(cfg, account, w, p, scope) {
      CarriedWellIsSound(cfg, account, w, p, scope);
    } else if RefsSound(AfterWrite(cfg, account, w, p).dirs, AfterWrite(cfg, account, w, p).vault, scope) {
      SoundIsCarriedWell(cfg, account, w, p, scope);
    }
  }

  /** A create that goes through, to the directory for new accounts, carries only free entries. */
  ghost predicate CreateCarriesWell(cfg: Config, w: World, account: Account, newId: Uuid, scope: set<int>) {
    var p := FindParser(w.dirs, NIL_ID, true);
    Create(cfg, w, account, newId).ok && p.Some? ==> CarriesWell(cfg, account.(id := newId), w, p.value, scope)
  }

  ghost predicate ModifyCarriesWell(cfg: Config, w: World, id: Uuid, account: Account, scope: set<int>) {
    var p := FindParser(w.dirs, id, true);
    Modify(cfg, w, id, account).ok && p.Some? ==> CarriesWell(cfg, account.(id := id), w, p.value, scope)
  }

  /** Create keeps every reference live and unshared iff, where it goes through, it carries free entries only. */
  lemma CreateKeepsRefsIff(cfg: Config, w: World, account: Account, newId: Uuid, scope: set<int>)
    requires FreshWrites(cfg) && WellKept(w.dirs) && Unused(w, newId)
    requires Covers(w.dirs, scope) && RefsSound(w.dirs, w.vault, scope)
    ensures
      var w' := Create(cfg, w, account, newId).world;
      RefsSound(w'.dirs, w'.vault, scope) <==> CreateCarriesWell(cfg, w, account, newId, scope)
  {
    var act := account.(id := newId);
    CreateOutcome(cfg, w, account, newId);
    if Create(cfg, w, account, newId).ok {
      ReferencesSoundIff(cfg, act, w, FindParser(w.dirs, NIL_ID, true).value, scope);
    } else {
      VerifiedGrows(cfg, act, w.items, w.vault);
      RefsGrow(w.dirs, w.vault, VerifyAccount(cfg, act, w.items, w.vault).vault, scope);
    }
  }

  lemma ModifyKeepsRefsIff(cfg: Config, w: World, id: Uuid, account: Account, scope: set<int>)
    requires FreshWrites(cfg) && WellKept(w.dirs) && UserFirst(w.dirs)
    requires Covers(w.dirs, scope) && RefsSound(w.dirs, w.vault, scope)
    ensures
      var w' := Modify(cfg, w, id, account).world;
      RefsSound(w'.dirs, w'.vault, scope) <==> ModifyCarriesWell(cfg, w, id, account, scope)
  {
    var act := account.(id := id);
    ModifyOutcome(cfg, w, id, account);
    if Modify(cfg, w, id, account).ok {
      ReferencesSoundIff(cfg, act, w, FindParser(w.dirs, id, true).value, scope);
    } else {
      VerifiedGrows(cfg, act, w.items, w.vault);
      RefsGrow(w.dirs, w.vault, VerifyAccount(cfg, act, w.items, w.vault).vault, scope);
    }
  }

  // ---------------------------------------------------------------- delete

  /** The entries the file of an account refers to. */
  lemma StoredRefs(dirs: seq<Dir>, p: nat, id: Uuid, e: EntryKey)
    requires p < |dirs| && id in dirs[p].files
    ensures
      var services := PlainServices(Listing(dirs[p].files[id]));
      e in RefKeys(services, Sorted(services.Keys)) <==> Ref(dirs, p, id, e.plugin) == Some(e.id)
  {
    var services := PlainServices(Listing(dirs[p].files[id]));
    RefAmong(services, Sorted(services.Keys), e);
  }

  /** The services of an account file as a delete reads them. */
  function FileServices(dirs: seq<Dir>, p: nat, id: Uuid): map<string, Service>
    requires p < |dirs| && id in dirs[p].files
  {
    PlainServices(Listing(dirs[p].files[id]))
  }

  /** The entries whose removal a delete asks for before a plugin refuses; none if it does not get that far. */
  ghost function AskedFor(cfg: Config, w: World, id: Uuid): set<EntryKey> {
    var p := FindParser(w.dirs, id, true);
    if p.None? || id !in w.dirs[p.value].files || !Readable(cfg.plugins.Keys, w.dirs[p.value].files[id]) then {} else
    var services := FileServices(w.dirs, p.value, id);
    ReachedKeys(cfg, w.vault, services, Sorted(services.Keys))
  }

  /** The delete fails, and a plugin has let an entry go before another one refused. */
  ghost predicate HalfRemoves(cfg: Config, w: World, id: Uuid) {
    !Delete(cfg, w, id).ok && exists e :: e in AskedFor(cfg, w, id) && e in w.vault && LetsGo(cfg, w.vault, e)
  }

  lemma AskedAreRefs(cfg: Config, w: World, id: Uuid, e: EntryKey)
    requires e in AskedFor(cfg, w, id)
    ensures
      var p := FindParser(w.dirs, id, true);
      p.Some? && Ref(w.dirs, p.value, id, e.plugin) == Some(e.id)
  {
    var p := FindParser(w.dirs, id, true).value;
    var services := FileServices(w.dirs, p, id);
    NoneRefuses(cfg, w.vault, services, Sorted(services.Keys));
    StoredRefs(w.dirs, p, id, e);
  }

  /** A failed delete takes away just the entries that were let go before the refusal. */
  lemma FailedDelete(cfg: Config, w: World, id: Uuid)
    requires WellKept(w.dirs) && !Delete(cfg, w, id).ok
    ensures Delete(cfg, w, id).world == w.(vault := w.vault - LetGo(cfg, w.vault, AskedFor(cfg, w, id)))
    ensures Delete(cfg, w, id).world == w <==> !HalfRemoves(cfg, w, id)
  {
    FailedDeleteVault(cfg, w, id);
    var taken := LetGo(cfg, w.vault, AskedFor(cfg, w, id));
    if HalfRemoves(cfg, w, id) {
      var e :| e in AskedFor(cfg, w, id) && e in w.vault && LetsGo(cfg, w.vault, e);
      assert e in taken;
    } else {
      assert w.vault - taken == w.vault;
    }
  }

  lemma FailedDeleteVault(cfg: Config, w: World, id: Uuid)
    requires WellKept(w.dirs) && !Delete(cfg, w, id).ok
    ensures Delete(cfg, w, id).world == w.(vault := w.vault - LetGo(cfg, w.vault, AskedFor(cfg, w, id)))
  {
    var p := FindParser(w.dirs, id, true);
    assert LetGo(cfg, w.vault, {}) == {} && w.vault - {} == w.vault;
    if p.Some? && id in w.dirs[p.value].files {
      var services := FileServices(w.dirs, p.value, id);
      ReadNew(cfg.plugins.Keys, w.dirs[p.value].files[id]);
      RemovalExact(cfg, w.vault, services, Sorted(services.Keys));
    }
  }

  lemma DeletedKeepsRefs(cfg: Config, w: World, id: Uuid, scope: set<int>)
    requires WellKept(w.dirs) && Covers(w.dirs, scope) && RefsSound(w.dirs, w.vault, scope) && Delete(cfg, w, id).ok
    ensures RefsSound(Delete(cfg, w, id).world.dirs, Delete(cfg, w, id).world.vault, scope)
  {
    var s := Delete(cfg, w, id);
    DeleteOutcome(cfg, w, id);
    var p := FindParser(w.dirs, id, true).value;
    var services := FileServices(w.dirs, p, id);
    RemovalExact(cfg, w.vault, services, Sorted(services.Keys));
    NoneRefuses(cfg, w.vault, services, Sorted(services.Keys));
    forall i, other, r | i in scope && Ref(s.world.dirs, i, other, r).Some?
      ensures Ref(w.dirs, i, other, r) == Ref(s.world.dirs, i, other, r)
      ensures EntryKey(r, Ref(s.world.dirs, i, other, r).value) in s.world.vault
    {
      var e := EntryKey(r, Ref(s.world.dirs, i, other, r).value);
      assert (i, other) != (p, id);
      StoredRefs(w.dirs, p, id, e);
    }
  }

  /**
   Delete keeps every reference live and unshared iff it does not stop half-way: a delete that goes through
   removes only entries no other file refers to, but one that a plugin refuses keeps the file, with
   references to the entries that other plugins have let go by then.
   */
  lemma DeleteKeepsRefsIff(cfg: Config, w: World, id: Uuid, scope: set<int>)
    requires WellKept(w.dirs) && Covers(w.dirs, scope) && RefsSound(w.dirs, w.vault, scope)
    ensures
      var s := Delete(cfg, w, id);
      RefsSound(s.world.dirs, s.world.vault, scope) <==> !HalfRemoves(cfg, w, id)
  {
    if Delete(cfg, w, id).ok {
      DeletedKeepsRefs(cfg, w, id, scope);
    } else {
      FailedDelete(cfg, w, id);
      if HalfRemoves(cfg, w, id) {
        var e :| e in AskedFor(cfg, w, id) && e in w.vault && LetsGo(cfg, w.vault, e);
        AskedAreRefs(cfg, w, id, e);
        var p := FindParser(w.dirs, id, true).value;
        assert e !in Delete(cfg, w, id).world.vault;
        assert EntryKey(e.plugin, Ref(w.dirs, p, id, e.plugin).value) == e;
      }
    }
  }

  /** Plugins that do not refuse live entries do not stop a delete half-way. */
  lemma WillingPlugins(cfg: Config, w: World, id: Uuid, scope: set<int>)
    requires NeverRefuses(cfg) && WellKept(w.dirs) && Covers(w.dirs, scope) && RefsLive(w.dirs, w.vault, scope)
    ensures !HalfRemoves(cfg, w, id)
  {
    var p := FindParser(w.dirs, id, true);
    if p.Some? && id in w.dirs[p.value].files {
      var services := FileServices(w.dirs, p.value, id);
      ReadNew(cfg.plugins.Keys, w.dirs[p.value].files[id]);
      forall e | e in RefKeys(services, Sorted(services.Keys)) ensures e in w.vault {
        StoredRefs(w.dirs, p.value, id, e);
        assert Ref(w.dirs, p.value, id, e.plugin).Some?;
      }
      RemovalSucceeds(cfg, w.vault, services, Sorted(services.Keys));
    }
  }

  // ---------------------------------------------------------------- after a delete that stopped half-way

  /** The file refers to an entry that is gone, and the plugin refuses to remove what it does not have. */
  ghost predicate Stuck(cfg: Config, w: World, id: Uuid) {
    var p := FindParser(w.dirs, id, true);
    p.Some? && exists e: EntryKey ::
        Ref(w.dirs, p.value, id, e.plugin) == Some(e.id) && e !in w.vault && Refuses(cfg, w.vault, e)
  }

  /** What a plugin has let go, it refuses to remove again: it answers no for an id that it does not hold. */
  ghost predicate RefusesTwice(cfg: Config) {
    forall t, id | t in cfg.plugins && cfg.plugins[t].remove(id, true) == Returns(true) ::
      cfg.plugins[t].remove(id, false) == Returns(false)
  }

  /** A delete that stops half-way leaves the account stuck, if plugins refuse to remove an entry twice. */
  lemma HalfRemovedIsStuck(cfg: Config, w: World, id: Uuid)
    requires WellKept(w.dirs) && HalfRemoves(cfg, w, id) && RefusesTwice(cfg)
    ensures Stuck(cfg, Delete(cfg, w, id).world, id)
  {
    FailedDelete(cfg, w, id);
    var e :| e in AskedFor(cfg, w, id) && e in w.vault && LetsGo(cfg, w.vault, e);
    AskedAreRefs(cfg, w, id, e);
    assert e !in Delete(cfg, w, id).world.vault;
  }

  lemma StuckFails(cfg: Config, w: World, id: Uuid, p: nat, e: EntryKey)
    requires FindParser(w.dirs, id, true) == Some(p) && Ref(w.dirs, p, id, e.plugin) == Some(e.id)
    requires Refuses(cfg, w.vault, e)
    ensures !Delete(cfg, w, id).ok
  {
    var services := FileServices(w.dirs, p, id);
    StoredRefs(w.dirs, p, id, e);
    NoneRefuses(cfg, w.vault, services, Sorted(services.Keys));
    RemovalExact(cfg, w.vault, services, Sorted(services.Keys));
    ReadNew(cfg.plugins.Keys, w.dirs[p].files[id]);
  }

  /** A stuck account cannot be deleted, and trying leaves it stuck. */
  lemma StuckStays(cfg: Config, w: World, id: Uuid)
    requires WellKept(w.dirs) && Stuck(cfg, w, id)
    ensures !Delete(cfg, w, id).ok && Delete(cfg, w, id).world.dirs == w.dirs
         && Stuck(cfg, Delete(cfg, w, id).world, id)
  {
    var p := FindParser(w.dirs, id, true).value;
    var e: EntryKey :| Ref(w.dirs, p, id, e.plugin) == Some(e.id) && e !in w.vault && Refuses(cfg, w.vault, e);
    StuckFails(cfg, w, id, p, e);
    FailedDeleteVault(cfg, w, id);
    assert Refuses(cfg, Delete(cfg, w, id).world.vault, e);
  }

  /** The world after n attempts at a delete. */
  ghost function Deletes(cfg: Config, w: World, id: Uuid, n: nat): World {
    if n == 0 then w else Delete(cfg, Deletes(cfg, w, id, n - 1), id).world
  }

  lemma {:induction false} StaysStuck(cfg: Config, w: World, id: Uuid, n: nat)
    requires WellKept(w.dirs) && Stuck(cfg, w, id)
    ensures Deletes(cfg, w, id, n).dirs == w.dirs && Stuck(cfg, Deletes(cfg, w, id, n), id)
  {
    if n > 0 {
      StaysStuck(cfg, w, id, n - 1);
      StuckStays(cfg, Deletes(cfg, w, id, n - 1), id);
    }
  }

  /** However often the delete is tried again after it stopped half-way, it fails. */
  lemma StuckForGood(cfg: Config, w: World, id: Uuid, n: nat)
    requires WellKept(w.dirs) && HalfRemoves(cfg, w, id) && RefusesTwice(cfg)
    ensures !Delete(cfg, Deletes(cfg, Delete(cfg, w, id).world, id, n), id).ok
  {
    var w1 := Delete(cfg, w, id).world;
    HalfRemovedIsStuck(cfg, w, id);
    FailedDeleteVault(cfg, w, id);
    StaysStuck(cfg, w1, id, n);
    StuckStays(cfg, Deletes(cfg, w1, id, n), id);
  }
}
