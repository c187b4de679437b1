/** Concrete inputs for which a statement one might expect fails; the exact conditions are proved elsewhere. */
module Witnesses {
  import opened Base
  import opened Secrets
  import opened Plugins
  import opened Accounts
  import opened Services
  import opened Environment
  import opened AccountObjects
  import opened Lifecycle
  import opened TokenLaws
  import opened AccountLaws
  import opened Turns
  import opened VaultLaws
  import opened Alone
  import opened StepLaws
  import opened References
  import opened Garbage
  import opened Limits
  import opened Frames
  import opened Undo

  // ---------------------------------------------------------------- five plugins

  const ID: Uuid := "7d444840-9dc0-11d1-b245-5ffdce74fad2"

  function EchoAnswer(params: StrMap): VerifyResult {
    VerifyResult(true, if PLUGIN_ID in params then [ServiceParam(PLUGIN_ID, params[PLUGIN_ID], false, false)] else [])
  }

  /** Accepts everything, stores nothing, and gives back a reference that it is handed. */
  function Echo(maxCount: int): Plugin {
    Plugin("echo", false, maxCount, EchoAnswer, _ => AuthResult(true, []),
           (_, _, _) => None, (_, entry) => entry, (_, live) => Returns(live))
  }

  function NextId(live: set<string>): Option<Written> {
    if "1" !in live then Some(Written("1", map[])) else if "2" !in live then Some(Written("2", map[])) else None
  }

  /** Accepts everything, stores up to two services, and removes them as the function says. */
  function Store(title: string, remove: (string, bool) -> RemoveOutcome): Plugin {
    Plugin(title, false, -1, _ => VerifyResult(true, []), _ => AuthResult(true, []),
           (_, _, live) => NextId(live), (_, entry) => entry, remove)
  }

  const PASSWORD := Token("key", "secret", map["schema" := "password", "username" := "ann"])

  /** Rejects accounts with the parameter "bad", and answers the others with a password to keep. */
  function Critic(): Plugin {
    Plugin("critic", false, -1, (params: StrMap) => VerifyResult("bad" !in params, []),
        _ => AuthResult(true, [PASSWORD]),
           (_, _, _) => None, (_, entry) => entry, (_, live) => Returns(live))
  }

  /** The archive lets go of what it has, the keeper throws, and the miser refuses. */
  ghost function Five(maxCount: int): Config {
    Config(map["echo" := Echo(maxCount),
               "archive" := Store("archive", (_, live) => Returns(live)),
               "keeper" := Store("keeper", (_, _) => Throws),
               "miser" := Store("miser", (_, _) => Returns(false)),
               "critic" := Critic()],
           map[], (_, _) => "", ids => Sorted(ids))
  }

  predicate IsStore(k: string) {
    k == "archive" || k == "keeper" || k == "miser"
  }

  lemma TheFive(maxCount: int, t: string)
    requires t in Five(maxCount).plugins
    ensures t == "echo" || IsStore(t) || t == "critic"
  {
  }

  function Mail(services: map<string, Service>): Account {
    NEW_ACCOUNT.(title := "Mail", services := services)
  }

  /** The one item made of a token, in a store that was empty. */
  lemma OneToken(id: Uuid, title: string, name: string, t: Token)
    requires HasSchema(t)
    ensures
      var item := WithToken(SecretItem("", map[], map[]), id, title, name, t);
      && Grouped(id, title, name, [t]) == map[ItemKey(t) := item]
      && (Accepts(item) ==> SaveTokens([], id, title, name, [t]) == StoreRun(true, [item]))
  {
    var item := WithToken(SecretItem("", map[], map[]), id, title, name, t);
    var tokens := [t];
    assert tokens[..|tokens| - 1] == [] && Grouped(id, title, name, []) == map[];
    var dict := Grouped(id, title, name, tokens);
    assert dict == map[ItemKey(t) := item];
    assert dict.Keys == {ItemKey(t)};
    SortedUnique({ItemKey(t)}, [ItemKey(t)]);
    var keys := [ItemKey(t)];
    assert keys[..|keys| - 1] == [] && SaveItems([], dict, []) == StoreRun(true, []);
  }

  function Password(id: Uuid): SecretItem {
    WithToken(SecretItem("", map[], map[]), id, "Mail", "critic", PASSWORD)
  }

  lemma PasswordAccepted(id: Uuid)
    ensures Accepts(Password(id)) && Owned(Password(id), id, "critic")
  {
    var a := Password(id).attributes;
    assert a["schema"] == "password" && a["service"] == "critic" && a["account_id"] == id && "username" in a;
    BelongsMeaning(Password(id), id);
    OwnedMeaning(Password(id), id, "critic");
  }

  lemma FiveAreClean(maxCount: int)
    ensures CleanPlugins(Five(maxCount))
  {
    forall t, ps | t in Five(maxCount).plugins ensures CleanTokens(t,
        Five(maxCount).plugins[t].authenticate(ps).tokens) {
      TheFive(maxCount, t);
    }
  }

  lemma FiveAreListable(maxCount: int)
    ensures Listable(Five(maxCount).dirOrder)
  {
    forall s ensures Enumerates(Five(maxCount).dirOrder(s), s) {
    }
  }

  lemma FiveWriteFresh(maxCount: int)
    ensures FreshWrites(Five(maxCount))
  {
    forall t, v, a, live | t in Five(maxCount).plugins ensures FreshId(Five(maxCount).plugins[t], v, a, live) {
      TheFive(maxCount, t);
    }
  }

  lemma FiveRefuseTwice(maxCount: int)
    ensures RefusesTwice(Five(maxCount))
  {
    forall t, id | t in Five(maxCount).plugins && Five(maxCount).plugins[t].remove(id, true) == Returns(true)
      ensures Five(maxCount).plugins[t].remove(id, false) == Returns(false)
    {
      TheFive(maxCount, t);
    }
  }

  lemma MailGiven(maxCount: int, services: map<string, Service>, id: Uuid)
    ensures
      var act := Mail(services).(id := id);
      Given(Five(maxCount), act) == act && Begins(Five(maxCount), act)
  {
  }

  /** The plugin accepts the parameters. */
  predicate Pleases(k: string, params: StrMap) {
    k == "echo" || IsStore(k) || (k == "critic" && "bad" !in params)
  }

  lemma WhoPasses(maxCount: int, k: string, params: StrMap)
    ensures Passes(Five(maxCount), "Mail", k, params) <==> Pleases(k, params)
  {
    if k in Five(maxCount).plugins {
      TheFive(maxCount, k);
      assert Grouped(NIL_ID, "Mail", k, []) == map[];
      OneToken(NIL_ID, "Mail", "critic", PASSWORD);
      PasswordAccepted(NIL_ID);
    }
  }

  // ---------------------------------------------------------------- creating

  const ONE_DIR := World([Dir(false, map[])], [], map[], map[], [])

  ghost function Made(maxCount: int, services: map<string, Service>): Outcome {
    Create(Five(maxCount), ONE_DIR, Mail(services), ID)
  }

  lemma OneDirIsSound()
    ensures WellKept(ONE_DIR.dirs) && UserFirst(ONE_DIR.dirs) && Fresh(ONE_DIR, ID)
    ensures FindParser(ONE_DIR.dirs, NIL_ID, true) == Some(0)
    ensures Covers(ONE_DIR.dirs, {0}) && RefsSound(ONE_DIR.dirs, ONE_DIR.vault, {0})
         && NoGarbage(ONE_DIR.dirs, ONE_DIR.vault, {0})
  {
    FirstIs(ONE_DIR.dirs, NIL_ID, true, 0);
  }

  lemma MadeIff(services: map<string, Service>)
    ensures CreateReaches(Five(-1), ONE_DIR, Mail(services).(id := ID))
    ensures Made(-1, services).ok <==> forall k | k in services :: Pleases(k, services[k].params)
  {
    OneDirIsSound();
    FiveAreClean(-1);
    FiveAreListable(-1);
    MailGiven(-1, services, ID);
    CreateSucceedsIff(Five(-1), ONE_DIR, Mail(services), ID);
    forall k | k in services ensures Passes(Five(-1), "Mail", k, services[k].params)
        <==> Pleases(k, services[k].params) {
      WhoPasses(-1, k, services[k].params);
    }
    forall k | k in services.Keys && k in Five(-1).plugins ensures Five(-1).plugins[k].maxCount < 0 {
      TheFive(-1, k);
    }
  }

  /** What a create that went through stores. */
  lemma MadeStores(maxCount: int, services: map<string, Service>)
    requires Made(maxCount, services).ok
    ensures
      var cfg, o, act := Five(maxCount), Made(maxCount, services), Mail(services).(id := ID);
      var r := VerifyAccount(cfg, act, [], map[]);
      && r.ok && o.world.items == r.items && o.account == r.account && o.account.services.Keys == services.Keys
      && o.account.services.Keys <= cfg.plugins.Keys && o.account.id == ID
      && o.world.vault == AfterWrite(cfg, act, ONE_DIR, 0).vault
          && o.world.dirs == AfterWrite(cfg, act, ONE_DIR, 0).dirs
  {
    OneDirIsSound();
    CreateOutcome(Five(maxCount), ONE_DIR, Mail(services), ID);
    VerifiedAccount(Five(maxCount), Mail(services).(id := ID), [], map[]);
  }

  lemma MadeKeys(maxCount: int, services: map<string, Service>)
    requires Made(maxCount, services).ok
    ensures Made(maxCount, services).account.services.Keys == services.Keys
  {
    MadeStores(maxCount, services);
  }

  /** The account is in the one directory, and can be read. */
  lemma MadeWorld(maxCount: int, services: map<string, Service>)
    requires Made(maxCount, services).ok
    ensures
      var w := Made(maxCount, services).world;
      && WellKept(w.dirs) && UserFirst(w.dirs) && Covers(w.dirs, {0})
      && FindParser(w.dirs, ID, true) == Some(0)
      && ReadAccount(Five(maxCount), w, ID, NEW_ACCOUNT).ok
  {
    var o := Made(maxCount, services);
    OneDirIsSound();
    MadeStores(maxCount, services);
    WriteKeepsWell(ONE_DIR.dirs, 0, o.account);
    WritableHolder(ONE_DIR.dirs, 0, ID, Print(o.account));
    CreateThenRead(Five(maxCount), ONE_DIR, Mail(services), ID);
  }

  lemma StoreWrites(maxCount: int, services: map<string, Service>, vault: Vault, items: seq<SecretItem>, k: string)
    requires k in services && IsStore(k)
    ensures Writes(Five(maxCount), Mail(services).(id := ID), items, vault, k) == NextId(LiveIds(vault, k))
  {
    MailGiven(maxCount, services, ID);
    FiveAreClean(maxCount);
    WritesAlone(Five(maxCount), Mail(services).(id := ID), items, vault, k);
    SavingIndependent(items, ID, "Mail", k, []);
    assert Grouped(NIL_ID, "Mail", k, []) == map[];
  }

  /** A service that was stored: its entry is there, and the file refers to it. */
  lemma MadeStored(services: map<string, Service>, k: string)
    requires Made(-1, services).ok && k in services && IsStore(k)
    ensures
      var w := Made(-1, services).world;
      EntryKey(k, "1") in w.vault && Ref(w.dirs, 0, ID, k) == Some("1")
  {
    MadeStores(-1, services);
    StoreWrites(-1, services, map[], [], k);
    VerifiedKeys(Five(-1), Mail(services).(id := ID), [], map[], EntryKey(k, "1"));
    WrittenRefs(Five(-1), Mail(services).(id := ID), ONE_DIR, 0, 0, ID, k);
  }

  const CARRIED := map["echo" := Plain(map[PLUGIN_ID := "7"])]

  lemma EchoCarries(reference: string)
    ensures Answer(Five(-1), "echo", map[PLUGIN_ID := reference]) == map[PLUGIN_ID := reference]
  {
    var list := EchoAnswer(map[PLUGIN_ID := reference]).params;
    assert list[..0] == [] && Applied([]) == Service(map[], map[], map[], true);
    assert Applied(list).params == map[PLUGIN_ID := reference] && Applied(list).guarded == map[PLUGIN_ID := false];
  }

  lemma EchoWritesNothing(services: map<string, Service>)
    requires "echo" in services
    ensures Writes(Five(-1), Mail(services).(id := ID), [], map[], "echo").None?
  {
    MailGiven(-1, services, ID);
    FiveAreClean(-1);
    WritesAlone(Five(-1), Mail(services).(id := ID), [], map[], "echo");
  }

  /** A created account may refer to a plugin entry that does not exist. */
  lemma CarriedReference()
    ensures
      var o := Made(-1, CARRIED);
      o.ok && !RefsLive(o.world.dirs, o.world.vault, {0})
  {
    var cfg, act := Five(-1), Mail(CARRIED).(id := ID);
    MadeIff(CARRIED);
    MadeStores(-1, CARRIED);
    MailGiven(-1, CARRIED, ID);
    EchoCarries("7");
    EchoWritesNothing(CARRIED);
    WrittenRefs(cfg, act, ONE_DIR, 0, 0, ID, "echo");
    VerifiedKeys(cfg, act, [], map[], EntryKey("echo", "7"));
    var after := Made(-1, CARRIED).world;
    assert EntryKey("echo", Ref(after.dirs, 0, ID, "echo").value) !in after.vault;
  }

  const KEPT := map["keeper" := Plain(map[])]
  const BAD := map["critic" := Plain(map["bad" := ""])]

  lemma BadFails()
    ensures
      var o := Made(-1, KEPT + BAD);
      && !o.ok
      && o.world.vault == VerifyAccount(Five(-1), Mail(KEPT + BAD).(id := ID), [], map[]).vault
  {
    var services := KEPT + BAD;
    assert !Pleases("critic", services["critic"].params);
    MadeIff(services);
    OneDirIsSound();
    FiveAreListable(-1);
    LimitsAllowIff(Five(-1), ONE_DIR.dirs, Mail(services).(id := ID));
    CreateOutcome(Five(-1), ONE_DIR, Mail(services), ID);
  }

  /** A failed create may leave an entry with a plugin. */
  lemma CreateLeavesEntry()
    ensures
      var o := Made(-1, KEPT + BAD);
      !o.ok && EntryKey("keeper", "1") in o.world.vault && EntryKey("keeper", "1") !in ONE_DIR.vault
  {
    var services := KEPT + BAD;
    BadFails();
    StoreWrites(-1, services, map[], [], "keeper");
    VerifiedKeys(Five(-1), Mail(services).(id := ID), [], map[], EntryKey("keeper", "1"));
  }

  // ---------------------------------------------------------------- deleting

  lemma KeeperKeeps(account: Account, vault: Vault)
    requires account.services.Keys == {"keeper"}
    ensures forall e | e in Entries(account) :: !Refuses(Five(-1), vault, e) && !LetsGo(Five(-1), vault, e)
  {
    forall e | e in Entries(account) ensures e.plugin == "keeper" {
      assert e.plugin in account.services;
    }
  }

  lemma KeptDeletes()
    requires Made(-1, KEPT).ok && Made(-1, KEPT).account.services.Keys == {"keeper"}
    ensures
      var o := Made(-1, KEPT);
      Delete(Five(-1), o.world, ID).ok && o.world.vault.Keys <= Delete(Five(-1), o.world, ID).world.vault.Keys
  {
    var o := Made(-1, KEPT);
    OneDirIsSound();
    FiveAreClean(-1);
    FiveWriteFresh(-1);
    CreateThenDelete(Five(-1), ONE_DIR, Mail(KEPT), ID);
    KeeperKeeps(o.account, o.world.vault);
  }

  lemma KeptMade()
    ensures
      var o := Made(-1, KEPT);
      o.ok && o.account.services.Keys == {"keeper"} && EntryKey("keeper", "1") in o.world.vault
  {
    MadeIff(KEPT);
    MadeStored(KEPT, "keeper");
    MadeKeys(-1, KEPT);
  }

  /** A removal that throws lets a delete go through and leaves the entry. */
  lemma RemovalLeavesEntry()
    ensures
      var o := Made(-1, KEPT);
      var d := Delete(Five(-1), o.world, ID);
      o.ok && d.ok && EntryKey("keeper", "1") in d.world.vault && EntryKey("keeper", "1") !in ONE_DIR.vault
  {
    KeptMade();
    KeptDeletes();
  }

  const GUARDED := map["archive" := Plain(map[]), "miser" := Plain(map[])]

  lemma ArchiveComesFirst()
    ensures Sorted({"archive", "miser"}) == ["archive", "miser"]
  {
    assert Before("archive", "miser");
    SortedUnique({"archive", "miser"}, ["archive", "miser"]);
  }

  /** The archive is asked to remove its entry before the miser refuses. */
  lemma ArchiveIsAsked(services: map<string, Service>, vault: Vault)
    requires services.Keys == {"archive", "miser"} && EntryKey("archive", "1") in vault
    requires PLUGIN_ID in services["archive"].params && services["archive"].params[PLUGIN_ID] == "1"
    requires PLUGIN_ID in services["miser"].params
    ensures EntryKey("archive", "1") in ReachedKeys(Five(-1), vault, services, Sorted(services.Keys))
  {
    ArchiveComesFirst();
    var names := ["archive", "miser"];
    assert Sorted(services.Keys) == names;
    var m := FirstRefusal(Five(-1), vault, services, names);
    assert !RefusesService(Five(-1), vault, services, names[0]);
    assert RefusesService(Five(-1), vault, services, names[1]);
    assert m == 1;
    RefAmong(services, names[..m], EntryKey("archive", "1"));
    assert names[..m][0] == "archive";
  }

  lemma HalfRemovesGuarded(w: World)
    requires FindParser(w.dirs, ID, true) == Some(0) && ID in w.dirs[0].files
    requires Readable(Five(-1).plugins.Keys, w.dirs[0].files[ID])
    requires Listing(w.dirs[0].files[ID]).Keys == {"archive", "miser"}
    requires Ref(w.dirs, 0, ID, "archive") == Some("1") && Ref(w.dirs, 0, ID, "miser") == Some("1")
    requires EntryKey("archive", "1") in w.vault
    ensures HalfRemoves(Five(-1), w, ID)
  {
    StuckFails(Five(-1), w, ID, 0, EntryKey("miser", "1"));
    ArchiveIsAsked(FileServices(w.dirs, 0, ID), w.vault);
    assert EntryKey("archive", "1") in AskedFor(Five(-1), w, ID);
  }

  lemma PrintedFile(registered: set<string>, dirs: seq<Dir>, p: nat, account: Account)
    requires p < |dirs| && account.services.Keys <= registered
    ensures
      var doc := WithFile(dirs, p, account.id, Print(account))[p].files[account.id];
      Readable(registered, doc) && Listing(doc).Keys == account.services.Keys
  {
    ListingOfPrint(account);
    ReadOfPrint(registered, account);
    ReadNew(registered, Print(account));
  }

  lemma MadeFile(maxCount: int, services: map<string, Service>)
    requires Made(maxCount, services).ok
    ensures
      var files := Made(maxCount, services).world.dirs[0].files;
      ID in files && Readable(Five(maxCount).plugins.Keys, files[ID]) && Listing(files[ID]).Keys == services.Keys
  {
    MadeStores(maxCount, services);
    PrintedFile(Five(maxCount).plugins.Keys, ONE_DIR.dirs, 0, Made(maxCount, services).account);
  }

  lemma MadePlace(maxCount: int, services: map<string, Service>)
    requires Made(maxCount, services).ok
    ensures FindParser(Made(maxCount, services).world.dirs, ID, true) == Some(0)
  {
    MadeWorld(maxCount, services);
  }

  lemma GuardedHalfRemoves()
    ensures Made(-1, GUARDED).ok && HalfRemoves(Five(-1), Made(-1, GUARDED).world, ID)
  {
    MadeIff(GUARDED);
    MadePlace(-1, GUARDED);
    MadeStored(GUARDED, "archive");
    MadeStored(GUARDED, "miser");
    MadeFile(-1, GUARDED);
    HalfRemovesGuarded(Made(-1, GUARDED).world);
  }

  /**
   A delete that one plugin refuses after another has let its entry go leaves a dangling reference, and
   can never be completed.
   */
  lemma HalfRemoved(n: nat)
    ensures
      var o := Made(-1, GUARDED);
      var d := Delete(Five(-1), o.world, ID);
      && o.ok && RefsLive(o.world.dirs, o.world.vault, {0})
      && !d.ok && !RefsLive(d.world.dirs, d.world.vault, {0})
      && !Delete(Five(-1), Deletes(Five(-1), d.world, ID, n), ID).ok
  {
    var cfg, o := Five(-1), Made(-1, GUARDED);
    GuardedHalfRemoves();
    MadeWorld(-1, GUARDED);
    GuardedIsSound();
    FiveRefuseTwice(-1);
    StuckForGood(cfg, o.world, ID, n);
    DanglesAfter(cfg, o.world, ID, {0});
  }

  lemma DanglesAfter(cfg: Config, w: World, id: Uuid, scope: set<int>)
    requires WellKept(w.dirs) && Covers(w.dirs, scope) && HalfRemoves(cfg, w, id)
    ensures !RefsLive(Delete(cfg, w, id).world.dirs, Delete(cfg, w, id).world.vault, scope)
  {
    FailedDelete(cfg, w, id);
    var e :| e in AskedFor(cfg, w, id) && e in w.vault && LetsGo(cfg, w.vault, e);
    AskedAreRefs(cfg, w, id, e);
    var p := FindParser(w.dirs, id, true).value;
    assert EntryKey(e.plugin, Ref(w.dirs, p, id, e.plugin).value) !in Delete(cfg, w, id).world.vault;
  }

  lemma StoresCarryNothing(services: map<string, Service>, w: World)
    requires forall k | k in services :: IsStore(k) && LiveIds(w.vault, k) <= {"1"}
    ensures forall k :: Carried(Five(-1), Mail(services).(id := ID), w.items, w.vault, k).None?
  {
    forall k ensures Carried(Five(-1), Mail(services).(id := ID), w.items, w.vault, k).None? {
      if k in services {
        StoreWrites(-1, services, w.vault, w.items, k);
      }
    }
  }

  lemma GuardedIsSound()
    requires Made(-1, GUARDED).ok
    ensures RefsSound(Made(-1, GUARDED).world.dirs, Made(-1, GUARDED).world.vault, {0})
  {
    OneDirIsSound();
    FiveWriteFresh(-1);
    StoresCarryNothing(GUARDED, ONE_DIR);
    CreateKeepsRefsIff(Five(-1), ONE_DIR, Mail(GUARDED), ID, {0});
  }

  // ---------------------------------------------------------------- modifying

  lemma FirstPasses(maxCount: int, services: map<string, Service>, w: World, k: string)
    requires k in services && (k == "echo" || IsStore(k))
    ensures First(Five(maxCount), Mail(services).(id := ID), w.items, w.vault, k).ok
  {
    MailGiven(maxCount, services, ID);
    SavingIndependent(w.items, ID, "Mail", k, []);
    assert Grouped(NIL_ID, "Mail", k, []) == map[];
  }

  lemma ModifyMade(maxCount: int, before: map<string, Service>, services: map<string, Service>)
    requires Made(maxCount, before).ok && forall k | k in services :: k == "echo" || IsStore(k)
    ensures Modify(Five(maxCount), Made(maxCount, before).world, ID, Mail(services)).ok
  {
    var w := Made(maxCount, before).world;
    MadeWorld(maxCount, before);
    FiveAreClean(maxCount);
    MailGiven(maxCount, services, ID);
    ModifySucceedsIff(Five(maxCount), w, ID, Mail(services));
    forall k | k in services ensures First(Five(maxCount), Mail(services).(id := ID), w.items, w.vault, k).ok {
      FirstPasses(maxCount, services, w, k);
    }
  }

  lemma NothingMade(maxCount: int)
    ensures Made(maxCount, map[]).ok
    ensures Total(Five(maxCount), ONE_DIR.dirs, "echo") == 0
  {
    OneDirIsSound();
    FiveAreClean(maxCount);
    FiveAreListable(maxCount);
    MailGiven(maxCount, map[], ID);
    CreateSucceedsIff(Five(maxCount), ONE_DIR, Mail(map[]), ID);
    assert ONE_DIR.dirs[..0] == [];
    assert CountingFiles(Five(maxCount), ONE_DIR.dirs[0].files, "echo") == {};
  }

  const ECHOED := map["echo" := Plain(map[])]

  lemma NoneCounted()
    ensures Made(0, map[]).ok && Total(Five(0), Made(0, map[]).world.dirs, "echo") == 0
  {
    NothingMade(0);
    OneDirIsSound();
    CreateCount(Five(0), ONE_DIR, Mail(map[]), ID, "echo");
  }

  lemma OneCounted()
    requires Made(0, map[]).ok && Modify(Five(0), Made(0, map[]).world, ID, Mail(ECHOED)).ok
    ensures
      var w := Made(0, map[]).world;
      Total(Five(0), Modify(Five(0), w, ID, Mail(ECHOED)).world.dirs, "echo") == Total(Five(0), w.dirs, "echo") + 1
  {
    MadeWorld(0, map[]);
    EchoIsNew();
    ModifyCount(Five(0), Made(0, map[]).world, ID, Mail(ECHOED), "echo");
  }

  lemma EchoLimit(maxCount: int)
    ensures "echo" in Five(maxCount).plugins && Five(maxCount).plugins["echo"].maxCount == maxCount
  {
  }

  lemma NoneThenOne()
    ensures
      var w := Made(0, map[]).world;
      var o := Modify(Five(0), w, ID, Mail(ECHOED));
      Made(0, map[]).ok && o.ok && Total(Five(0), w.dirs, "echo") == 0 && Total(Five(0), o.world.dirs, "echo") == 1
  {
    NoneCounted();
    ModifyMade(0, map[], ECHOED);
    OneCounted();
  }

  /** A modification may add a service of which no account is allowed. */
  lemma LimitPassed()
    ensures
      var cfg, w := Five(0), Made(0, map[]).world;
      var o := Modify(cfg, w, ID, Mail(ECHOED));
      && Made(0, map[]).ok && o.ok && "echo" in cfg.plugins
      && Total(cfg, w.dirs, "echo") <= cfg.plugins["echo"].maxCount < Total(cfg, o.world.dirs, "echo")
  {
    NoneThenOne();
    EchoLimit(0);
  }

  lemma EchoIsNew()
    requires Made(0, map[]).ok
    ensures "echo" !in ReadAccount(Five(0), Made(0, map[]).world, ID, NEW_ACCOUNT).account.services
  {
    MadeWorld(0, map[]);
    OneDirIsSound();
    CreateThenRead(Five(0), ONE_DIR, Mail(map[]), ID);
  }

  lemma KeptIsSound()
    ensures Made(-1, KEPT).ok
    ensures
      var w := Made(-1, KEPT).world;
      RefsSound(w.dirs, w.vault, {0}) && NoGarbage(w.dirs, w.vault, {0})
  {
    MadeIff(KEPT);
    OneDirIsSound();
    FiveWriteFresh(-1);
    StoresCarryNothing(KEPT, ONE_DIR);
    CreateKeepsRefsIff(Five(-1), ONE_DIR, Mail(KEPT), ID, {0});
    CreateGarbageIff(Five(-1), ONE_DIR, Mail(KEPT), ID, {0});
  }

  lemma KeeperHasOne()
    ensures LiveIds(VerifyAccount(Five(-1), Mail(KEPT).(id := ID), [], map[]).vault, "keeper") == {"1"}
  {
    StoreWrites(-1, KEPT, map[], [], "keeper");
    var after := VerifyAccount(Five(-1), Mail(KEPT).(id := ID), [], map[]).vault;
    forall x ensures x in LiveIds(after, "keeper") <==> x == "1" {
      VerifiedKeys(Five(-1), Mail(KEPT).(id := ID), [], map[], EntryKey("keeper", x));
    }
  }

  lemma KeptEntries()
    requires Made(-1, KEPT).ok
    ensures LiveIds(Made(-1, KEPT).world.vault, "keeper") == {"1"}
  {
    MadeStores(-1, KEPT);
    KeeperHasOne();
  }

  lemma KeptCarriesNothing()
    requires Made(-1, KEPT).ok
    ensures
      var w := Made(-1, KEPT).world;
      Carried(Five(-1), Mail(KEPT).(id := ID), w.items, w.vault, "keeper").None?
  {
    KeptEntries();
    StoresCarryNothing(KEPT, Made(-1, KEPT).world);
  }

  lemma KeptIsNotCarriedOn()
    requires Made(-1, KEPT).ok
    ensures !CarriesOn(Five(-1), Mail(KEPT).(id := ID), Made(-1, KEPT).world, 0)
  {
    KeptCarriesNothing();
    MadeStored(KEPT, "keeper");
    assert RefersTo(Made(-1, KEPT).world, 0, ID, EntryKey("keeper", "1"));
  }

  /** Modifying an account as it was created leaves an entry that no file refers to any more. */
  lemma ModifyLeavesGarbage()
    ensures
      var w := Made(-1, KEPT).world;
      var o := Modify(Five(-1), w, ID, Mail(KEPT));
      Made(-1, KEPT).ok && o.ok && NoGarbage(w.dirs, w.vault, {0}) && !NoGarbage(o.world.dirs, o.world.vault, {0})
  {
    KeptIsSound();
    MadeWorld(-1, KEPT);
    ModifyMade(-1, KEPT, KEPT);
    FiveWriteFresh(-1);
    ModifyGarbageIff(Five(-1), Made(-1, KEPT).world, ID, Mail(KEPT), {0});
    KeptIsNotCarriedOn();
  }

  const LIKED := map["critic" := Plain(map[])]

  lemma OneServiceItems(account: Account)
    requires account.services.Keys == {"critic"} && Given(Five(-1), account) == account && Begins(Five(-1), account)
    requires VerifyAccount(Five(-1), account, [], map[]).ok
    ensures VerifyAccount(Five(-1), account, [], map[]).items
         == Serve(Five(-1), account.id, account.title, "critic", account.services["critic"], [], map[]).items
  {
    var names := ["critic"];
    SortedUnique({"critic"}, names);
    assert Sorted(account.services.Keys) == names && names[..|names| - 1] == [];
    assert VerifyNames(Five(-1), account, [], map[], []) == ServicesRun(true, account.services, [], map[]);
    assert VerifyNames(Five(-1), account, [], map[], names).items
        == Serve(Five(-1), account.id, account.title, "critic", account.services["critic"], [], map[]).items;
  }

  lemma LikedSecrets()
    ensures Made(-1, LIKED).ok && Made(-1, LIKED).world.items == [Password(ID)]
  {
    MadeIff(LIKED);
    MadeStores(-1, LIKED);
    MailGiven(-1, LIKED, ID);
    OneServiceItems(Mail(LIKED).(id := ID));
    CriticServes();
  }

  lemma CriticServes()
    ensures Serve(Five(-1), ID, "Mail", "critic", Plain(map[]), [], map[]).items == [Password(ID)]
  {
    PasswordAccepted(ID);
    OneToken(ID, "Mail", "critic", PASSWORD);
  }

  /** A failed modification drops the secret that was saved when the account was created. */
  lemma ModifyDropsSecret()
    ensures
      var w := Made(-1, LIKED).world;
      var o := Modify(Five(-1), w, ID, Mail(BAD));
      Made(-1, LIKED).ok && w.items == [Password(ID)] && !o.ok && o.world.items == []
  {
    var cfg, w, act := Five(-1), Made(-1, LIKED).world, Mail(BAD).(id := ID);
    LikedSecrets();
    MadeWorld(-1, LIKED);
    FiveAreClean(-1);
    MailGiven(-1, BAD, ID);
    ModifySucceedsIff(cfg, w, ID, Mail(BAD));
    assert !First(cfg, act, w.items, w.vault, "critic").ok;
    FailedModify(cfg, w, ID, Mail(BAD));
    PasswordGoes(Sorted(BAD.Keys));
  }

  lemma PasswordGoes(names: seq<string>)
    requires "critic" in names
    ensures Retained([Password(ID)], ID, names) == []
  {
    PasswordAccepted(ID);
    var i :| 0 <= i < |names| && names[i] == "critic";
    assert Owned(Password(ID), ID, names[i]);
    assert [Password(ID)][..0] == [];
  }

  // ---------------------------------------------------------------- an item sent elsewhere by its token

  /** A token that names another service puts an item into the store that the other service owns. */
  lemma TokenSendsElsewhere(id: Uuid, title: string)
    ensures
      var t := Token("key", "secret", map["schema" := "password", "username" := "ann", "service" := "chat"]);
      var stored := SaveTokens([], id, title, "mail", [t]);
      stored.ok && |stored.items| == 1 && Owned(stored.items[0], id, "chat") && !Owned(stored.items[0], id, "mail")
  {
    var t := Token("key", "secret", map["schema" := "password", "username" := "ann", "service" := "chat"]);
    var item := WithToken(SecretItem("", map[], map[]), id, title, "mail", t);
    assert item.attributes["schema"] == "password" && item.attributes["service"] == "chat"
        && item.attributes["account_id"] == id;
    assert "username" in item.attributes && Accepts(item);
    OneToken(id, title, "mail", t);
    BelongsMeaning(item, id);
    OwnedMeaning(item, id, "chat");
    OwnedMeaning(item, id, "mail");
  }

  // ---------------------------------------------------------------- a loop that does not end

  /** The simulator's delete loop never gets past an item of another account. */
  lemma EraseOnlyForEver(n: nat)
    ensures EraseOnlyTurns([Password(ID)], AccountQuery(NIL_ID), n) != []
  {
    EraseOnlyTerminates([Password(ID)], AccountQuery(NIL_ID));
    PasswordAccepted(ID);
    OwnedMeaning(Password(ID), ID, "critic");
    BelongsMeaning(Password(ID), ID);
    BelongsMeaning(Password(ID), NIL_ID);
    assert Password(ID) in [Password(ID)];
  }
}
