/** When operations succeed, and what single operations leave behind: exact effects, on every store. */
module Frames {
  import opened Base
  import opened Secrets
  import opened Plugins
  import opened Accounts
  import opened Environment
  import opened AccountObjects
  import opened Lifecycle
  import opened AccountLaws
  import opened Turns
  import opened VaultLaws
  import opened Alone
  import opened StepLaws
  import opened Invariants
  import opened Garbage
  import opened Limits

  // ---------------------------------------------------------------- success

  /** A create gets as far as verifying the account. */
  ghost predicate CreateReaches(cfg: Config, w: World, act: Account) {
    FindParser(w.dirs, NIL_ID, true).Some? && HasRoom(cfg, w.dirs, act.services.Keys) && Begins(cfg, act)
  }

  /** And every service, as given and with its provider's parameters, passes its plugin's checks. */
  ghost predicate CreatePasses(cfg: Config, w: World, act: Account) {
    GivenKeys(cfg, act);
    CreateReaches(cfg, w, act) && forall k | k in act.services ::
        Passes(cfg, act.title, k, Given(cfg, act).services[k].params)
  }

  /**
   A create goes through iff there is a writable directory, there is room under the limit of every service's
   plugin, title and provider are in order, and every service passes its plugin's checks with tokens that can
   be stored.
   */
  lemma CreateSucceedsIff(cfg: Config, w: World, account: Account, newId: Uuid)
    requires Listable(cfg.dirOrder) && CleanPlugins(cfg) && WellKept(w.dirs) && Fresh(w, newId)
    ensures Create(cfg, w, account, newId).ok <==> CreatePasses(cfg, w, account.(id := newId))
  {
    var act := account.(id := newId);
    GivenKeys(cfg, act);
    CreateOutcome(cfg, w, account, newId);
    LimitsAllowIff(cfg, w.dirs, act);
    VerifiesIff(cfg, act, w.items, w.vault);
    forall k | k in account.services
      ensures First(cfg, act, w.items, w.vault, k).ok
           <==> Passes(cfg, account.title, k, Given(cfg, act).services[k].params)
    {
      FirstOfNew(cfg, act, w.items, w.vault, k);
    }
  }

  /** A modification gets as far as verifying the services. */
  predicate ModifyReaches(cfg: Config, w: World, id: Uuid, account: Account) {
    && ReadAccount(cfg, w, id, NEW_ACCOUNT).ok && FindParser(w.dirs, id, true).Some?
    && Begins(cfg, account)
  }

  /** And every service alone, with the saved secrets, verifies. */
  ghost predicate ModifyPasses(cfg: Config, w: World, act: Account) {
    ModifyReaches(cfg, w, act.id, act) && forall k | k in act.services :: First(cfg, act, w.items, w.vault, k).ok
  }

  /** A modify goes through iff it gets that far and each service alone, with the saved secrets, would. */
  lemma ModifySucceedsIff(cfg: Config, w: World, id: Uuid, account: Account)
    requires CleanPlugins(cfg) && WellKept(w.dirs) && UserFirst(w.dirs)
    ensures Modify(cfg, w, id, account).ok <==> ModifyPasses(cfg, w, account.(id := id))
  {
    ModifyOutcome(cfg, w, id, account);
    VerifiesIff(cfg, account.(id := id), w.items, w.vault);
  }

  // ---------------------------------------------------------------- failure

  /** A failed create leaves directories, statuses, the log and the secret store as they were. */
  lemma FailedCreate(cfg: Config, w: World, account: Account, newId: Uuid)
    requires CleanPlugins(cfg) && WellKept(w.dirs) && Fresh(w, newId) && !Create(cfg, w, account, newId).ok
    ensures
      var o := Create(cfg, w, account, newId);
      o.world == w.(vault := o.world.vault)
  {
    CreateOutcome(cfg, w, account, newId);
    CreateSecrets(cfg, w, account, newId);
  }

  /** What the plugin writes for its service alone, if the account is verified at all. */
  ghost function WriteIf(reached: bool, cfg: Config, act: Account, w: World, k: string): Option<Written> {
    if reached && k in act.services then FirstWrite(cfg, act, w.items, w.vault, k) else None
  }

  /** The storage after a failed operation that verified the account, or did not get that far. */
  ghost predicate LeavesWrites(cfg: Config, act: Account, w: World, after: Vault, reached: bool) {
    forall e: EntryKey ::
        EntryOf(after, e.plugin, e.id) == EntryAfter(w.vault, e, WriteIf(reached, cfg, act, w, e.plugin))
  }

  lemma VerifiedLeaves(cfg: Config, act: Account, w: World)
    requires CleanPlugins(cfg)
    ensures LeavesWrites(cfg, act, w, VerifyAccount(cfg, act, w.items, w.vault).vault, Begins(cfg, act))
  {
    forall e: EntryKey
      ensures EntryOf(VerifyAccount(cfg, act, w.items, w.vault).vault, e.plugin, e.id)
           == EntryAfter(w.vault, e, WriteIf(Begins(cfg, act), cfg, act, w, e.plugin))
    {
      VerifiedEntries(cfg, act, w.items, w.vault, e);
      if Begins(cfg, act) && e.plugin in act.services {
        WritesAlone(cfg, act, w.items, w.vault, e.plugin);
      }
    }
  }

  /**
   What a failed create leaves in plugin storage: exactly the entries of the services whose plugins write
   them, each as if it were the only service. The storage is as it was iff none of them does: whether one
   does is told by verify, authenticate and write on the given parameters.
   */
  lemma FailedCreateStorage(cfg: Config, w: World, account: Account, newId: Uuid)
    requires Listable(cfg.dirOrder) && CleanPlugins(cfg) && WellKept(w.dirs) && Fresh(w, newId)
    requires !Create(cfg, w, account, newId).ok
    ensures
      var act := account.(id := newId);
      var after := Create(cfg, w, account, newId).world.vault;
      && Given(cfg, act).services.Keys == account.services.Keys
      && LeavesWrites(cfg, act, w, after, CreateReaches(cfg, w, act))
      && (FreshWrites(cfg) ==>
           (after == w.vault <==>
             (CreateReaches(cfg, w, act) ==>
               forall k | k in account.services ::
                   !Stores(cfg, account.title, k, Given(cfg, act).services[k].params, w.vault))))
  {
    var act := account.(id := newId);
    CreateOutcome(cfg, w, account, newId);
    GivenKeys(cfg, act);
    LimitsAllowIff(cfg, w.dirs, act);
    VerifiedLeaves(cfg, act, w);
    if FreshWrites(cfg) && CreateReaches(cfg, w, act) {
      NewStoresNothingIff(cfg, act, w);
      UnchangedIff(cfg, act, w);
    }
  }

  /** For an account without saved secrets, in terms of the plugins' functions. */
  lemma NewStoresNothingIff(cfg: Config, act: Account, w: World)
    requires CleanPlugins(cfg) && Begins(cfg, act) && Given(cfg, act).services.Keys == act.services.Keys
    requires forall i | 0 <= i < |w.items| :: !Matches(w.items[i], AccountQuery(act.id))
    ensures StoresNothing(cfg, act, w) <==>
            forall k | k in act.services :: !Stores(cfg, act.title, k, Given(cfg, act).services[k].params, w.vault)
  {
    forall k | k in act.services
      ensures Writes(cfg, act, w.items, w.vault, k).Some?
           <==> Stores(cfg, act.title, k, Given(cfg, act).services[k].params, w.vault)
    {
      WritesAlone(cfg, act, w.items, w.vault, k);
      FirstOfNew(cfg, act, w.items, w.vault, k);
    }
    forall k | k !in act.services ensures Writes(cfg, act, w.items, w.vault, k).None? {
    }
  }

  /**
   A failed modify leaves directories, statuses and the log as they were. If it got as far as the
   services, exactly the secrets of the services named in the new account are gone; otherwise none are.
   Plugin storage has exactly the entries besides that the plugins wrote for the new version.
   */
  lemma FailedModify(cfg: Config, w: World, id: Uuid, account: Account)
    requires CleanPlugins(cfg)
    requires WellKept(w.dirs) && UserFirst(w.dirs) && !Modify(cfg, w, id, account).ok
    ensures
      var w' := Modify(cfg, w, id, account).world;
      && w'.dirs == w.dirs && w'.status == w.status && w'.log == w.log
      && w'.items == (if ModifyReaches(cfg, w, id, account)
                      then Retained(w.items, id, Sorted(account.services.Keys)) else w.items)
      && LeavesWrites(cfg, account.(id := id), w, w'.vault, ModifyReaches(cfg, w, id, account))
  {
    var act := account.(id := id);
    ModifyOutcome(cfg, w, id, account);
    ReadAccountMeaning(cfg, w, id);
    VerifiedLeaves(cfg, act, w);
    if id != NIL_ID {
      VerifiedSecrets(cfg, act, w.items, w.vault);
    }
  }

  // ---------------------------------------------------------------- what is written and read back

  /**
   For each service of a verified account the file lists the reference its plugin answered with, and
   nothing else, or exactly the unprotected parameters of the plugin's answer to what the caller and the
   provider gave.
   */
  lemma FileStoresPublic(cfg: Config, account: Account, items: seq<SecretItem>, vault: Vault, k: string)
    requires VerifyAccount(cfg, account, items, vault).ok && k in account.services
    ensures
      var listing := Listing(Print(VerifyAccount(cfg, account, items, vault).account));
      && k in listing && k in cfg.plugins && k in Given(cfg, account).services
      && listing[k] == Result(Writes(cfg, account, items, vault, k),
          Answer(cfg, k, Given(cfg, account).services[k].params))
  {
    VerifiedShown(cfg, account, items, vault, k);
    ListingOfPrint(VerifyAccount(cfg, account, items, vault).account);
  }

  /** A plugin reads back what it wrote. */
  ghost predicate ReadsBack(cfg: Config) {
    forall t, id, params | t in cfg.plugins :: cfg.plugins[t].read(id, Some(params)) == Some(params)
  }

  /**
   What a service reads back as: if its plugin stored it, what the plugin reads from the entry it wrote, or
   the bare reference if it cannot; if not, what its public answer reads back as.
   */
  function ReadsAs(cfg: Config, vault: Vault, k: string, written: Option<Written>, answer: StrMap): StrMap
    requires k in cfg.plugins
  {
    match written
    case Some(e) =>
      var read := cfg.plugins[k].read(e.id, Some(e.params));
      if read.Some? then read.value else map[PLUGIN_ID := e.id]
    case None => Seen(cfg, vault, k, answer)
  }

  /**
   Each service of an account that was verified, against the given secrets and storage, shows what its plugin
   reads from the entry it wrote, or the unprotected parameters of the plugin's answer.
   */
  ghost predicate Shows(cfg: Config, account: Account, items: seq<SecretItem>, vault: Vault, after: Vault,
                        services: map<string, Service>) {
    GivenKeys(cfg, account);
    && services.Keys == account.services.Keys <= cfg.plugins.Keys
    && forall k | k in account.services ::
         services[k] == Plain(ReadsAs(cfg, after, k, Writes(cfg, account, items, vault, k),
                                      Answer(cfg, k, Given(cfg, account).services[k].params)))
  }

  /** A created account can be read at once: title, provider, flag and settings are those given. */
  lemma CreateThenRead(cfg: Config, w: World, account: Account, newId: Uuid)
    requires WellKept(w.dirs) && Unused(w, newId) && Create(cfg, w, account, newId).ok
    ensures
      var o := Create(cfg, w, account, newId);
      var r := ReadAccount(cfg, o.world, newId, NEW_ACCOUNT);
      && r.ok
      && r.account == account.(id := newId, services := r.account.services)
      && Shows(cfg, account.(id := newId), w.items, w.vault, o.world.vault, r.account.services)
  {
    var o := Create(cfg, w, account, newId);
    CreateOutcome(cfg, w, account, newId);
    VerifiedAccount(cfg, account.(id := newId), w.items, w.vault);
    WriteThenRead(cfg, w, FindParser(w.dirs, NIL_ID, true).value, o.account, o.world);
    VerifiedShows(cfg, account.(id := newId), w.items, w.vault);
  }

  /** So can a modified one, with the id it had. */
  lemma ModifyThenRead(cfg: Config, w: World, id: Uuid, account: Account)
    requires WellKept(w.dirs) && UserFirst(w.dirs) && Modify(cfg, w, id, account).ok
    ensures
      var o := Modify(cfg, w, id, account);
      var r := ReadAccount(cfg, o.world, id, NEW_ACCOUNT);
      && r.ok
      && r.account == account.(id := id, services := r.account.services)
      && Shows(cfg, account.(id := id), w.items, w.vault, o.world.vault, r.account.services)
  {
    var o := Modify(cfg, w, id, account);
    ModifyOutcome(cfg, w, id, account);
    VerifiedAccount(cfg, account.(id := id), w.items, w.vault);
    WriteThenRead(cfg, w, FindParser(w.dirs, id, true).value, o.account, o.world);
    VerifiedShows(cfg, account.(id := id), w.items, w.vault);
  }

  /** An account whose file was written into the first directory that has one under its id. */
  lemma WriteThenRead(cfg: Config, w: World, p: nat, account: Account, after: World)
    requires WellKept(w.dirs) && p < |w.dirs| && account.id != NIL_ID && account.services.Keys <= cfg.plugins.Keys
    requires forall i | 0 <= i < p :: account.id !in w.dirs[i].files
    requires after.dirs == WithFile(w.dirs, p, account.id, Print(account))
    ensures ReadAccount(cfg, after, account.id, NEW_ACCOUNT)
         == ReadResult(true, account.(services := SeenAll(cfg, after.vault, PublicServices(account.services))))
  {
    WrittenIsSelected(w.dirs, p, account.id, Print(account));
    WriteKeepsWell(w.dirs, p, account);
    ReadAccountMeaning(cfg, after, account.id);
    ReadOfPrint(cfg.plugins.Keys, account);
    ListingOfPrint(account);
    ReadNew(cfg.plugins.Keys, Print(account));
  }

  lemma VerifiedShows(cfg: Config, account: Account, items: seq<SecretItem>, vault: Vault)
    requires VerifyAccount(cfg, account, items, vault).ok
    ensures
      var r := VerifyAccount(cfg, account, items, vault);
      Shows(cfg, account, items, vault, r.vault, SeenAll(cfg, r.vault, PublicServices(r.account.services)))
  {
    var r := VerifyAccount(cfg, account, items, vault);
    VerifiedAccount(cfg, account, items, vault);
    GivenKeys(cfg, account);
    forall k | k in account.services
      ensures Seen(cfg, r.vault, k, Unprotected(r.account.services[k]))
           == ReadsAs(cfg, r.vault, k, Writes(cfg, account, items, vault, k),
                      Answer(cfg, k, Given(cfg, account).services[k].params))
    {
      VerifiedSeen(cfg, account, items, vault, k);
    }
  }

  /** A service of a verified account, read back in the storage that the verification has left. */
  lemma VerifiedSeen(cfg: Config, account: Account, items: seq<SecretItem>, vault: Vault, k: string)
    requires VerifyAccount(cfg, account, items, vault).ok && k in account.services
    ensures
      var r := VerifyAccount(cfg, account, items, vault);
      && k in r.account.services && k in Given(cfg, account).services && k in cfg.plugins
      && Seen(cfg, r.vault, k, Unprotected(r.account.services[k]))
         == ReadsAs(cfg, r.vault, k, Writes(cfg, account, items, vault, k),
                    Answer(cfg, k, Given(cfg, account).services[k].params))
  {
    VerifiedShown(cfg, account, items, vault, k);
    var w := Writes(cfg, account, items, vault, k);
    if w.Some? {
      VerifiedEntries(cfg, account, items, vault, EntryKey(k, w.value.id));
    }
  }

  /** With a plugin that reads back what it wrote, a live reference shows exactly the stored parameters. */
  lemma ReferenceShowsEntry(cfg: Config, w: World, id: Uuid, k: string, pluginId: string)
    requires ReadsBack(cfg) && WellKept(w.dirs) && ReadAccount(cfg, w, id, NEW_ACCOUNT).ok
    requires EntryKey(k, pluginId) in w.vault
    requires Selected(w.dirs, id).Some? && k in Listing(Selected(w.dirs, id).value)
    requires PLUGIN_ID in Listing(Selected(w.dirs, id).value)[k]
    requires Listing(Selected(w.dirs, id).value)[k][PLUGIN_ID] == pluginId
    ensures
      var services := ReadAccount(cfg, w, id, NEW_ACCOUNT).account.services;
      k in services && services[k] == Plain(w.vault[EntryKey(k, pluginId)])
  {
    ReadAccountMeaning(cfg, w, id);
    ReadNew(cfg.plugins.Keys, Selected(w.dirs, id).value);
    assert k in Listing(Selected(w.dirs, id).value).Keys;
    assert cfg.plugins[k].read(pluginId, Some(w.vault[EntryKey(k, pluginId)])).Some?;
  }
}
