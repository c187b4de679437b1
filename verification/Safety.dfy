/** What holds after every run, whatever its steps and however they end. */
module Safety {
  import opened Base
  import opened Secrets
  import opened Plugins
  import opened Accounts
  import opened Services
  import opened Environment
  import opened AccountObjects
  import opened Lifecycle
  import opened ServiceLaws
  import opened AccountLaws
  import opened VaultLaws
  import opened StepLaws
  import opened Invariants
  import opened References
  import opened Events
  import opened Overlays
  import opened Limits
  import opened Runs

  // ---------------------------------------------------------------- directories

  ghost predicate InOrder(dirs: seq<Dir>) {
    WellKept(dirs) && UserFirst(dirs)
  }

  /** Same directories in the same order, and the read-only ones with the very same files. */
  ghost predicate ReadOnlyKept(before: seq<Dir>, after: seq<Dir>) {
    && |before| == |after|
    && forall i | 0 <= i < |before| ::
         before[i].readOnly == after[i].readOnly && (before[i].readOnly ==> before[i] == after[i])
  }

  /**
   The directories are the user's and then the read-only ones, each in the order given and with its files, and
   among those that can be written the first is taken.
   */
  lemma {:induction false} OpenedUserFirst(userDirs: seq<map<Uuid, Document>>, readOnlyDirs: seq<map<Uuid, Document>>)
    ensures
      var dirs, n := Opened(userDirs, readOnlyDirs), |userDirs|;
      && |dirs| == n + |readOnlyDirs|
      && (forall i | 0 <= i < |dirs| :: dirs[i].readOnly <==> i >= n)
      && forall i | 0 <= i < |dirs| :: dirs[i].files == if i < n then userDirs[i] else readOnlyDirs[i - n]
    ensures UserFirst(Opened(userDirs, readOnlyDirs))
    ensures FindParser(Opened(userDirs, readOnlyDirs), NIL_ID, true) == if userDirs == [] then None else Some(0)
  {
    var dirs := Opened(userDirs, readOnlyDirs);
    if userDirs != [] {
      FirstIs(dirs, NIL_ID, true, 0);
    }
  }

  lemma StatusKeepsStores(cfg: Config, w: World, id: Uuid, now: Status)
    ensures
      var w' := SetStatus(cfg, w, id, now).world;
      w'.dirs == w.dirs && w'.items == w.items && w'.vault == w.vault
  {
  }

  lemma FileChangeKeeps(dirs: seq<Dir>, p: nat, account: Account)
    requires InOrder(dirs) && p < |dirs| && !dirs[p].readOnly
    ensures account.id != NIL_ID ==>
      InOrder(WithFile(dirs, p, account.id, Print(account)))
          && ReadOnlyKept(dirs, WithFile(dirs, p, account.id, Print(account)))
    ensures InOrder(WithoutFile(dirs, p, account.id)) && ReadOnlyKept(dirs, WithoutFile(dirs, p, account.id))
  {
    RemoveKeepsWell(dirs, p, account.id);
    if account.id != NIL_ID {
      WriteKeepsWell(dirs, p, account);
    }
  }

  lemma {:induction false} StepDirs(cfg: Config, w: World, op: Op)
    requires InOrder(w.dirs) && Enabled(cfg, w, op) && !op.AutoInitOp?
    ensures
      var w' := Apply(cfg, w, op);
      InOrder(w'.dirs) && ReadOnlyKept(w.dirs, w'.dirs)
  {
    match op
    case CreateOp(account, newId) => CreateDirs(cfg, w, account, newId);
    case ModifyOp(id, account) => ModifyDirs(cfg, w, id, account);
    case DeleteOp(id) => DeleteDirs(cfg, w, id);
    case SetStatusOp(id, now) => StatusKeepsStores(cfg, w, id, now);
  }

  lemma CreateDirs(cfg: Config, w: World, account: Account, newId: Uuid)
    requires InOrder(w.dirs) && Unused(w, newId)
    ensures
      var dirs := Create(cfg, w, account, newId).world.dirs;
      InOrder(dirs) && ReadOnlyKept(w.dirs, dirs)
  {
    CreateOutcome(cfg, w, account, newId);
    var o := Create(cfg, w, account, newId);
    if o.ok {
      FileChangeKeeps(w.dirs, FindParser(w.dirs, NIL_ID, true).value, o.account);
    }
  }

  lemma {:induction false} ModifyDirs(cfg: Config, w: World, id: Uuid, account: Account)
    requires InOrder(w.dirs)
    ensures
      var dirs := Modify(cfg, w, id, account).world.dirs;
      InOrder(dirs) && ReadOnlyKept(w.dirs, dirs)
  {
    ModifyOutcome(cfg, w, id, account);
    var o := Modify(cfg, w, id, account);
    if o.ok {
      FileChangeKeeps(w.dirs, FindParser(w.dirs, id, true).value, o.account);
    }
  }

  lemma DeleteDirs(cfg: Config, w: World, id: Uuid)
    requires InOrder(w.dirs)
    ensures
      var dirs := Delete(cfg, w, id).world.dirs;
      InOrder(dirs) && ReadOnlyKept(w.dirs, dirs)
  {
    DeleteOutcome(cfg, w, id);
    if Delete(cfg, w, id).ok {
      FileChangeKeeps(w.dirs, FindParser(w.dirs, id, true).value, NEW_ACCOUNT.(id := id));
    }
  }

  lemma {:induction false} BasicRunDirs(cfg: Config, w: World, ops: seq<Op>)
    requires InOrder(w.dirs) && ValidRun(cfg, w, ops) && Basic(ops)
    ensures
      var w' := Run(cfg, w, ops);
      InOrder(w'.dirs) && ReadOnlyKept(w.dirs, w'.dirs)
    decreases |ops|
  {
    if ops != [] {
      StepDirs(cfg, w, ops[0]);
      BasicRunDirs(cfg, Apply(cfg, w, ops[0]), ops[1..]);
    }
  }

  /** Files stay named after their accounts, and the directories stay in order. */
  lemma {:induction false} OrderKept(cfg: Config, w: World, ops: seq<Op>)
    requires InOrder(w.dirs) && ValidRun(cfg, w, ops)
    ensures InOrder(Run(cfg, w, ops).dirs)
  {
    var basic := AsBasic(cfg, w, ops, "");
    BasicRunDirs(cfg, w, basic);
  }

  lemma StoreKeepsReadOnly(cfg: Config, w: World, p: nat, account: Account, id: Uuid)
    requires p < |w.dirs|
    ensures ReadOnlyKept(w.dirs, Store(cfg, w, p, account, id).world.dirs)
  {
  }

  lemma {:induction false} StepKeepsReadOnly(cfg: Config, w: World, op: Op)
    requires Enabled(cfg, w, op) && !op.AutoInitOp?
    ensures ReadOnlyKept(w.dirs, Apply(cfg, w, op).dirs)
  {
    match op
    case CreateOp(account, newId) => CreateKeepsReadOnly(cfg, w, account, newId);
    case ModifyOp(id, account) => ModifyKeepsReadOnly(cfg, w, id, account);
    case DeleteOp(id) => DeleteKeepsReadOnly(cfg, w, id);
    case SetStatusOp(id, now) => StatusKeepsStores(cfg, w, id, now);
  }

  lemma CreateKeepsReadOnly(cfg: Config, w: World, account: Account, newId: Uuid)
    ensures ReadOnlyKept(w.dirs, Create(cfg, w, account, newId).world.dirs)
  {
    var p := FindParser(w.dirs, NIL_ID, true);
    var r := VerifyAccount(cfg, account.(id := newId), w.items, w.vault);
    if p.Some? {
      StoreKeepsReadOnly(cfg, w.(items := r.items, vault := r.vault), p.value, r.account, newId);
    }
  }

  lemma ModifyKeepsReadOnly(cfg: Config, w: World, id: Uuid, account: Account)
    ensures ReadOnlyKept(w.dirs, Modify(cfg, w, id, account).world.dirs)
  {
    var was := ReadAccount(cfg, w, id, NEW_ACCOUNT);
    var p := FindParser(w.dirs, was.account.id, true);
    var r := VerifyAccount(cfg, account.(id := id), w.items, w.vault);
    if p.Some? {
      StoreKeepsReadOnly(cfg, w.(items := r.items, vault := r.vault), p.value, r.account, was.account.id);
    }
  }

  lemma DeleteKeepsReadOnly(cfg: Config, w: World, id: Uuid)
    ensures ReadOnlyKept(w.dirs, Delete(cfg, w, id).world.dirs)
  {
  }

  lemma {:induction false} BasicRunReadOnly(cfg: Config, w: World, ops: seq<Op>)
    requires ValidRun(cfg, w, ops) && Basic(ops)
    ensures ReadOnlyKept(w.dirs, Run(cfg, w, ops).dirs)
    decreases |ops|
  {
    if ops != [] {
      StepKeepsReadOnly(cfg, w, ops[0]);
      BasicRunReadOnly(cfg, Apply(cfg, w, ops[0]), ops[1..]);
    }
  }

  /** No run changes a read-only directory, whatever files the directories hold and in whatever order they are. */
  lemma {:induction false} ReadOnlyUntouched(cfg: Config, w: World, ops: seq<Op>)
    requires ValidRun(cfg, w, ops)
    ensures ReadOnlyKept(w.dirs, Run(cfg, w, ops).dirs)
  {
    var basic := AsBasic(cfg, w, ops, "");
    BasicRunReadOnly(cfg, w, basic);
  }

  // ---------------------------------------------------------------- secrets

  lemma StepHoused(cfg: Config, w: World, op: Op)
    requires CleanPlugins(cfg)
    requires InOrder(w.dirs) && NoOrphans(w.dirs, w.items) && Enabled(cfg, w, op) && !op.AutoInitOp?
    ensures
      var w' := Apply(cfg, w, op);
      NoOrphans(w'.dirs, w'.items)
  {
    match op
    case CreateOp(account, newId) => CreateKeepsHoused(cfg, w, account, newId);
    case ModifyOp(id, account) => ModifyKeepsHoused(cfg, w, id, account);
    case DeleteOp(id) => DeleteKeepsHoused(cfg, w, id);
    case SetStatusOp(id, now) => StatusKeepsStores(cfg, w, id, now);
  }

  lemma {:induction false} BasicRunHoused(cfg: Config, w: World, ops: seq<Op>)
    requires CleanPlugins(cfg)
    requires InOrder(w.dirs) && NoOrphans(w.dirs, w.items) && ValidRun(cfg, w, ops) && Basic(ops)
    ensures
      var w' := Run(cfg, w, ops);
      NoOrphans(w'.dirs, w'.items)
    decreases |ops|
  {
    if ops != [] {
      StepDirs(cfg, w, ops[0]);
      StepHoused(cfg, w, ops[0]);
      BasicRunHoused(cfg, Apply(cfg, w, ops[0]), ops[1..]);
    }
  }

  /** After every run, each secret belongs to a service that its account's file lists. */
  lemma {:induction false} NoOrphanSecrets(cfg: Config, w: World, ops: seq<Op>)
    requires CleanPlugins(cfg)
    requires InOrder(w.dirs) && NoOrphans(w.dirs, w.items) && ValidRun(cfg, w, ops)
    ensures
      var w' := Run(cfg, w, ops);
      NoOrphans(w'.dirs, w'.items)
  {
    var basic := AsBasic(cfg, w, ops, "");
    BasicRunHoused(cfg, w, basic);
  }

  // ---------------------------------------------------------------- the event log

  lemma {:induction false} StepReplays(cfg: Config, w: World, op: Op)
    requires InOrder(w.dirs) && Replays(w.log, w.status) && Enabled(cfg, w, op) && !op.AutoInitOp?
    ensures
      var w' := Apply(cfg, w, op);
      Replays(w'.log, w'.status) && w.log <= w'.log
  {
    match op
    case CreateOp(account, newId) => CreateReplays(cfg, w, account, newId); CreateOutcome(cfg, w, account, newId);
    case ModifyOp(id, account) => ModifyReplays(cfg, w, id, account); ModifyOutcome(cfg, w, id, account);
    case DeleteOp(id) => DeleteReplays(cfg, w, id); DeleteOutcome(cfg, w, id);
    case SetStatusOp(id, now) => SetStatusReplays(cfg, w, id, now);
  }

  lemma {:induction false} BasicRunReplays(cfg: Config, w: World, ops: seq<Op>)
    requires InOrder(w.dirs) && Replays(w.log, w.status) && ValidRun(cfg, w, ops) && Basic(ops)
    ensures
      var w' := Run(cfg, w, ops);
      Replays(w'.log, w'.status) && w.log <= w'.log
    decreases |ops|
  {
    if ops != [] {
      StepDirs(cfg, w, ops[0]);
      StepReplays(cfg, w, ops[0]);
      BasicRunReplays(cfg, Apply(cfg, w, ops[0]), ops[1..]);
    }
  }

  /** After every run, replaying the log gives the status of every account, and every announced change was one. */
  lemma {:induction false} LogTellsStatus(cfg: Config, w: World, ops: seq<Op>)
    requires InOrder(w.dirs) && Replays(w.log, w.status) && ValidRun(cfg, w, ops)
    ensures
      var w' := Run(cfg, w, ops);
      Replays(w'.log, w'.status) && w.log <= w'.log
  {
    var basic := AsBasic(cfg, w, ops, "");
    BasicRunReplays(cfg, w, basic);
  }

  // ---------------------------------------------------------------- plugin references

  /** The state before the n-th plugin's turn of an initialisation. */
  ghost function TurnAt(cfg: Config, w: World, listed: seq<Account>, titles: seq<string>, ids: seq<Uuid>, n: nat): World
    requires |titles| == |ids| && n <= |ids| && forall t | t in titles :: t in cfg.plugins
  {
    AutoInitUpTo(cfg, w, listed, titles[..n], ids[..n])
  }

  ghost predicate TurnCarriesWell(cfg: Config, w: World, listed: seq<Account>, title: string, id: Uuid, scope: set<int>)
    requires title in cfg.plugins
  {
    cfg.plugins[title].autoInit && CountService(listed, title) == 0 ==>
      CreateCarriesWell(cfg, w, DefaultAccount(title), id, scope)
  }

  /** The first m plugins' turns carry well. */
  ghost predicate TurnsCarryWell(cfg: Config, w: World, listed: seq<Account>, titles: seq<string>, ids: seq<Uuid>,
                                 m: nat, scope: set<int>)
    requires |titles| == |ids| && m <= |ids| && forall t | t in titles :: t in cfg.plugins
  {
    m > 0 ==>
      TurnsCarryWell(cfg, w, listed, titles, ids, m - 1, scope)
      && TurnCarriesWell(cfg, TurnAt(cfg, w, listed, titles, ids, m - 1), listed, titles[m - 1], ids[m - 1], scope)
  }

  /** References are live and unshared after each of the first m turns. */
  ghost predicate TurnsSound(cfg: Config, w: World, listed: seq<Account>, titles: seq<string>, ids: seq<Uuid>, m: nat,
                             scope: set<int>)
    requires |titles| == |ids| && m <= |ids| && forall t | t in titles :: t in cfg.plugins
  {
    var w' := TurnAt(cfg, w, listed, titles, ids, m);
    RefsSound(w'.dirs, w'.vault, scope) && (m > 0 ==> TurnsSound(cfg, w, listed, titles, ids, m - 1, scope))
  }

  /**
   Where the step writes an account file, the account carries only references that are live and not used
   elsewhere; and it is not a delete that a plugin refuses after another has let an entry go.
   */
  ghost predicate Harmless(cfg: Config, w: World, op: Op, scope: set<int>)
    requires Enabled(cfg, w, op)
  {
    match op
    case CreateOp(account, newId) => CreateCarriesWell(cfg, w, account, newId, scope)
    case ModifyOp(id, account) => ModifyCarriesWell(cfg, w, id, account, scope)
    case AutoInitOp(ids) =>
      var listed, titles := ListAll(cfg, w.dirs), Sorted(cfg.plugins.Keys);
      TurnsCarryWell(cfg, w, listed, titles, ids, |ids|, scope)
    case DeleteOp(id) => !HalfRemoves(cfg, w, id)
    case SetStatusOp(_, _) => true
  }

  /** References are live and unshared after the step, and after every turn of an initialisation. */
  ghost predicate StepSound(cfg: Config, w: World, op: Op, scope: set<int>)
    requires Enabled(cfg, w, op)
  {
    match op
    case AutoInitOp(ids) =>
      var listed, titles := ListAll(cfg, w.dirs), Sorted(cfg.plugins.Keys);
      TurnsSound(cfg, w, listed, titles, ids, |ids|, scope)
    case _ => RefsSound(Apply(cfg, w, op).dirs, Apply(cfg, w, op).vault, scope)
  }

  lemma CoversKept(before: seq<Dir>, after: seq<Dir>, scope: set<int>)
    requires Covers(before, scope) && ReadOnlyKept(before, after)
    ensures Covers(after, scope)
  {
  }

  lemma TurnIff(cfg: Config, w: World, listed: seq<Account>, title: string, id: Uuid, scope: set<int>)
    requires FreshWrites(cfg) && title in cfg.plugins && Fresh(w, id)
    requires InOrder(w.dirs) && Covers(w.dirs, scope)
    ensures
      var w' := AutoInitOne(cfg, w, listed, title, id);
      && InOrder(w'.dirs) && Covers(w'.dirs, scope)
      && (RefsSound(w.dirs, w.vault, scope) ==>
            (RefsSound(w'.dirs, w'.vault, scope) <==> TurnCarriesWell(cfg, w, listed, title, id, scope)))
  {
    CreateDirs(cfg, w, DefaultAccount(title), id);
    CoversKept(w.dirs, AutoInitOne(cfg, w, listed, title, id).dirs, scope);
    if RefsSound(w.dirs, w.vault, scope) {
      CreateKeepsRefsIff(cfg, w, DefaultAccount(title), id, scope);
    }
  }

  lemma NextTurn(cfg: Config, w: World, listed: seq<Account>, titles: seq<string>, ids: seq<Uuid>, n: nat)
    requires |titles| == |ids| && n < |ids| && forall t | t in titles :: t in cfg.plugins
    ensures TurnAt(cfg, w, listed, titles, ids, n + 1)
         == AutoInitOne(cfg, TurnAt(cfg, w, listed, titles, ids, n), listed, titles[n], ids[n])
  {
    assert titles[..n + 1][..n] == titles[..n] && ids[..n + 1][..n] == ids[..n];
  }

  lemma {:induction false} TurnsIff(cfg: Config, w: World, listed: seq<Account>, titles: seq<string>, ids: seq<Uuid>,
                                    m: nat, scope: set<int>)
    requires FreshWrites(cfg) && |titles| == |ids| && m <= |ids| && forall t | t in titles :: t in cfg.plugins
    requires FreshTurns(cfg, w, listed, titles, ids)
    requires InOrder(w.dirs) && Covers(w.dirs, scope) && RefsSound(w.dirs, w.vault, scope)
    ensures
      var w' := TurnAt(cfg, w, listed, titles, ids, m);
      InOrder(w'.dirs) && Covers(w'.dirs, scope)
    ensures TurnsSound(cfg, w, listed, titles, ids, m, scope) <==> TurnsCarryWell(cfg, w, listed, titles, ids, m, scope)
  {
    if m == 0 {
      assert TurnAt(cfg, w, listed, titles, ids, 0) == w;
    } else {
      TurnsIff(cfg, w, listed, titles, ids, m - 1, scope);
      NextTurn(cfg, w, listed, titles, ids, m - 1);
      TurnIff(cfg, TurnAt(cfg, w, listed, titles, ids, m - 1), listed, titles[m - 1], ids[m - 1], scope);
    }
  }

  lemma StepRefsIff(cfg: Config, w: World, op: Op, scope: set<int>)
    requires FreshWrites(cfg)
    requires InOrder(w.dirs) && Covers(w.dirs, scope) && RefsSound(w.dirs, w.vault, scope) && Enabled(cfg, w, op)
    ensures StepSound(cfg, w, op, scope) <==> Harmless(cfg, w, op, scope)
  {
    match op
    case CreateOp(account, newId) => CreateKeepsRefsIff(cfg, w, account, newId, scope);
    case ModifyOp(id, account) => ModifyKeepsRefsIff(cfg, w, id, account, scope);
    case DeleteOp(id) => DeleteKeepsRefsIff(cfg, w, id, scope);
    case SetStatusOp(id, now) => StatusKeepsStores(cfg, w, id, now);
    case AutoInitOp(ids) =>
      TurnsIff(cfg, w, ListAll(cfg, w.dirs), Sorted(cfg.plugins.Keys), ids, |ids|, scope);
  }

  lemma SoundAfterStep(cfg: Config, w: World, op: Op, scope: set<int>)
    requires InOrder(w.dirs) && Covers(w.dirs, scope) && Enabled(cfg, w, op)
    ensures InOrder(Apply(cfg, w, op).dirs) && Covers(Apply(cfg, w, op).dirs, scope)
    ensures StepSound(cfg, w, op, scope) ==> RefsSound(Apply(cfg, w, op).dirs, Apply(cfg, w, op).vault, scope)
  {
    OneStepRun(cfg, w, op);
    OrderKept(cfg, w, [op]);
    ReadOnlyUntouched(cfg, w, [op]);
    CoversKept(w.dirs, Apply(cfg, w, op).dirs, scope);
    if op.AutoInitOp? {
      var titles := Sorted(cfg.plugins.Keys);
      assert titles[..|op.ids|] == titles && op.ids[..|op.ids|] == op.ids;
      assert Apply(cfg, w, op) == TurnAt(cfg, w, ListAll(cfg, w.dirs), titles, op.ids, |op.ids|);
    }
  }

  lemma OneStepRun(cfg: Config, w: World, op: Op)
    requires Enabled(cfg, w, op)
    ensures ValidRun(cfg, w, [op]) && Run(cfg, w, [op]) == Apply(cfg, w, op)
  {
    assert [op][1..] == [];
    assert ValidRun(cfg, Apply(cfg, w, op), []);
    assert Run(cfg, Apply(cfg, w, op), []) == Apply(cfg, w, op);
  }

  ghost predicate SoundAlong(cfg: Config, w: World, ops: seq<Op>, scope: set<int>)
    requires ValidRun(cfg, w, ops)
    decreases |ops|
  {
    ops != [] ==> StepSound(cfg, w, ops[0], scope) && SoundAlong(cfg, Apply(cfg, w, ops[0]), ops[1..], scope)
  }

  ghost predicate HarmlessAlong(cfg: Config, w: World, ops: seq<Op>, scope: set<int>)
    requires ValidRun(cfg, w, ops)
    decreases |ops|
  {
    ops != [] ==> Harmless(cfg, w, ops[0], scope) && HarmlessAlong(cfg, Apply(cfg, w, ops[0]), ops[1..], scope)
  }

  /**
   Along a run, each reference in scope names a live entry of its plugin, and no two files share one, iff
   no step does harm: none writes a file whose account carries a PLUGIN_ID that is not live or is used by
   another file, and no delete stops half-way.
   The scope may be just the writable directories, or every directory.
   */
  lemma {:induction false} NoDanglingReferencesIff(cfg: Config, w: World, ops: seq<Op>, scope: set<int>)
    requires FreshWrites(cfg)
    requires InOrder(w.dirs) && Covers(w.dirs, scope) && RefsSound(w.dirs, w.vault, scope) && ValidRun(cfg, w, ops)
    ensures SoundAlong(cfg, w, ops, scope) <==> HarmlessAlong(cfg, w, ops, scope)
    decreases |ops|
  {
    if ops != [] {
      StepRefsIff(cfg, w, ops[0], scope);
      SoundAfterStep(cfg, w, ops[0], scope);
      if StepSound(cfg, w, ops[0], scope) {
        NoDanglingReferencesIff(cfg, Apply(cfg, w, ops[0]), ops[1..], scope);
      }
    }
  }

  lemma {:induction false} SoundAtEnd(cfg: Config, w: World, ops: seq<Op>, scope: set<int>)
    requires InOrder(w.dirs) && Covers(w.dirs, scope) && RefsSound(w.dirs, w.vault, scope)
    requires ValidRun(cfg, w, ops) && SoundAlong(cfg, w, ops, scope)
    ensures RefsSound(Run(cfg, w, ops).dirs, Run(cfg, w, ops).vault, scope)
    decreases |ops|
  {
    if ops != [] {
      SoundAfterStep(cfg, w, ops[0], scope);
      SoundAtEnd(cfg, Apply(cfg, w, ops[0]), ops[1..], scope);
    }
  }

  /** So the references are live and unshared after every run of harmless steps. */
  lemma NoDanglingReferences(cfg: Config, w: World, ops: seq<Op>, scope: set<int>)
    requires FreshWrites(cfg)
    requires InOrder(w.dirs) && Covers(w.dirs, scope) && RefsSound(w.dirs, w.vault, scope)
    requires ValidRun(cfg, w, ops) && HarmlessAlong(cfg, w, ops, scope)
    ensures RefsSound(Run(cfg, w, ops).dirs, Run(cfg, w, ops).vault, scope)
  {
    NoDanglingReferencesIff(cfg, w, ops, scope);
    SoundAtEnd(cfg, w, ops, scope);
  }

  // ---------------------------------------------------------------- a simple way to do no harm

  /** Callers bring no references of their own. */
  predicate Careful(ops: seq<Op>) {
    forall k | 0 <= k < |ops| && (ops[k].CreateOp? || ops[k].ModifyOp?) :: NoReferences(ops[k].account.services)
  }

  lemma CarriesNothing(cfg: Config, account: Account, items: seq<SecretItem>, vault: Vault, k: string)
    requires ReferenceReserved(cfg) && NoReferences(account.services)
    ensures Carried(cfg, account, items, vault, k).None?
  {
    GivenKeys(cfg, account);
    if k in account.services && k in cfg.plugins {
      var given := Given(cfg, account).services[k].params;
      assert AddsNoReference(cfg.plugins[k], given);
      if PLUGIN_ID in Applied(cfg.plugins[k].verify(given).params).params {
        var i := AppliedDomain(cfg.plugins[k].verify(given).params, PLUGIN_ID);
      }
    }
  }

  lemma CarefulStep(cfg: Config, w: World, op: Op, scope: set<int>)
    requires ReferenceReserved(cfg) && NeverRefuses(cfg) && Enabled(cfg, w, op) && Careful([op])
    requires InOrder(w.dirs) && Covers(w.dirs, scope) && RefsLive(w.dirs, w.vault, scope)
    ensures Harmless(cfg, w, op, scope)
  {
    assert [op][0] == op;
    match op
    case DeleteOp(id) => WillingPlugins(cfg, w, id, scope);
    case AutoInitOp(ids) =>
      CarefulTurns(cfg, w, ListAll(cfg, w.dirs), Sorted(cfg.plugins.Keys), ids, |ids|, scope);
    case CreateOp(account, newId) => CarriesNone(cfg, account.(id := newId), w);
    case ModifyOp(id, account) => CarriesNone(cfg, account.(id := id), w);
    case SetStatusOp(_, _) =>
  }

  lemma CarriesNone(cfg: Config, account: Account, w: World)
    requires ReferenceReserved(cfg) && NoReferences(account.services)
    ensures forall k :: Carried(cfg, account, w.items, w.vault, k).None?
  {
    forall k ensures Carried(cfg, account, w.items, w.vault, k).None? {
      CarriesNothing(cfg, account, w.items, w.vault, k);
    }
  }

  lemma {:induction false} CarefulTurns(cfg: Config, w: World, listed: seq<Account>, titles: seq<string>,
                                        ids: seq<Uuid>,
                                        m: nat, scope: set<int>)
    requires ReferenceReserved(cfg) && |titles| == |ids| && m <= |ids| && forall t | t in titles :: t in cfg.plugins
    ensures TurnsCarryWell(cfg, w, listed, titles, ids, m, scope)
  {
    if m > 0 {
      CarefulTurns(cfg, w, listed, titles, ids, m - 1, scope);
      var w' := TurnAt(cfg, w, listed, titles, ids, m - 1);
      var account := DefaultAccount(titles[m - 1]).(id := ids[m - 1]);
      CarriesNone(cfg, account, w');
    }
  }

  /**
   If plugins, providers and callers keep PLUGIN_ID out of the parameters and plugins do not refuse to
   remove live entries, no run does harm.
   */
  lemma {:induction false} CarefulIsHarmless(cfg: Config, w: World, ops: seq<Op>, scope: set<int>)
    requires FreshWrites(cfg) && ReferenceReserved(cfg) && NeverRefuses(cfg) && Careful(ops)
    requires InOrder(w.dirs) && Covers(w.dirs, scope) && RefsSound(w.dirs, w.vault, scope) && ValidRun(cfg, w, ops)
    ensures HarmlessAlong(cfg, w, ops, scope)
    decreases |ops|
  {
    if ops != [] {
      assert Careful([ops[0]]) && Careful(ops[1..]);
      CarefulStep(cfg, w, ops[0], scope);
      StepRefsIff(cfg, w, ops[0], scope);
      SoundAfterStep(cfg, w, ops[0], scope);
      CarefulIsHarmless(cfg, Apply(cfg, w, ops[0]), ops[1..], scope);
    }
  }

  // ---------------------------------------------------------------- one map of accounts

  lemma {:induction false} StepUnique(cfg: Config, w: World, op: Op)
    requires InOrder(w.dirs) && UniqueIds(w.dirs) && Enabled(cfg, w, op) && !op.AutoInitOp?
    ensures UniqueIds(Apply(cfg, w, op).dirs)
  {
    match op
    case CreateOp(account, newId) => CreateIsInsert(cfg, w, account, newId);
    case ModifyOp(id, account) => ModifyIsUpdate(cfg, w, id, account);
    case DeleteOp(id) => DeleteIsRemoval(cfg, w, id);
    case SetStatusOp(id, now) => StatusKeepsStores(cfg, w, id, now);
  }

  lemma {:induction false} BasicRunUnique(cfg: Config, w: World, ops: seq<Op>)
    requires InOrder(w.dirs) && UniqueIds(w.dirs) && ValidRun(cfg, w, ops) && Basic(ops)
    ensures UniqueIds(Run(cfg, w, ops).dirs)
    decreases |ops|
  {
    if ops != [] {
      StepDirs(cfg, w, ops[0]);
      StepUnique(cfg, w, ops[0]);
      BasicRunUnique(cfg, Apply(cfg, w, ops[0]), ops[1..]);
    }
  }

  /** No run gives an id a second file, so the directories remain one map. */
  lemma {:induction false} IdsStayUnique(cfg: Config, w: World, ops: seq<Op>)
    requires InOrder(w.dirs) && UniqueIds(w.dirs) && ValidRun(cfg, w, ops)
    ensures UniqueIds(Run(cfg, w, ops).dirs)
  {
    var basic := AsBasic(cfg, w, ops, "");
    BasicRunUnique(cfg, w, basic);
  }

  // ---------------------------------------------------------------- limits

  lemma {:induction false} StepBound(cfg: Config, w: World, op: Op, s: string, initial: nat)
    requires Listable(cfg.dirOrder)
    requires InOrder(w.dirs) && WithinBound(cfg, w.dirs, s, initial)
    requires Enabled(cfg, w, op) && !op.AutoInitOp? && AddsNo(cfg, w, op, s)
    ensures WithinBound(cfg, Apply(cfg, w, op).dirs, s, initial)
  {
    match op
    case CreateOp(account, newId) => CreateKeepsBound(cfg, w, account, newId, s, initial);
    case ModifyOp(id, account) => ModifyCount(cfg, w, id, account, s);
    case DeleteOp(id) => DeleteCount(cfg, w, id, s);
    case SetStatusOp(id, now) => StatusKeepsStores(cfg, w, id, now);
  }

  lemma {:induction false} BasicRunBound(cfg: Config, w: World, ops: seq<Op>, s: string, initial: nat)
    requires Listable(cfg.dirOrder)
    requires InOrder(w.dirs) && WithinBound(cfg, w.dirs, s, initial)
    requires ValidRun(cfg, w, ops) && Basic(ops) && AddsNoAlong(cfg, w, ops, s)
    ensures WithinBound(cfg, Run(cfg, w, ops).dirs, s, initial)
    decreases |ops|
  {
    if ops != [] {
      StepDirs(cfg, w, ops[0]);
      StepBound(cfg, w, ops[0], s, initial);
      BasicRunBound(cfg, Apply(cfg, w, ops[0]), ops[1..], s, initial);
    }
  }

  /**
   If no modification along the run adds the service to an account, the accounts listed with it are at
   most as many as its plugin allows, or as there were at the start.
   */
  lemma {:induction false} InstancesLimited(cfg: Config, w: World, ops: seq<Op>, s: string)
    requires Listable(cfg.dirOrder)
    requires s in cfg.plugins && cfg.plugins[s].maxCount >= 0
    requires InOrder(w.dirs) && ValidRun(cfg, w, ops) && AddsNoAlong(cfg, w, ops, s)
    ensures
      var now := CountService(ListAll(cfg, Run(cfg, w, ops).dirs), s);
      now <= cfg.plugins[s].maxCount || now <= CountService(ListAll(cfg, w.dirs), s)
  {
    var basic := AsBasic(cfg, w, ops, s);
    BasicRunBound(cfg, w, basic, s, Total(cfg, w.dirs, s));
    CountAll(cfg, w.dirs, s);
    CountAll(cfg, Run(cfg, w, ops).dirs, s);
  }
}
