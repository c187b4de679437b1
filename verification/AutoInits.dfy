/** Accounts made for plugins: one listing is enough, and a second run makes no more. */
module AutoInits {
  import opened Base
  import opened Secrets
  import opened Plugins
  import opened Accounts
  import opened Environment
  import opened AccountObjects
  import opened Lifecycle
  import opened TokenLaws
  import opened AccountLaws
  import opened Turns
  import opened VaultLaws
  import opened Alone
  import opened StepLaws
  import opened Invariants
  import opened Limits
  import opened Frames

  // ---------------------------------------------------------------- what creating keeps

  lemma AddedForOther(items: seq<SecretItem>, items': seq<SecretItem>, id: Uuid, names: seq<string>, other: Uuid)
    requires Appends(items, items', id, names) && other != id
    requires forall k | 0 <= k < |items| :: !Matches(items[k], AccountQuery(other))
    ensures forall k | 0 <= k < |items'| :: !Matches(items'[k], AccountQuery(other))
  {
    var added :| items' == items + added && forall item | item in added :: InServices(item, id, names);
    forall k | |items| <= k < |items'| ensures !Matches(items'[k], AccountQuery(other)) {
      assert items'[k] == added[k - |items|];
      InServicesBelongs(items'[k], id, names);
      BelongsMeaning(items'[k], id);
      BelongsMeaning(items'[k], other);
    }
  }

  lemma CreateKeepsFresh(cfg: Config, w: World, account: Account, newId: Uuid, other: Uuid)
    requires WellKept(w.dirs) && CleanPlugins(cfg) && Fresh(w, newId) && Fresh(w, other) && other != newId
    ensures Fresh(Create(cfg, w, account, newId).world, other)
  {
    var o := Create(cfg, w, account, newId);
    CreateOutcome(cfg, w, account, newId);
    CreateSecrets(cfg, w, account, newId);
    if o.ok {
      AddedForOther(w.items, o.world.items, newId, Sorted(o.account.services.Keys), other);
    }
  }

  ghost predicate SameFlags(before: seq<Dir>, after: seq<Dir>) {
    |before| == |after| && forall i | 0 <= i < |before| :: before[i].readOnly == after[i].readOnly
  }

  lemma {:induction false} CreateKeepsDirs(cfg: Config, w: World, account: Account, newId: Uuid)
    requires WellKept(w.dirs) && Unused(w, newId)
    ensures
      var o := Create(cfg, w, account, newId);
      WellKept(o.world.dirs) && SameFlags(w.dirs, o.world.dirs)
  {
    var o := Create(cfg, w, account, newId);
    CreateOutcome(cfg, w, account, newId);
    if o.ok {
      WriteKeepsWell(w.dirs, FindParser(w.dirs, NIL_ID, true).value, o.account);
    }
  }

  /** Ids for a run: all of them new, no two the same. */
  ghost predicate FreshIds(w: World, ids: seq<Uuid>) {
    && (forall i | 0 <= i < |ids| :: Fresh(w, ids[i]))
    && (forall i, j | 0 <= i < j < |ids| :: ids[i] != ids[j])
  }

  lemma {:induction false} AutoInitKeeps(cfg: Config, w: World, listed: seq<Account>, titles: seq<string>,
                                         ids: seq<Uuid>)
    requires |titles| == |ids| && forall t | t in titles :: t in cfg.plugins
    requires WellKept(w.dirs) && CleanPlugins(cfg) && FreshIds(w, ids)
    ensures
      var w' := AutoInitUpTo(cfg, w, listed, titles, ids);
      && WellKept(w'.dirs) && SameFlags(w.dirs, w'.dirs)
      && (forall x | Fresh(w, x) && x !in ids :: Fresh(w', x))
  {
    if titles != [] {
      var n := |titles| - 1;
      AutoInitKeeps(cfg, w, listed, titles[..n], ids[..n]);
      var w1 := AutoInitUpTo(cfg, w, listed, titles[..n], ids[..n]);
      assert ids == ids[..n] + [ids[n]];
      assert ids[n] !in ids[..n];
      assert Fresh(w1, ids[n]);
      CreateKeepsDirs(cfg, w1, DefaultAccount(titles[n]), ids[n]);
      forall x | Fresh(w1, x) && x != ids[n]
        ensures Fresh(Create(cfg, w1, DefaultAccount(titles[n]), ids[n]).world, x)
      {
        CreateKeepsFresh(cfg, w1, DefaultAccount(titles[n]), ids[n], x);
      }
    }
  }

  /** The world before a plugin's turn still has the plugin's id unused. */
  lemma TurnIsFresh(cfg: Config, w: World, listed: seq<Account>, titles: seq<string>, ids: seq<Uuid>)
    requires titles != [] && |titles| == |ids| && forall t | t in titles :: t in cfg.plugins
    requires WellKept(w.dirs) && CleanPlugins(cfg) && FreshIds(w, ids)
    ensures
      var n := |titles| - 1;
      var w1 := AutoInitUpTo(cfg, w, listed, titles[..n], ids[..n]);
      WellKept(w1.dirs) && SameFlags(w.dirs, w1.dirs) && Fresh(w1, ids[n]) && FreshIds(w, ids[..n])
  {
    var n := |titles| - 1;
    assert FreshIds(w, ids[..n]);
    AutoInitKeeps(cfg, w, listed, titles[..n], ids[..n]);
    assert ids[n] !in ids[..n];
  }

  // ---------------------------------------------------------------- one listing is enough

  /** Ids for a run: no account has them, no two the same. */
  ghost predicate UnusedIds(w: World, ids: seq<Uuid>) {
    && (forall i | 0 <= i < |ids| :: Unused(w, ids[i]))
    && (forall i, j | 0 <= i < j < |ids| :: ids[i] != ids[j])
  }

  lemma CreateKeepsUnused(cfg: Config, w: World, account: Account, newId: Uuid, other: Uuid)
    requires WellKept(w.dirs) && Unused(w, newId) && Unused(w, other) && other != newId
    ensures Unused(Create(cfg, w, account, newId).world, other)
  {
    CreateOutcome(cfg, w, account, newId);
  }

  lemma {:induction false} AutoInitKeepsUnused(cfg: Config, w: World, listed: seq<Account>, titles: seq<string>,
                                               ids: seq<Uuid>)
    requires |titles| == |ids| && forall t | t in titles :: t in cfg.plugins
    requires WellKept(w.dirs) && UnusedIds(w, ids)
    ensures
      var w' := AutoInitUpTo(cfg, w, listed, titles, ids);
      && WellKept(w'.dirs)
      && (forall x | Unused(w, x) && x !in ids :: Unused(w', x))
  {
    if titles != [] {
      var n := |titles| - 1;
      AutoInitKeepsUnused(cfg, w, listed, titles[..n], ids[..n]);
      var w1 := AutoInitUpTo(cfg, w, listed, titles[..n], ids[..n]);
      LastApart(ids);
      assert ids[n] !in ids[..n];
      assert Unused(w1, ids[n]);
      CreateKeepsDirs(cfg, w1, DefaultAccount(titles[n]), ids[n]);
      forall x | Unused(w1, x) && x != ids[n]
        ensures Unused(Create(cfg, w1, DefaultAccount(titles[n]), ids[n]).world, x)
      {
        CreateKeepsUnused(cfg, w1, DefaultAccount(titles[n]), ids[n], x);
      }
    }
  }

  lemma TurnIsUnused(cfg: Config, w: World, listed: seq<Account>, titles: seq<string>, ids: seq<Uuid>)
    requires titles != [] && |titles| == |ids| && forall t | t in titles :: t in cfg.plugins
    requires WellKept(w.dirs) && UnusedIds(w, ids)
    ensures
      var n := |titles| - 1;
      var w1 := AutoInitUpTo(cfg, w, listed, titles[..n], ids[..n]);
      WellKept(w1.dirs) && Unused(w1, ids[n]) && UnusedIds(w, ids[..n])
  {
    var n := |titles| - 1;
    assert UnusedIds(w, ids[..n]);
    AutoInitKeepsUnused(cfg, w, listed, titles[..n], ids[..n]);
    assert ids[n] !in ids[..n];
  }

  lemma {:induction false} OtherCountsStay(cfg: Config, w: World, listed: seq<Account>, titles: seq<string>,
                                           ids: seq<Uuid>, s: string)
    requires |titles| == |ids| && forall t | t in titles :: t in cfg.plugins
    requires WellKept(w.dirs) && UnusedIds(w, ids)
    requires s !in titles
    ensures Total(cfg, AutoInitUpTo(cfg, w, listed, titles, ids).dirs, s) == Total(cfg, w.dirs, s)
  {
    if titles != [] {
      var n := |titles| - 1;
      LastApart(titles);
      TurnIsUnused(cfg, w, listed, titles, ids);
      OtherCountsStay(cfg, w, listed, titles[..n], ids[..n], s);
      CreateCount(cfg, AutoInitUpTo(cfg, w, listed, titles[..n], ids[..n]), DefaultAccount(titles[n]), ids[n], s);
    }
  }

  /** The simple form: list the accounts again before every plugin. */
  ghost function AutoInitRelisting(cfg: Config, w: World, titles: seq<string>, ids: seq<Uuid>): World
    requires |titles| == |ids| && forall t | t in titles :: t in cfg.plugins
  {
    if titles == [] then w
    else
      var n := |titles| - 1;
      var w1 := AutoInitRelisting(cfg, w, titles[..n], ids[..n]);
      AutoInitOne(cfg, w1, ListAll(cfg, w1.dirs), titles[n], ids[n])
  }

  /** Working from one listing taken at the start gives the same world as listing before every plugin. */
  lemma {:induction false} OneListingSuffices(cfg: Config, w: World, titles: seq<string>, ids: seq<Uuid>)
    requires Listable(cfg.dirOrder)
    requires |titles| == |ids| && forall t | t in titles :: t in cfg.plugins
    requires forall i, j | 0 <= i < j < |titles| :: titles[i] != titles[j]
    requires WellKept(w.dirs) && UnusedIds(w, ids)
    ensures AutoInitUpTo(cfg, w, ListAll(cfg, w.dirs), titles, ids) == AutoInitRelisting(cfg, w, titles, ids)
  {
    if titles != [] {
      var n := |titles| - 1;
      var listed := ListAll(cfg, w.dirs);
      TurnIsUnused(cfg, w, listed, titles, ids);
      OneListingSuffices(cfg, w, titles[..n], ids[..n]);
      assert titles[n] !in titles[..n];
      OtherCountsStay(cfg, w, listed, titles[..n], ids[..n], titles[n]);
      var w1 := AutoInitUpTo(cfg, w, listed, titles[..n], ids[..n]);
      CountAll(cfg, w.dirs, titles[n]);
      CountAll(cfg, w1.dirs, titles[n]);
    }
  }

  // ---------------------------------------------------------------- when a default account can be made

  /** The plugin accepts an account that has nothing but its title. */
  predicate DefaultVerifies(cfg: Config, t: string) {
    Passes(cfg, "Default - " + t, t, map[])
  }

  /** Nothing stands in the way of a first account for the plugin. */
  predicate Addable(cfg: Config, dirs: seq<Dir>, t: string)
    requires t in cfg.plugins
  {
    FindParser(dirs, NIL_ID, true).Some? && cfg.plugins[t].maxCount != 0 && DefaultVerifies(cfg, t)
  }

  lemma DefaultWithinLimits(cfg: Config, dirs: seq<Dir>, t: string, id: Uuid)
    requires t in cfg.plugins && Total(cfg, dirs, t) == 0
    ensures HasRoom(cfg, dirs, DefaultAccount(t).(id := id).services.Keys) <==> cfg.plugins[t].maxCount != 0
  {
    var act := DefaultAccount(t).(id := id);
    assert act.services.Keys == {t};
    assert t in act.services.Keys;
  }

  lemma DefaultGiven(cfg: Config, t: string, id: Uuid)
    ensures
      var act := DefaultAccount(t).(id := id);
      Begins(cfg, act) && Given(cfg, act) == act && act.services.Keys == {t} && act.services[t].params == map[]
  {
  }

  lemma DefaultSucceedsIff(cfg: Config, w: World, t: string, id: Uuid)
    requires Listable(cfg.dirOrder) && CleanPlugins(cfg)
    requires t in cfg.plugins && WellKept(w.dirs) && Fresh(w, id) && Total(cfg, w.dirs, t) == 0
    ensures Create(cfg, w, DefaultAccount(t), id).ok <==> Addable(cfg, w.dirs, t)
  {
    CreateSucceedsIff(cfg, w, DefaultAccount(t), id);
    DefaultGiven(cfg, t, id);
    DefaultWithinLimits(cfg, w.dirs, t, id);
    assert t in DefaultAccount(t).services;
  }

  lemma SameEntriesSameVault(before: Vault, after: Vault)
    requires forall e: EntryKey :: EntryOf(after, e.plugin, e.id) == EntryOf(before, e.plugin, e.id)
    ensures after == before
  {
    forall e ensures e in after <==> e in before {
      assert EntryOf(after, e.plugin, e.id) == EntryOf(before, e.plugin, e.id);
    }
    forall e | e in before ensures after[e] == before[e] {
      assert EntryOf(after, e.plugin, e.id) == EntryOf(before, e.plugin, e.id);
    }
  }

  lemma DefaultFailure(cfg: Config, w: World, t: string, id: Uuid)
    requires Listable(cfg.dirOrder) && CleanPlugins(cfg)
    requires t in cfg.plugins && WellKept(w.dirs) && Fresh(w, id) && Total(cfg, w.dirs, t) == 0
    requires !Create(cfg, w, DefaultAccount(t), id).ok
    ensures Create(cfg, w, DefaultAccount(t), id).world == w
  {
    var act := DefaultAccount(t).(id := id);
    FailedCreate(cfg, w, DefaultAccount(t), id);
    FailedCreateStorage(cfg, w, DefaultAccount(t), id);
    DefaultSucceedsIff(cfg, w, t, id);
    DefaultGiven(cfg, t, id);
    DefaultWithinLimits(cfg, w.dirs, t, id);
    FirstOfNew(cfg, act, w.items, w.vault, t);
    SameEntriesSameVault(w.vault, Create(cfg, w, DefaultAccount(t), id).world.vault);
  }

  /** Making the first account for a plugin succeeds iff nothing stands in the way; otherwise nothing happens. */
  lemma DefaultCreate(cfg: Config, w: World, t: string, id: Uuid)
    requires Listable(cfg.dirOrder) && CleanPlugins(cfg)
    requires t in cfg.plugins && WellKept(w.dirs) && Fresh(w, id) && Total(cfg, w.dirs, t) == 0
    ensures
      var o := Create(cfg, w, DefaultAccount(t), id);
      (o.ok <==> Addable(cfg, w.dirs, t)) && (!o.ok ==> o.world == w)
  {
    DefaultSucceedsIff(cfg, w, t, id);
    if !Create(cfg, w, DefaultAccount(t), id).ok {
      DefaultFailure(cfg, w, t, id);
    }
  }

  lemma SortedOne(t: string)
    ensures Sorted({t}) == [t]
  {
    SortedUnique({t}, [t]);
  }

  /** An account file for a plugin: active, without a provider or settings, and with one service. */
  ghost function DefaultFile(id: Uuid, t: string, params: StrMap): Document {
    Doc(AccountNode(Some(id), Some("Default - " + t), Some(""), Some(true), [], [[ServiceNode(t, Pairs(params))]]))
  }

  lemma DefaultPrinted(id: Uuid, t: string, service: Service)
    ensures Print(DefaultAccount(t).(id := id, services := map[t := service]))
         == DefaultFile(id, t, Unprotected(service))
  {
    var account := DefaultAccount(t).(id := id, services := map[t := service]);
    SortedOne(t);
    SortedUnique({}, []);
    assert account.services.Keys == {t} && account.settings.Keys == {};
    assert Pairs(account.settings) == [];
  }

  lemma DefaultShown(cfg: Config, t: string, id: Uuid, items: seq<SecretItem>, vault: Vault)
    requires t in cfg.plugins && VerifyAccount(cfg, DefaultAccount(t).(id := id), items, vault).ok
    ensures
      var act := DefaultAccount(t).(id := id);
      Print(VerifyAccount(cfg, act, items, vault).account)
      == DefaultFile(id, t, Result(Writes(cfg, act, items, vault, t), Answer(cfg, t, map[])))
  {
    var act := DefaultAccount(t).(id := id);
    var made := VerifyAccount(cfg, act, items, vault).account;
    VerifiedAccount(cfg, act, items, vault);
    DefaultGiven(cfg, t, id);
    VerifiedShown(cfg, act, items, vault, t);
    assert made.services == map[t := made.services[t]];
    DefaultPrinted(id, t, made.services[t]);
  }

  /** The first account for a plugin: its file, in the first writable directory. */
  lemma DefaultWritten(cfg: Config, w: World, t: string, id: Uuid)
    requires t in cfg.plugins && WellKept(w.dirs) && Unused(w, id) && Create(cfg, w, DefaultAccount(t), id).ok
    ensures
      var p := FindParser(w.dirs, NIL_ID, true);
      var written := Writes(cfg, DefaultAccount(t).(id := id), w.items, w.vault, t);
      && p.Some?
      && Create(cfg, w, DefaultAccount(t), id).world.dirs
         == WithFile(w.dirs, p.value, id, DefaultFile(id, t, Result(written, Answer(cfg, t, map[]))))
  {
    CreateOutcome(cfg, w, DefaultAccount(t), id);
    DefaultShown(cfg, t, id, w.items, w.vault);
  }

  /** The plugin asks for an account, has none and can have one. */
  predicate Owed(cfg: Config, dirs: seq<Dir>, t: string)
    requires t in cfg.plugins
  {
    cfg.plugins[t].autoInit && Total(cfg, dirs, t) == 0 && Addable(cfg, dirs, t)
  }

  /**
   A plugin's turn: if it is owed an account, the file of one appears in the first writable directory, active,
   with the plugin's title, one service and what the plugin answers or stores for it; if not, nothing changes.
   */
  lemma TurnWrites(cfg: Config, w: World, listed: seq<Account>, t: string, id: Uuid)
    requires Listable(cfg.dirOrder) && CleanPlugins(cfg)
    requires t in cfg.plugins && WellKept(w.dirs) && Fresh(w, id) && CountService(listed, t) == Total(cfg, w.dirs, t)
    ensures
      var w', p := AutoInitOne(cfg, w, listed, t, id), FindParser(w.dirs, NIL_ID, true);
      var written := Writes(cfg, DefaultAccount(t).(id := id), w.items, w.vault, t);
      if Owed(cfg, w.dirs, t)
      then w'.dirs == WithFile(w.dirs, p.value, id, DefaultFile(id, t, Result(written, Answer(cfg, t, map[]))))
      else w' == w
  {
    if Total(cfg, w.dirs, t) == 0 {
      DefaultCreate(cfg, w, t, id);
      if Create(cfg, w, DefaultAccount(t), id).ok {
        DefaultWritten(cfg, w, t, id);
      }
    }
  }

  // ---------------------------------------------------------------- a second run makes no more

  /** The plugin has its account, or none can be made for it. */
  predicate Settled(cfg: Config, dirs: seq<Dir>, t: string)
    requires t in cfg.plugins
  {
    !cfg.plugins[t].autoInit || Total(cfg, dirs, t) > 0 || !Addable(cfg, dirs, t)
  }

  lemma SameFlagsSameWritable(before: seq<Dir>, after: seq<Dir>)
    requires SameFlags(before, after)
    ensures FindParser(after, NIL_ID, true).Some? <==> FindParser(before, NIL_ID, true).Some?
  {
    if p :| 0 <= p < |before| && !before[p].readOnly {
      assert Serves(before[p], NIL_ID, true) && Serves(after[p], NIL_ID, true);
    }
  }

  /** A plugin's turn settles it and unsettles no other. */
  lemma {:induction false} TurnSettles(cfg: Config, w: World, listed: seq<Account>, t: string, id: Uuid, s: string)
    requires Listable(cfg.dirOrder) && CleanPlugins(cfg)
    requires t in cfg.plugins && s in cfg.plugins && WellKept(w.dirs) && Fresh(w, id)
    requires CountService(listed, t) == Total(cfg, w.dirs, t)
    requires s == t || Settled(cfg, w.dirs, s)
    ensures Settled(cfg, AutoInitOne(cfg, w, listed, t, id).dirs, s)
  {
    var o := Create(cfg, w, DefaultAccount(t), id);
    CreateCount(cfg, w, DefaultAccount(t), id, s);
    CreateKeepsDirs(cfg, w, DefaultAccount(t), id);
    SameFlagsSameWritable(w.dirs, o.world.dirs);
    if Total(cfg, w.dirs, t) == 0 {
      DefaultCreate(cfg, w, t, id);
      assert t in DefaultAccount(t).services;
    }
  }

  lemma TurnSettlesAll(cfg: Config, w: World, listed: seq<Account>, titles: seq<string>, id: Uuid)
    requires Listable(cfg.dirOrder) && CleanPlugins(cfg)
    requires titles != [] && (forall t | t in titles :: t in cfg.plugins) && WellKept(w.dirs) && Fresh(w, id)
    requires CountService(listed, titles[|titles| - 1]) == Total(cfg, w.dirs, titles[|titles| - 1])
    requires forall t | t in titles[..|titles| - 1] :: Settled(cfg, w.dirs, t)
    ensures forall t | t in titles :: Settled(cfg, AutoInitOne(cfg, w, listed, titles[|titles| - 1], id).dirs, t)
  {
    LastApart(titles);
    forall t | t in titles ensures Settled(cfg, AutoInitOne(cfg, w, listed, titles[|titles| - 1], id).dirs, t) {
      TurnSettles(cfg, w, listed, titles[|titles| - 1], id, t);
    }
  }

  lemma {:induction false} RunSettles(cfg: Config, w: World, titles: seq<string>, ids: seq<Uuid>)
    requires Listable(cfg.dirOrder) && CleanPlugins(cfg)
    requires |titles| == |ids| && forall t | t in titles :: t in cfg.plugins
    requires forall i, j | 0 <= i < j < |titles| :: titles[i] != titles[j]
    requires WellKept(w.dirs) && FreshIds(w, ids)
    ensures forall t | t in titles :: Settled(cfg, AutoInitUpTo(cfg, w, ListAll(cfg, w.dirs), titles, ids).dirs, t)
  {
    if titles != [] {
      var n := |titles| - 1;
      var listed := ListAll(cfg, w.dirs);
      LastApart(titles);
      assert titles[n] !in titles[..n];
      TurnIsFresh(cfg, w, listed, titles, ids);
      RunSettles(cfg, w, titles[..n], ids[..n]);
      OtherCountsStay(cfg, w, listed, titles[..n], ids[..n], titles[n]);
      CountAll(cfg, w.dirs, titles[n]);
      TurnSettlesAll(cfg, AutoInitUpTo(cfg, w, listed, titles[..n], ids[..n]), listed, titles, ids[n]);
    }
  }

  lemma {:induction false} SettledStays(cfg: Config, w: World, titles: seq<string>, ids: seq<Uuid>)
    requires Listable(cfg.dirOrder) && CleanPlugins(cfg)
    requires |titles| == |ids| && forall t | t in titles :: t in cfg.plugins
    requires WellKept(w.dirs) && FreshIds(w, ids)
    requires forall t | t in titles :: Settled(cfg, w.dirs, t)
    ensures AutoInitUpTo(cfg, w, ListAll(cfg, w.dirs), titles, ids) == w
  {
    if titles != [] {
      var n := |titles| - 1;
      TurnIsFresh(cfg, w, ListAll(cfg, w.dirs), titles, ids);
      SettledStays(cfg, w, titles[..n], ids[..n]);
      CountAll(cfg, w.dirs, titles[n]);
      if Total(cfg, w.dirs, titles[n]) == 0 {
        DefaultCreate(cfg, w, titles[n], ids[n]);
      }
    }
  }

  /**
   Running the initialisation again changes nothing at all: the plugins that got an account keep it,
   and for the others no account can be made the second time either.
   */
  lemma AutoInitIdempotent(cfg: Config, w: World, ids: seq<Uuid>, ids': seq<Uuid>)
    requires Listable(cfg.dirOrder) && CleanPlugins(cfg)
    requires |ids| == |ids'| == |Sorted(cfg.plugins.Keys)|
    requires WellKept(w.dirs) && FreshIds(w, ids) && FreshIds(AutoInit(cfg, w, ids), ids')
    ensures AutoInit(cfg, AutoInit(cfg, w, ids), ids') == AutoInit(cfg, w, ids)
  {
    var titles := Sorted(cfg.plugins.Keys);
    AutoInitKeeps(cfg, w, ListAll(cfg, w.dirs), titles, ids);
    RunSettles(cfg, w, titles, ids);
    SettledStays(cfg, AutoInit(cfg, w, ids), titles, ids');
  }

  lemma TurnCounts(cfg: Config, w: World, listed: seq<Account>, t: string, id: Uuid, s: string)
    requires Listable(cfg.dirOrder) && CleanPlugins(cfg)
    requires t in cfg.plugins && WellKept(w.dirs) && Fresh(w, id) && CountService(listed, t) == Total(cfg, w.dirs, t)
    ensures Total(cfg, AutoInitOne(cfg, w, listed, t, id).dirs, s)
         == Total(cfg, w.dirs, s) + One(s == t && Owed(cfg, w.dirs, t))
  {
    CreateCount(cfg, w, DefaultAccount(t), id, s);
    if Total(cfg, w.dirs, t) == 0 {
      DefaultCreate(cfg, w, t, id);
    }
    assert s in DefaultAccount(t).services <==> s == t;
  }

  /** A run makes one account for each of those plugins, and no others. */
  lemma {:induction false} RunCounts(cfg: Config, w: World, titles: seq<string>, ids: seq<Uuid>, s: string)
    requires Listable(cfg.dirOrder) && CleanPlugins(cfg)
    requires |titles| == |ids| && forall t | t in titles :: t in cfg.plugins
    requires forall i, j | 0 <= i < j < |titles| :: titles[i] != titles[j]
    requires WellKept(w.dirs) && FreshIds(w, ids)
    ensures Total(cfg, AutoInitUpTo(cfg, w, ListAll(cfg, w.dirs), titles, ids).dirs, s)
         == Total(cfg, w.dirs, s) + One(s in titles && Owed(cfg, w.dirs, s))
  {
    if titles != [] {
      var n := |titles| - 1;
      var listed := ListAll(cfg, w.dirs);
      var w1 := AutoInitUpTo(cfg, w, listed, titles[..n], ids[..n]);
      LastApart(titles);
      assert titles[n] !in titles[..n];
      TurnIsFresh(cfg, w, listed, titles, ids);
      RunCounts(cfg, w, titles[..n], ids[..n], s);
      RunCounts(cfg, w, titles[..n], ids[..n], titles[n]);
      CountAll(cfg, w.dirs, titles[n]);
      SameFlagsSameWritable(w.dirs, w1.dirs);
      TurnCounts(cfg, w1, listed, titles[n], ids[n], s);
    }
  }

  // ---------------------------------------------------------------- when plugins answer differently the second time

  lemma {:induction false} CountedStays(cfg: Config, w: World, listed: seq<Account>, titles: seq<string>,
                                        ids: seq<Uuid>, s: string)
    requires |titles| == |ids| && forall t | t in titles :: t in cfg.plugins
    requires WellKept(w.dirs) && UnusedIds(w, ids) && CountService(listed, s) > 0
    ensures Total(cfg, AutoInitUpTo(cfg, w, listed, titles, ids).dirs, s) == Total(cfg, w.dirs, s)
  {
    if titles != [] {
      var n := |titles| - 1;
      TurnIsUnused(cfg, w, listed, titles, ids);
      CountedStays(cfg, w, listed, titles[..n], ids[..n], s);
      CreateCount(cfg, AutoInitUpTo(cfg, w, listed, titles[..n], ids[..n]), DefaultAccount(titles[n]), ids[n], s);
    }
  }

  /** Counting depends on which plugins there are, and not on how they answer. */
  lemma {:induction false} TotalByNames(cfg: Config, cfg': Config, dirs: seq<Dir>, s: string)
    requires cfg'.plugins.Keys == cfg.plugins.Keys
    ensures Total(cfg', dirs, s) == Total(cfg, dirs, s)
  {
    if dirs != [] {
      var n := |dirs| - 1;
      TotalByNames(cfg, cfg', dirs[..n], s);
      assert CountingFiles(cfg', dirs[n].files, s) == CountingFiles(cfg, dirs[n].files, s);
    }
  }

  /**
   However the plugins answer by then, a second run makes no account with a service that some account has
   after the first.
   */
  lemma SecondRunMakesNone(cfg: Config, cfg': Config, w: World, ids: seq<Uuid>, ids': seq<Uuid>, s: string)
    requires Listable(cfg'.dirOrder) && cfg'.plugins.Keys == cfg.plugins.Keys
    requires |ids| == |ids'| == |Sorted(cfg.plugins.Keys)|
    requires WellKept(w.dirs) && UnusedIds(w, ids) && UnusedIds(AutoInit(cfg, w, ids), ids')
    requires Total(cfg, AutoInit(cfg, w, ids).dirs, s) > 0
    ensures Total(cfg', AutoInit(cfg', AutoInit(cfg, w, ids), ids').dirs, s)
         == Total(cfg, AutoInit(cfg, w, ids).dirs, s)
  {
    var titles, w1 := Sorted(cfg.plugins.Keys), AutoInit(cfg, w, ids);
    AutoInitKeepsUnused(cfg, w, ListAll(cfg, w.dirs), titles, ids);
    TotalByNames(cfg, cfg', w1.dirs, s);
    CountAll(cfg', w1.dirs, s);
    CountedStays(cfg', w1, ListAll(cfg', w1.dirs), titles, ids', s);
  }
}
