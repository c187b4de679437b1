/** The operations in closed form: what each leaves in every store, on success and on failure. */
module StepLaws {
  import opened Base
  import opened Secrets
  import opened Plugins
  import opened Accounts
  import opened Environment
  import opened AccountObjects
  import opened Lifecycle
  import opened AccountLaws

  // ---------------------------------------------------------------- directories

  /** Writable directories come before read-only ones. */
  ghost predicate UserFirst(dirs: seq<Dir>) {
    forall i, j | 0 <= i < j < |dirs| && dirs[i].readOnly :: dirs[j].readOnly
  }

  predicate NamedDoc(doc: Document, id: Uuid) {
    !doc.Empty? && (doc.Doc? && doc.node.id.Some? ==> doc.node.id.value == id)
  }

  /** Files are named after the accounts they hold, and none after the nil id. */
  ghost predicate WellKept(dirs: seq<Dir>) {
    forall i, id | 0 <= i < |dirs| && id in dirs[i].files :: id != NIL_ID && NamedDoc(dirs[i].files[id], id)
  }

  /** The file a read of the id selects. */
  function Selected(dirs: seq<Dir>, id: Uuid): Option<Document> {
    var p := FindParser(dirs, id, false);
    if p.Some? && id in dirs[p.value].files then Some(dirs[p.value].files[id]) else None
  }

  lemma {:induction false} FirstIs(dirs: seq<Dir>, id: Uuid, onlyWritable: bool, p: nat)
    requires p < |dirs| && Serves(dirs[p], id, onlyWritable)
    requires forall i | 0 <= i < p :: !Serves(dirs[i], id, onlyWritable)
    ensures FindParser(dirs, id, onlyWritable) == Some(p)
  {
  }

  /**
   The parameters a service reads back with: those its file lists, or, if they hold a reference that the
   plugin can read, exactly what the plugin reads for it.
   */
  function Seen(cfg: Config, vault: Vault, k: string, listed: StrMap): StrMap {
    if k !in cfg.plugins || PLUGIN_ID !in listed then listed
    else
      var e := EntryKey(k, listed[PLUGIN_ID]);
      var read := cfg.plugins[k].read(e.id, if e in vault then Some(vault[e]) else None);
      if read.Some? then read.value else listed
  }

  /** Every listed service, as nothing has been verified yet. */
  function SeenAll(cfg: Config, vault: Vault, listing: map<string, StrMap>): map<string, Service> {
    map k | k in listing :: Plain(Seen(cfg, vault, k, listing[k]))
  }

  /** Reading succeeds iff a readable file is selected, and then yields that file's account. */
  lemma ReadAccountMeaning(cfg: Config, w: World, id: Uuid)
    requires WellKept(w.dirs)
    ensures
      var r := ReadAccount(cfg, w, id, NEW_ACCOUNT);
      var doc := Selected(w.dirs, id);
      && (r.ok <==> doc.Some? && Readable(cfg.plugins.Keys, doc.value))
      && (r.ok ==>
           && r.account.id == id && id != NIL_ID && doc.value.Doc?
           && r.account.services == SeenAll(cfg, w.vault, Listing(doc.value))
           && r.account.services.Keys == Listing(doc.value).Keys
           && r.account.(services := map[])
               == Read(cfg.plugins.Keys, NEW_ACCOUNT, doc.value).account.(services := map[]))
  {
    var p := FindParser(w.dirs, id, false);
    if p.Some? && id in w.dirs[p.value].files {
      ReadNew(cfg.plugins.Keys, w.dirs[p.value].files[id]);
      CustomIsSeen(cfg, w.vault, Listing(w.dirs[p.value].files[id]));
    }
  }

  lemma CustomIsSeen(cfg: Config, vault: Vault, listing: map<string, StrMap>)
    ensures ReadCustomAll(cfg, vault, PlainServices(listing)) == SeenAll(cfg, vault, listing)
  {
  }

  function WithFile(dirs: seq<Dir>, p: nat, id: Uuid, doc: Document): seq<Dir>
    requires p < |dirs|
  {
    dirs[p := dirs[p].(files := dirs[p].files[id := doc])]
  }

  function WithoutFile(dirs: seq<Dir>, p: nat, id: Uuid): seq<Dir>
    requires p < |dirs|
  {
    dirs[p := dirs[p].(files := dirs[p].files - {id})]
  }

  lemma WrittenIsSelected(dirs: seq<Dir>, p: nat, id: Uuid, doc: Document)
    requires p < |dirs| && id != NIL_ID
    requires forall i | 0 <= i < p :: id !in dirs[i].files
    ensures FindParser(WithFile(dirs, p, id, doc), id, false) == Some(p)
    ensures Selected(WithFile(dirs, p, id, doc), id) == Some(doc)
  {
    FirstIs(WithFile(dirs, p, id, doc), id, false, p);
  }

  lemma WriteKeepsWell(dirs: seq<Dir>, p: nat, account: Account)
    requires WellKept(dirs) && p < |dirs| && account.id != NIL_ID
    ensures WellKept(WithFile(dirs, p, account.id, Print(account)))
  {
  }

  lemma RemoveKeepsWell(dirs: seq<Dir>, p: nat, id: Uuid)
    requires WellKept(dirs) && p < |dirs|
    ensures WellKept(WithoutFile(dirs, p, id))
  {
  }

  // ---------------------------------------------------------------- saving

  function ResetEvents(status: map<Uuid, Status>, id: Uuid): seq<Event> {
    if StatusOf(status, id) != NONE then [StatusChanged(id, StatusOf(status, id), NONE)] else []
  }

  /** An account saved in directory p, its status reset. */
  ghost function Saved(w: World, p: nat, account: Account): World
    requires p < |w.dirs|
  {
    w.(dirs := WithFile(w.dirs, p, account.id, Print(account)),
       status := w.status[account.id := NONE],
       log := w.log + ResetEvents(w.status, account.id))
  }

  lemma StoreOutcome(cfg: Config, w: World, p: nat, account: Account)
    requires WellKept(w.dirs) && p < |w.dirs| && !w.dirs[p].readOnly && account.id != NIL_ID
    requires forall i | 0 <= i < p :: account.id !in w.dirs[i].files
    requires account.services.Keys <= cfg.plugins.Keys
    ensures Store(cfg, w, p, account, account.id) == Step(true, Saved(w, p, account))
  {
    var w1 := w.(dirs := WithFile(w.dirs, p, account.id, Print(account)));
    WrittenIsSelected(w.dirs, p, account.id, Print(account));
    WriteKeepsWell(w.dirs, p, account);
    ReadOfPrint(cfg.plugins.Keys, account);
    ReadNew(cfg.plugins.Keys, Print(account));
    ReadAccountMeaning(cfg, w1, account.id);
    assert w.log + [] == w.log;
  }

  // ---------------------------------------------------------------- set status

  /**
   Setting a status succeeds iff the account can be read. The status asked for is then the one kept, every
   other id keeps its own, and the change is announced, once, iff it is one. Nothing else changes.
   */
  lemma SetStatusOutcome(cfg: Config, w: World, id: Uuid, now: Status)
    requires WellKept(w.dirs)
    ensures
      var s := SetStatus(cfg, w, id, now);
      var was := StatusOf(w.status, id);
      && (s.ok <==> Selected(w.dirs, id).Some? && Readable(cfg.plugins.Keys, Selected(w.dirs, id).value))
      && (!s.ok ==> s.world == w)
      && (s.ok ==>
           && StatusOf(s.world.status, id) == now
           && (forall other | other != id :: StatusOf(s.world.status, other) == StatusOf(w.status, other))
           && s.world.log == w.log + (if was == now then [] else [StatusChanged(id, was, now)])
           && s.world == w.(status := s.world.status, log := s.world.log))
  {
    ReadAccountMeaning(cfg, w, id);
    assert w.log + [] == w.log;
  }

  // ---------------------------------------------------------------- create

  /** An id that no account file has, and no status is kept for. */
  ghost predicate Unused(w: World, id: Uuid) {
    && id != NIL_ID && id !in w.status
    && (forall i | 0 <= i < |w.dirs| :: id !in w.dirs[i].files)
  }

  /** An id that occurs in no store, the secret store included. */
  ghost predicate Fresh(w: World, id: Uuid) {
    && Unused(w, id)
    && (forall k | 0 <= k < |w.items| :: !Matches(w.items[k], AccountQuery(id)))
  }

  /** A failed create changes at most secrets and plugin storage; a successful one adds one file. */
  lemma CreateOutcome(cfg: Config, w: World, account: Account, newId: Uuid)
    requires WellKept(w.dirs) && Unused(w, newId)
    ensures
      var o := Create(cfg, w, account, newId);
      var p := FindParser(w.dirs, NIL_ID, true);
      var r := VerifyAccount(cfg, account.(id := newId), w.items, w.vault);
      if o.ok then
        && p.Some? && !w.dirs[p.value].readOnly && r.ok && WithinLimits(cfg, w.dirs, account.(id := newId))
        && o.account == r.account && o.account.id == newId && o.account.services.Keys <= cfg.plugins.Keys
        && o.world == World(WithFile(w.dirs, p.value, newId, Print(o.account)), r.items, r.vault,
                            w.status[newId := NONE], w.log + [Created(newId)])
      else
        || (o.world == w && (p.None? || !WithinLimits(cfg, w.dirs, account.(id := newId)))
            && o.account == if p.None? then account else account.(id := newId))
        || (p.Some? && WithinLimits(cfg, w.dirs, account.(id := newId)) && !r.ok
            && o.world == w.(items := r.items, vault := r.vault) && o.account == r.account)
  {
    var p := FindParser(w.dirs, NIL_ID, true);
    var act := account.(id := newId);
    var r := VerifyAccount(cfg, act, w.items, w.vault);
    VerifiedAccount(cfg, act, w.items, w.vault);
    if p.Some? && WithinLimits(cfg, w.dirs, act) && r.ok {
      StoreOutcome(cfg, w.(items := r.items, vault := r.vault), p.value, r.account);
      assert w.log + [] + [Created(newId)] == w.log + [Created(newId)];
    }
  }

  // ---------------------------------------------------------------- modify

  lemma {:induction false} SameDirectory(dirs: seq<Dir>, id: Uuid)
    requires UserFirst(dirs) && id != NIL_ID
    requires FindParser(dirs, id, true).Some?
    ensures FindParser(dirs, id, false) == FindParser(dirs, id, true)
  {
    var p := FindParser(dirs, id, true).value;
    forall i | 0 <= i < p ensures !Serves(dirs[i], id, false) {
      assert !Serves(dirs[i], id, true);
    }
    FirstIs(dirs, id, false, p);
  }

  /**
   A failed modify changes at most secrets and plugin storage; a successful one rewrites, in place, the
   very file a read selects.
   */
  lemma {:induction false} ModifyOutcome(cfg: Config, w: World, id: Uuid, account: Account)
    requires WellKept(w.dirs) && UserFirst(w.dirs)
    ensures
      var o := Modify(cfg, w, id, account);
      var was := ReadAccount(cfg, w, id, NEW_ACCOUNT);
      var p := FindParser(w.dirs, id, true);
      var r := VerifyAccount(cfg, account.(id := id), w.items, w.vault);
      if o.ok then
        && was.ok && p.Some? && !w.dirs[p.value].readOnly && id in w.dirs[p.value].files && id != NIL_ID
        && p == FindParser(w.dirs, id, false) && r.ok
        && o.account == r.account && o.account.id == id && o.account.services.Keys <= cfg.plugins.Keys
        && o.world == World(
             WithFile(w.dirs, p.value, id, Print(o.account)),
             CleanedUp(r.items, id, Sorted(was.account.services.Keys), o.account.services.Keys),
             r.vault,
             w.status[id := NONE],
             w.log + ResetEvents(w.status, id) + [Modified(id)])
      else
        || (o.world == w && (!was.ok || p.None?) && o.account == account)
        || (was.ok && p.Some? && id != NIL_ID && !r.ok && o.world == w.(items := r.items, vault := r.vault)
            && o.account == r.account)
  {
    var was := ReadAccount(cfg, w, id, NEW_ACCOUNT);
    ReadAccountMeaning(cfg, w, id);
    var p := FindParser(w.dirs, id, true);
    if was.ok && p.Some? {
      var act := account.(id := id);
      var r := VerifyAccount(cfg, act, w.items, w.vault);
      VerifiedAccount(cfg, act, w.items, w.vault);
      if r.ok {
        StoreOutcome(cfg, w.(items := r.items, vault := r.vault), p.value, r.account);
        SameDirectory(w.dirs, id);
      }
    }
  }

  // ---------------------------------------------------------------- delete

  /** A failed delete changes at most plugin storage; a successful one takes exactly one file away. */
  lemma DeleteOutcome(cfg: Config, w: World, id: Uuid)
    requires WellKept(w.dirs)
    ensures
      var s := Delete(cfg, w, id);
      var p := FindParser(w.dirs, id, true);
      if s.ok then
        && p.Some? && !w.dirs[p.value].readOnly && id in w.dirs[p.value].files && id != NIL_ID
        && var services := PlainServices(Listing(w.dirs[p.value].files[id]));
        && services.Keys <= cfg.plugins.Keys
        && var c := RemoveCustomUpTo(cfg, w.vault, services, Sorted(services.Keys));
        && c.ok
        && s.world == World(
             WithoutFile(w.dirs, p.value, id),
             Without(w.items, AccountQuery(id)),
             c.vault,
             w.status - {id},
             w.log + [Deleted(id)])
      else
        || s.world == w
        || (&& p.Some? && id in w.dirs[p.value].files && Readable(cfg.plugins.Keys, w.dirs[p.value].files[id])
            && var services := PlainServices(Listing(w.dirs[p.value].files[id]));
            && var c := RemoveCustomUpTo(cfg, w.vault, services, Sorted(services.Keys));
            && !c.ok && s.world == w.(vault := c.vault))
  {
    var p := FindParser(w.dirs, id, true);
    if p.Some? && id in w.dirs[p.value].files {
      ReadNew(cfg.plugins.Keys, w.dirs[p.value].files[id]);
    }
  }
}
