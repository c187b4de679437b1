/** Counting accounts by service: what each operation does to the count, and the limit on it. */
module Limits {
  import opened Base
  import opened Accounts
  import opened Environment
  import opened AccountParsers
  import opened Lifecycle
  import opened AccountLaws
  import opened StepLaws

  /** The document is listed and has the service. */
  predicate Counts(cfg: Config, doc: Document, s: string) {
    Readable(cfg.plugins.Keys, doc) && s in Listing(doc)
  }

  function One(b: bool): nat {
    if b then 1 else 0
  }

  function CountingFiles(cfg: Config, files: map<Uuid, Document>, s: string): set<Uuid> {
    set id | id in files && Counts(cfg, files[id], s)
  }

  function DirCount(cfg: Config, files: map<Uuid, Document>, s: string): nat {
    |CountingFiles(cfg, files, s)|
  }

  function Total(cfg: Config, dirs: seq<Dir>, s: string): nat {
    if dirs == [] then 0 else Total(cfg, dirs[..|dirs| - 1], s) + DirCount(cfg, dirs[|dirs| - 1].files, s)
  }

  // ---------------------------------------------------------------- the loop's count is the number of files

  lemma {:induction false} CountAppend(a: seq<Account>, b: seq<Account>, s: string)
    ensures CountService(a + b, s) == CountService(a, s) + CountService(b, s)
  {
    if b == [] {
      assert a + b == a;
    } else {
      var n := |b| - 1;
      assert (a + b)[..|a| + n] == a + b[..n];
      CountAppend(a, b[..n], s);
    }
  }

  lemma CountOne(a: Account, s: string)
    ensures CountService([a], s) == One(s in a.services)
  {
    assert [a][..0] == [];
  }

  function CountingAmong(cfg: Config, files: map<Uuid, Document>, ids: seq<Uuid>, s: string): set<Uuid> {
    set id | id in ids && id in files && Counts(cfg, files[id], s)
  }

  lemma {:induction false} CountListed(cfg: Config, dir: Dir, ids: seq<Uuid>, s: string)
    requires forall i, j | 0 <= i < j < |ids| :: ids[i] != ids[j]
    ensures CountService(ListFiles(cfg, dir, ids), s) == |CountingAmong(cfg, dir.files, ids, s)|
  {
    if ids == [] {
      assert CountingAmong(cfg, dir.files, ids, s) == {};
    } else {
      var n := |ids| - 1;
      var id := ids[n];
      CountListed(cfg, dir, ids[..n], s);
      assert ids == ids[..n] + [id];
      var front := CountingAmong(cfg, dir.files, ids[..n], s);
      assert id !in front;
      var counts := id in dir.files && Counts(cfg, dir.files[id], s);
      assert CountingAmong(cfg, dir.files, ids, s) == if counts then front + {id} else front;
      if id in dir.files {
        ReadNew(cfg.plugins.Keys, dir.files[id]);
      }
      var r := ReadFile(cfg, dir, id, NEW_ACCOUNT);
      CountAppend(ListFiles(cfg, dir, ids[..n]), if r.ok then [r.account] else [], s);
      CountOne(r.account, s);
    }
  }

  lemma CountDir(cfg: Config, dir: Dir, s: string)
    requires Listable(cfg.dirOrder)
    ensures CountService(ListDir(cfg, dir), s) == DirCount(cfg, dir.files, s)
  {
    var ids := cfg.dirOrder(dir.files.Keys);
    assert Enumerates(ids, dir.files.Keys);
    CountListed(cfg, dir, ids, s);
    assert CountingAmong(cfg, dir.files, ids, s) == CountingFiles(cfg, dir.files, s);
  }

  /** Listing every directory and counting gives the number of readable files with the service. */
  lemma {:induction false} CountAll(cfg: Config, dirs: seq<Dir>, s: string)
    requires Listable(cfg.dirOrder)
    ensures CountService(ListAll(cfg, dirs), s) == Total(cfg, dirs, s)
  {
    if dirs != [] {
      var n := |dirs| - 1;
      CountAll(cfg, dirs[..n], s);
      CountAppend(ListAll(cfg, dirs[..n]), ListDir(cfg, dirs[n]), s);
      CountDir(cfg, dirs[n], s);
    }
  }

  // ---------------------------------------------------------------- the limit

  /** For each of the services whose plugin has a limit, fewer accounts than that have the service. */
  predicate HasRoom(cfg: Config, dirs: seq<Dir>, services: set<string>) {
    forall k | k in services && k in cfg.plugins && cfg.plugins[k].maxCount >= 0 ::
      Total(cfg, dirs, k) < cfg.plugins[k].maxCount
  }

  /** The limits allow an account iff there is room for each of its services. */
  lemma LimitsAllowIff(cfg: Config, dirs: seq<Dir>, account: Account)
    requires Listable(cfg.dirOrder)
    ensures WithinLimits(cfg, dirs, account) <==> HasRoom(cfg, dirs, account.services.Keys)
  {
    forall k | k in account.services ensures CountService(ListAll(cfg, dirs), k) == Total(cfg, dirs, k) {
      CountAll(cfg, dirs, k);
    }
    if HasRoom(cfg, dirs, account.services.Keys) {
      forall k | k in account.services ensures UnderLimit(cfg, ListAll(cfg, dirs), k) {
        assert k in account.services.Keys;
      }
    }
    if WithinLimits(cfg, dirs, account) {
      forall k | k in account.services.Keys && k in cfg.plugins && cfg.plugins[k].maxCount >= 0
        ensures Total(cfg, dirs, k) < cfg.plugins[k].maxCount
      {
        assert UnderLimit(cfg, ListAll(cfg, dirs), k);
      }
    }
  }

  // ---------------------------------------------------------------- one file changes

  lemma {:induction false} TotalUpdate(cfg: Config, dirs: seq<Dir>, p: nat, dir: Dir, s: string)
    requires p < |dirs|
    ensures Total(cfg, dirs[p := dir], s) + DirCount(cfg, dirs[p].files, s)
         == Total(cfg, dirs, s) + DirCount(cfg, dir.files, s)
  {
    var n := |dirs| - 1;
    if p < n {
      assert dirs[p := dir][..n] == dirs[..n][p := dir];
      TotalUpdate(cfg, dirs[..n], p, dir, s);
    } else {
      assert dirs[p := dir][..n] == dirs[..n];
    }
  }

  lemma DirCountWithout(cfg: Config, files: map<Uuid, Document>, id: Uuid, s: string)
    ensures DirCount(cfg, files, s)
         == DirCount(cfg, files - {id}, s) + One(id in files && Counts(cfg, files[id], s))
  {
    var all, rest := CountingFiles(cfg, files, s), CountingFiles(cfg, files - {id}, s);
    assert all == if id in files && Counts(cfg, files[id], s) then rest + {id} else rest;
  }

  lemma TotalWith(cfg: Config, dirs: seq<Dir>, p: nat, id: Uuid, doc: Document, s: string)
    requires p < |dirs|
    ensures Total(cfg, WithFile(dirs, p, id, doc), s) + One(id in dirs[p].files && Counts(cfg, dirs[p].files[id], s))
         == Total(cfg, dirs, s) + One(Counts(cfg, doc, s))
  {
    var files := dirs[p].files;
    TotalUpdate(cfg, dirs, p, dirs[p].(files := files[id := doc]), s);
    DirCountWithout(cfg, files, id, s);
    DirCountWithout(cfg, files[id := doc], id, s);
    assert files[id := doc] - {id} == files - {id};
  }

  lemma TotalWithout(cfg: Config, dirs: seq<Dir>, p: nat, id: Uuid, s: string)
    requires p < |dirs|
    ensures Total(cfg, WithoutFile(dirs, p, id), s) + One(id in dirs[p].files && Counts(cfg, dirs[p].files[id], s))
         == Total(cfg, dirs, s)
  {
    TotalUpdate(cfg, dirs, p, dirs[p].(files := dirs[p].files - {id}), s);
    DirCountWithout(cfg, dirs[p].files, id, s);
  }

  lemma CountsPrinted(cfg: Config, account: Account, s: string)
    requires account.services.Keys <= cfg.plugins.Keys
    ensures Counts(cfg, Print(account), s) <==> s in account.services
  {
    ReadOfPrint(cfg.plugins.Keys, account);
    ReadNew(cfg.plugins.Keys, Print(account));
    ListingOfPrint(account);
  }

  // ---------------------------------------------------------------- the operations

  /** A created account is itself listed and counted, once for each of its services. */
  lemma CreateCount(cfg: Config, w: World, account: Account, newId: Uuid, s: string)
    requires WellKept(w.dirs) && Unused(w, newId)
    ensures
      var o := Create(cfg, w, account, newId);
      Total(cfg, o.world.dirs, s) == Total(cfg, w.dirs, s) + One(o.ok && s in account.services)
  {
    var o := Create(cfg, w, account, newId);
    CreateOutcome(cfg, w, account, newId);
    VerifiedAccount(cfg, account.(id := newId), w.items, w.vault);
    if o.ok {
      var p := FindParser(w.dirs, NIL_ID, true).value;
      TotalWith(cfg, w.dirs, p, newId, Print(o.account), s);
      CountsPrinted(cfg, o.account, s);
    }
  }

  /** A modified account counts for its new services instead of its old ones. */
  lemma ModifyCount(cfg: Config, w: World, id: Uuid, account: Account, s: string)
    requires WellKept(w.dirs) && UserFirst(w.dirs)
    ensures
      var o := Modify(cfg, w, id, account);
      var was := ReadAccount(cfg, w, id, NEW_ACCOUNT).account;
      Total(cfg, o.world.dirs, s) + One(o.ok && s in was.services)
      == Total(cfg, w.dirs, s) + One(o.ok && s in account.services)
  {
    var o := Modify(cfg, w, id, account);
    ModifyOutcome(cfg, w, id, account);
    VerifiedAccount(cfg, account.(id := id), w.items, w.vault);
    ReadAccountMeaning(cfg, w, id);
    if o.ok {
      var p := FindParser(w.dirs, id, true).value;
      TotalWith(cfg, w.dirs, p, id, Print(o.account), s);
      CountsPrinted(cfg, o.account, s);
    }
  }

  /** A deleted account, which was readable, no longer counts for the services its file listed. */
  lemma DeleteCount(cfg: Config, w: World, id: Uuid, s: string)
    requires WellKept(w.dirs)
    ensures
      var d := Delete(cfg, w, id);
      var p := FindParser(w.dirs, id, true);
      && (d.ok ==> p.Some? && id in w.dirs[p.value].files)
      && Total(cfg, d.world.dirs, s) + One(d.ok && s in Listing(w.dirs[p.value].files[id])) == Total(cfg, w.dirs, s)
  {
    DeleteOutcome(cfg, w, id);
    if Delete(cfg, w, id).ok {
      var p := FindParser(w.dirs, id, true).value;
      TotalWithout(cfg, w.dirs, p, id, s);
      DeletedWasReadable(cfg, w, id);
    }
  }

  lemma DeletedWasReadable(cfg: Config, w: World, id: Uuid)
    requires WellKept(w.dirs) && Delete(cfg, w, id).ok
    ensures
      var p := FindParser(w.dirs, id, true);
      p.Some? && id in w.dirs[p.value].files && Readable(cfg.plugins.Keys, w.dirs[p.value].files[id])
  {
    var p := FindParser(w.dirs, id, true);
    if p.Some? && id in w.dirs[p.value].files {
      ReadNew(cfg.plugins.Keys, w.dirs[p.value].files[id]);
    }
  }

  /** The number of accounts with the service is at most the limit, or what there already was. */
  predicate WithinBound(cfg: Config, dirs: seq<Dir>, s: string, initial: nat) {
    s in cfg.plugins && cfg.plugins[s].maxCount >= 0 ==>
      Total(cfg, dirs, s) <= cfg.plugins[s].maxCount || Total(cfg, dirs, s) <= initial
  }

  lemma CreateKeepsBound(cfg: Config, w: World, account: Account, newId: Uuid, s: string, initial: nat)
    requires Listable(cfg.dirOrder)
    requires WellKept(w.dirs) && Unused(w, newId) && WithinBound(cfg, w.dirs, s, initial)
    ensures WithinBound(cfg, Create(cfg, w, account, newId).world.dirs, s, initial)
  {
    CreateCount(cfg, w, account, newId, s);
    CreateOutcome(cfg, w, account, newId);
    CountAll(cfg, w.dirs, s);
    if Create(cfg, w, account, newId).ok && s in account.services {
      assert UnderLimit(cfg, ListAll(cfg, w.dirs), s);
    }
  }

  /**
   Modify does not check limits. After a successful modify the count is within the limit iff there was
   room for the service it adds to the account, or the one it drops was not one too many; otherwise the
   count stays what it was.
   */
  lemma {:induction false} ModifyWithinLimitIff(cfg: Config, w: World, id: Uuid, account: Account, s: string)
    requires WellKept(w.dirs) && UserFirst(w.dirs)
    requires s in cfg.plugins && Modify(cfg, w, id, account).ok
    ensures
      var was := ReadAccount(cfg, w, id, NEW_ACCOUNT).account;
      var before, limit := Total(cfg, w.dirs, s), cfg.plugins[s].maxCount;
      Total(cfg, Modify(cfg, w, id, account).world.dirs, s) <= limit
      <==> if s in account.services && s !in was.services then before < limit
           else if s in was.services && s !in account.services then before <= limit + 1
           else before <= limit
  {
    ModifyCount(cfg, w, id, account, s);
  }
}
