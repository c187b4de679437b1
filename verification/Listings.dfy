/** Listing agrees with reading, and filtering is a selection in order. */
module Listings {
  import opened Base
  import opened Accounts
  import opened Environment
  import opened AccountParsers
  import opened Lifecycle
  import opened StepLaws
  import opened Overlays

  /** The account a directory lists for one of its files. */
  predicate ListedFrom(cfg: Config, dir: Dir, id: Uuid, account: Account) {
    && id in dir.files && Readable(cfg.plugins.Keys, dir.files[id])
    && account == Read(cfg.plugins.Keys, NEW_ACCOUNT, dir.files[id]).account
  }

  lemma {:induction false} ListFilesMembers(cfg: Config, dir: Dir, ids: seq<Uuid>)
    ensures forall a :: a in ListFiles(cfg, dir, ids) <==> exists id :: id in ids && ListedFrom(cfg, dir, id, a)
  {
    if ids != [] {
      var n := |ids| - 1;
      ListFilesMembers(cfg, dir, ids[..n]);
      assert ids == ids[..n] + [ids[n]];
      if ids[n] in dir.files {
        ReadNew(cfg.plugins.Keys, dir.files[ids[n]]);
      }
      var r := ReadFile(cfg, dir, ids[n], NEW_ACCOUNT);
      forall a ensures a in ListFiles(cfg, dir, ids) <==> exists id :: id in ids && ListedFrom(cfg, dir, id, a) {
        assert ListedFrom(cfg, dir, ids[n], a) <==> r.ok && a == r.account;
      }
    }
  }

  lemma ListDirMembers(cfg: Config, dir: Dir, a: Account)
    requires Listable(cfg.dirOrder)
    ensures a in ListDir(cfg, dir) <==> exists id :: ListedFrom(cfg, dir, id, a)
  {
    var ids := cfg.dirOrder(dir.files.Keys);
    assert Enumerates(ids, dir.files.Keys);
    ListFilesMembers(cfg, dir, ids);
    if id :| ListedFrom(cfg, dir, id, a) {
      assert id in ids;
    }
  }

  lemma {:induction false} ListAllMembers(cfg: Config, dirs: seq<Dir>, a: Account)
    requires Listable(cfg.dirOrder)
    ensures a in ListAll(cfg, dirs) <==> exists i, id :: 0 <= i < |dirs| && ListedFrom(cfg, dirs[i], id, a)
  {
    if dirs != [] {
      var n := |dirs| - 1;
      ListAllMembers(cfg, dirs[..n], a);
      ListDirMembers(cfg, dirs[n], a);
      if i, id :| 0 <= i < |dirs| && ListedFrom(cfg, dirs[i], id, a) {
        if i < n { assert dirs[..n][i] == dirs[i]; }
      }
      if i, id :| 0 <= i < n && ListedFrom(cfg, dirs[..n][i], id, a) {
        assert dirs[..n][i] == dirs[i];
      }
    }
  }

  /** With one file per id, the ids listed are exactly those that can be read. */
  lemma ListAgreesWithRead(cfg: Config, w: World, id: Uuid)
    requires Listable(cfg.dirOrder) && WellKept(w.dirs) && UniqueIds(w.dirs) && id != NIL_ID
    ensures (exists a :: a in ListAll(cfg, w.dirs) && a.id == id) <==> ReadAccount(cfg, w, id, NEW_ACCOUNT).ok
  {
    ReadAccountMeaning(cfg, w, id);
    SelectedIsLookup(w.dirs, id);
    if a :| a in ListAll(cfg, w.dirs) && a.id == id {
      ListAllMembers(cfg, w.dirs, a);
      var i, other :| 0 <= i < |w.dirs| && ListedFrom(cfg, w.dirs[i], other, a);
      ReadNew(cfg.plugins.Keys, w.dirs[i].files[other]);
      OverlayAt(w.dirs, i, id);
    }
    if ReadAccount(cfg, w, id, NEW_ACCOUNT).ok {
      var p := FindParser(w.dirs, id, false).value;
      var a := Read(cfg.plugins.Keys, NEW_ACCOUNT, w.dirs[p].files[id]).account;
      ReadNew(cfg.plugins.Keys, w.dirs[p].files[id]);
      assert ListedFrom(cfg, w.dirs[p], id, a);
      ListAllMembers(cfg, w.dirs, a);
    }
  }

  // ---------------------------------------------------------------- the order of the list

  lemma {:induction false} ListFilesAppend(cfg: Config, dir: Dir, a: seq<Uuid>, b: seq<Uuid>)
    ensures ListFiles(cfg, dir, a + b) == ListFiles(cfg, dir, a) + ListFiles(cfg, dir, b)
  {
    if b == [] {
      assert a + b == a;
    } else {
      var n := |b| - 1;
      assert (a + b)[..|a| + n] == a + b[..n];
      ListFilesAppend(cfg, dir, a, b[..n]);
    }
  }

  /** Where a file's turn comes, its account is listed once if it can be read, and nothing if it cannot. */
  lemma FileListed(cfg: Config, dir: Dir, before: seq<Uuid>, id: Uuid, after: seq<Uuid>)
    ensures
      var one := if id in dir.files && Readable(cfg.plugins.Keys, dir.files[id])
                 then [Read(cfg.plugins.Keys, NEW_ACCOUNT, dir.files[id]).account] else [];
      ListFiles(cfg, dir, before + [id] + after) == ListFiles(cfg, dir, before) + one + ListFiles(cfg, dir, after)
  {
    ListFilesAppend(cfg, dir, before + [id], after);
    ListFilesAppend(cfg, dir, before, [id]);
    assert [id][..0] == [];
    if id in dir.files {
      ReadNew(cfg.plugins.Keys, dir.files[id]);
    }
  }

  lemma {:induction false} ListAllAppend(cfg: Config, a: seq<Dir>, b: seq<Dir>)
    ensures ListAll(cfg, a + b) == ListAll(cfg, a) + ListAll(cfg, b)
  {
    if b == [] {
      assert a + b == a;
    } else {
      var n := |b| - 1;
      assert (a + b)[..|a| + n] == a + b[..n];
      ListAllAppend(cfg, a, b[..n]);
    }
  }

  /** Directories are listed one after the other, the files of each in its listing order. */
  lemma DirectoryListed(cfg: Config, before: seq<Dir>, dir: Dir, after: seq<Dir>)
    ensures ListAll(cfg, before + [dir] + after)
         == ListAll(cfg, before) + ListFiles(cfg, dir, cfg.dirOrder(dir.files.Keys)) + ListAll(cfg, after)
  {
    ListAllAppend(cfg, before + [dir], after);
    ListAllAppend(cfg, before, [dir]);
    assert [dir][..0] == [];
  }

  // ---------------------------------------------------------------- filters

  /** No filter at all, or one of the providers, or one of the services, is the account's. */
  predicate Wanted(account: Account, providers: seq<string>, services: seq<string>) {
    || (|providers| == 0 && |services| == 0)
    || (exists i :: 0 <= i < |providers| && providers[i] == account.provider)
    || (exists k :: k in account.services.Keys && exists i :: 0 <= i < |services| && services[i] == k)
  }

  lemma AcceptedIsWanted(account: Account, providers: seq<string>, services: seq<string>)
    ensures Accepted(account, providers, services) <==> Wanted(account, providers, services)
  {
  }

  /** Positions in ascending order. */
  ghost predicate Climbs(positions: seq<nat>, limit: nat) {
    && (forall k | 0 <= k < |positions| :: positions[k] < limit)
    && (forall j, k | 0 <= j < k < |positions| :: positions[j] < positions[k])
  }

  /** The positions select exactly the accepted accounts. */
  ghost predicate Selects(positions: seq<nat>, accounts: seq<Account>, providers: seq<string>, services: seq<string>) {
    && Climbs(positions, |accounts|)
    && forall i: nat | i < |accounts| :: i in positions <==> Wanted(accounts[i], providers, services)
  }

  lemma ClimbsOn(front: seq<nat>, n: nat)
    requires Climbs(front, n)
    ensures Climbs(front, n + 1) && Climbs(front + [n], n + 1)
    ensures n !in front && forall i: nat :: i in front + [n] <==> i in front || i == n
  {
  }

  lemma SelectsOneMore(front: seq<nat>, accounts: seq<Account>, providers: seq<string>, services: seq<string>)
    requires accounts != [] && Selects(front, accounts[..|accounts| - 1], providers, services)
    ensures
      var n := |accounts| - 1;
      Selects(if Wanted(accounts[n], providers, services) then front + [n] else front, accounts, providers, services)
  {
    var n := |accounts| - 1;
    ClimbsOn(front, n);
    var positions := if Wanted(accounts[n], providers, services) then front + [n] else front;
    forall i: nat | i < |accounts| ensures i in positions <==> Wanted(accounts[i], providers, services) {
      if i < n {
        assert accounts[..n][i] == accounts[i];
      }
    }
  }

  /** The accounts at the given positions. */
  function At(accounts: seq<Account>, positions: seq<nat>): seq<Account>
    requires forall k | 0 <= k < |positions| :: positions[k] < |accounts|
  {
    seq(|positions|, k requires 0 <= k < |positions| => accounts[positions[k]])
  }

  lemma AtOneMore(accounts: seq<Account>, front: seq<nat>)
    requires accounts != [] && Climbs(front, |accounts| - 1)
    ensures
      var n := |accounts| - 1;
      At(accounts, front) == At(accounts[..n], front)
          && At(accounts, front + [n]) == At(accounts[..n], front) + [accounts[n]]
  {
  }

  /** Where the accepted accounts are. */
  function Positions(accounts: seq<Account>, providers: seq<string>, services: seq<string>): seq<nat> {
    if accounts == [] then []
    else
      var n := |accounts| - 1;
      var front := Positions(accounts[..n], providers, services);
      if Wanted(accounts[n], providers, services) then front + [n] else front
  }

  lemma {:induction false} PositionsSelect(accounts: seq<Account>, providers: seq<string>, services: seq<string>)
    ensures Selects(Positions(accounts, providers, services), accounts, providers, services)
  {
    if accounts != [] {
      var n := |accounts| - 1;
      PositionsSelect(accounts[..n], providers, services);
      SelectsOneMore(Positions(accounts[..n], providers, services), accounts, providers, services);
    }
  }

  /** The filtered list is the matching accounts in their order: each of them once, and no others. */
  lemma {:induction false} FilteredIsSelection(accounts: seq<Account>, providers: seq<string>, services: seq<string>)
    ensures Selects(Positions(accounts, providers, services), accounts, providers, services)
    ensures Filtered(accounts, providers, services) == At(accounts, Positions(accounts, providers, services))
  {
    PositionsSelect(accounts, providers, services);
    if accounts != [] {
      var n := |accounts| - 1;
      FilteredIsSelection(accounts[..n], providers, services);
      AcceptedIsWanted(accounts[n], providers, services);
      AtOneMore(accounts, Positions(accounts[..n], providers, services));
    }
  }
}
