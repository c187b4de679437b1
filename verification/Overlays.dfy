/** The ordered directories act as one map from ids to account files. */
module Overlays {
  import opened Base
  import opened Plugins
  import opened Accounts
  import opened Environment
  import opened AccountObjects
  import opened Lifecycle
  import opened AccountLaws
  import opened VaultLaws
  import opened StepLaws
  import opened Invariants
  import opened References

  /** No id has a file in two directories. */
  ghost predicate UniqueIds(dirs: seq<Dir>) {
    forall i, j, id | 0 <= i < j < |dirs| && id in dirs[i].files :: id !in dirs[j].files
  }

  /** All account files in one map. */
  function Overlay(dirs: seq<Dir>): map<Uuid, Document> {
    if dirs == [] then map[] else Overlay(dirs[..|dirs| - 1]) + dirs[|dirs| - 1].files
  }

  lemma {:induction false} OverlayAt(dirs: seq<Dir>, i: nat, id: Uuid)
    requires UniqueIds(dirs) && i < |dirs| && id in dirs[i].files
    ensures id in Overlay(dirs) && Overlay(dirs)[id] == dirs[i].files[id]
  {
    var n := |dirs| - 1;
    if i < n {
      assert dirs[..n][i] == dirs[i];
      OverlayAt(dirs[..n], i, id);
    }
  }

  lemma {:induction false} OverlayDomain(dirs: seq<Dir>, id: Uuid) returns (i: nat)
    requires id in Overlay(dirs)
    ensures i < |dirs| && id in dirs[i].files
  {
    var n := |dirs| - 1;
    if id in dirs[n].files {
      i := n;
    } else {
      i := OverlayDomain(dirs[..n], id);
    }
  }

  /** Reading selects what the one map holds. */
  lemma {:induction false} SelectedIsLookup(dirs: seq<Dir>, id: Uuid)
    requires UniqueIds(dirs) && id != NIL_ID
    ensures Selected(dirs, id) == if id in Overlay(dirs) then Some(Overlay(dirs)[id]) else None
  {
    var p := FindParser(dirs, id, false);
    if p.Some? {
      OverlayAt(dirs, p.value, id);
    } else if id in Overlay(dirs) {
      var i := OverlayDomain(dirs, id);
    }
  }

  predicate Holds(dirs: seq<Dir>, i: nat, id: Uuid) {
    i < |dirs| && id in dirs[i].files
  }

  /** The map holds the files of the directories and no others. */
  ghost predicate Covered(dirs: seq<Dir>, m: map<Uuid, Document>) {
    && (forall i: nat, id | Holds(dirs, i, id) :: id in m && m[id] == dirs[i].files[id])
    && (forall id | id in m :: exists i: nat :: Holds(dirs, i, id))
  }

  lemma OverlayEntry(dirs: seq<Dir>, m: map<Uuid, Document>, id: Uuid)
    requires UniqueIds(dirs) && Covered(dirs, m)
    ensures id in Overlay(dirs) <==> id in m
    ensures id in m ==> Overlay(dirs)[id] == m[id]
  {
    if id in Overlay(dirs) {
      var i := OverlayDomain(dirs, id);
      assert Holds(dirs, i, id);
    }
    if id in m {
      var i: nat :| Holds(dirs, i, id);
      OverlayAt(dirs, i, id);
    }
  }

  /** The directories have only one such map. */
  lemma OverlayByMembers(dirs: seq<Dir>, m: map<Uuid, Document>)
    requires UniqueIds(dirs) && Covered(dirs, m)
    ensures Overlay(dirs) == m
  {
    forall id ensures (id in Overlay(dirs) <==> id in m) && (id in m ==> Overlay(dirs)[id] == m[id]) {
      OverlayEntry(dirs, m, id);
    }
  }

  /** Writing a file whose id is in no other directory inserts or updates one entry. */
  lemma {:induction false} WriteIsUpdate(dirs: seq<Dir>, p: nat, id: Uuid, doc: Document)
    requires UniqueIds(dirs) && p < |dirs|
    requires forall i | 0 <= i < |dirs| && i != p :: id !in dirs[i].files
    ensures UniqueIds(WithFile(dirs, p, id, doc))
    ensures Overlay(WithFile(dirs, p, id, doc)) == Overlay(dirs)[id := doc]
  {
    var after, target := WithFile(dirs, p, id, doc), Overlay(dirs)[id := doc];
    forall i: nat, other | Holds(after, i, other)
      ensures other in target && target[other] == after[i].files[other]
    {
      if other != id {
        OverlayAt(dirs, i, other);
      }
    }
    forall other | other in target ensures exists i: nat :: Holds(after, i, other) {
      if other == id {
        assert Holds(after, p, other);
      } else {
        var i := OverlayDomain(dirs, other);
        assert Holds(after, i, other);
      }
    }
    OverlayByMembers(after, target);
  }

  /** Removing a file removes one entry. */
  lemma RemoveIsRemoval(dirs: seq<Dir>, p: nat, id: Uuid)
    requires UniqueIds(dirs) && p < |dirs| && id in dirs[p].files
    ensures UniqueIds(WithoutFile(dirs, p, id))
    ensures Overlay(WithoutFile(dirs, p, id)) == Overlay(dirs) - {id}
  {
    var after := WithoutFile(dirs, p, id);
    forall i: nat, other | Holds(after, i, other)
      ensures other in Overlay(dirs) - {id} && (Overlay(dirs) - {id})[other] == after[i].files[other]
    {
      OverlayAt(dirs, i, other);
    }
    forall other | other in Overlay(dirs) - {id} ensures exists i: nat :: Holds(after, i, other) {
      var i := OverlayDomain(dirs, other);
      assert Holds(after, i, other);
    }
    OverlayByMembers(after, Overlay(dirs) - {id});
  }

  // ---------------------------------------------------------------- the operations on the one map

  lemma CreateIsInsert(cfg: Config, w: World, account: Account, newId: Uuid)
    requires WellKept(w.dirs) && UniqueIds(w.dirs) && Unused(w, newId)
    ensures
      var o := Create(cfg, w, account, newId);
      && UniqueIds(o.world.dirs)
      && newId !in Overlay(w.dirs)
      && Overlay(o.world.dirs) == if o.ok then Overlay(w.dirs)[newId := Print(o.account)] else Overlay(w.dirs)
  {
    var o := Create(cfg, w, account, newId);
    CreateOutcome(cfg, w, account, newId);
    if newId in Overlay(w.dirs) {
      var i := OverlayDomain(w.dirs, newId);
    }
    if o.ok {
      WriteIsUpdate(w.dirs, FindParser(w.dirs, NIL_ID, true).value, newId, Print(o.account));
    }
  }

  lemma {:induction false} ModifyIsUpdate(cfg: Config, w: World, id: Uuid, account: Account)
    requires WellKept(w.dirs) && UserFirst(w.dirs) && UniqueIds(w.dirs)
    ensures
      var o := Modify(cfg, w, id, account);
      && UniqueIds(o.world.dirs)
      && (o.ok ==> id in Overlay(w.dirs))
      && Overlay(o.world.dirs) == if o.ok then Overlay(w.dirs)[id := Print(o.account)] else Overlay(w.dirs)
  {
    var o := Modify(cfg, w, id, account);
    ModifyOutcome(cfg, w, id, account);
    if o.ok {
      var p := FindParser(w.dirs, id, true).value;
      OverlayAt(w.dirs, p, id);
      WriteIsUpdate(w.dirs, p, id, Print(o.account));
    }
  }

  lemma DeleteIsRemoval(cfg: Config, w: World, id: Uuid)
    requires WellKept(w.dirs) && UniqueIds(w.dirs)
    ensures
      var s := Delete(cfg, w, id);
      && UniqueIds(s.world.dirs)
      && (s.ok ==> id in Overlay(w.dirs))
      && Overlay(s.world.dirs) == if s.ok then Overlay(w.dirs) - {id} else Overlay(w.dirs)
  {
    var s := Delete(cfg, w, id);
    DeleteOutcome(cfg, w, id);
    if s.ok {
      var p := FindParser(w.dirs, id, true).value;
      OverlayAt(w.dirs, p, id);
      RemoveIsRemoval(w.dirs, p, id);
    }
  }

  /**
   An account can be read iff the one map holds a readable file for it, and is then the account of that
   file, each service with the parameters listed there or with what its plugin reads for its reference.
   */
  lemma ReadIsLookup(cfg: Config, w: World, id: Uuid)
    requires WellKept(w.dirs) && UniqueIds(w.dirs) && id != NIL_ID
    ensures
      var r := ReadAccount(cfg, w, id, NEW_ACCOUNT);
      && (r.ok <==> id in Overlay(w.dirs) && Readable(cfg.plugins.Keys, Overlay(w.dirs)[id]))
      && (r.ok ==>
           var stored := Read(cfg.plugins.Keys, NEW_ACCOUNT, Overlay(w.dirs)[id]).account;
           r.account == stored.(services := SeenAll(cfg, w.vault, Listing(Overlay(w.dirs)[id]))))
  {
    ReadAccountMeaning(cfg, w, id);
    SelectedIsLookup(w.dirs, id);
    if id in Overlay(w.dirs) {
      ReadNew(cfg.plugins.Keys, Overlay(w.dirs)[id]);
    }
  }

  // ---------------------------------------------------------------- everyone else reads the same

  ghost predicate SameEntries(before: Vault, after: Vault, doc: Document) {
    forall s | DocRef(doc, s).Some? ::
      EntryOf(after, s, DocRef(doc, s).value) == EntryOf(before, s, DocRef(doc, s).value)
  }

  lemma CustomSame(cfg: Config, before: Vault, after: Vault, doc: Document)
    requires SameEntries(before, after, doc)
    ensures SeenAll(cfg, after, Listing(doc)) == SeenAll(cfg, before, Listing(doc))
  {
    var listing := Listing(doc);
    forall k | k in listing ensures Seen(cfg, after, k, listing[k]) == Seen(cfg, before, k, listing[k]) {
      if PLUGIN_ID in listing[k] {
        assert DocRef(doc, k) == Some(listing[k][PLUGIN_ID]);
        assert EntryOf(after, k, listing[k][PLUGIN_ID]) == EntryOf(before, k, listing[k][PLUGIN_ID]);
      }
    }
  }

  ghost predicate ReadsAlike(cfg: Config, w: World, w': World, id: Uuid) {
    var r, r' := ReadAccount(cfg, w, id, NEW_ACCOUNT), ReadAccount(cfg, w', id, NEW_ACCOUNT);
    r.ok == r'.ok && (r.ok ==> r'.account == r.account)
  }

  lemma ReadSame(cfg: Config, w: World, w': World, id: Uuid)
    requires WellKept(w.dirs) && WellKept(w'.dirs)
    requires Selected(w'.dirs, id) == Selected(w.dirs, id)
    requires Selected(w.dirs, id).Some? ==> SameEntries(w.vault, w'.vault, Selected(w.dirs, id).value)
    ensures ReadsAlike(cfg, w, w', id)
  {
    ReadAccountMeaning(cfg, w, id);
    ReadAccountMeaning(cfg, w', id);
    var r, r' := ReadAccount(cfg, w, id, NEW_ACCOUNT), ReadAccount(cfg, w', id, NEW_ACCOUNT);
    if r.ok {
      CustomSame(cfg, w.vault, w'.vault, Selected(w.dirs, id).value);
      assert r'.account == r'.account.(services := map[]).(services := r.account.services);
    }
  }

  /** Every directory. */
  function AllDirs(dirs: seq<Dir>): (scope: set<int>)
    ensures forall i :: i in scope <==> 0 <= i < |dirs|
  {
    if dirs == [] then {} else AllDirs(dirs[..|dirs| - 1]) + {|dirs| - 1}
  }

  lemma SelectedEntries(dirs: seq<Dir>, vault: Vault, id: Uuid, s: string)
    requires RefsLive(dirs, vault, AllDirs(dirs))
    requires Selected(dirs, id).Some? && DocRef(Selected(dirs, id).value, s).Some?
    ensures EntryKey(s, DocRef(Selected(dirs, id).value, s).value) in vault
  {
    var p := FindParser(dirs, id, false).value;
    assert Ref(dirs, p, id, s) == DocRef(Selected(dirs, id).value, s);
    assert p in AllDirs(dirs);
  }

  lemma {:induction false} CreateReadsOthers(cfg: Config, w: World, account: Account, newId: Uuid, other: Uuid)
    requires FreshWrites(cfg)
    requires WellKept(w.dirs) && Unused(w, newId) && RefsLive(w.dirs, w.vault, AllDirs(w.dirs))
    requires other != newId && other != NIL_ID
    ensures
      var w' := Create(cfg, w, account, newId).world;
      ReadsAlike(cfg, w, w', other)
  {
    var o := Create(cfg, w, account, newId);
    CreateOutcome(cfg, w, account, newId);
    VerifiedGrows(cfg, account.(id := newId), w.items, w.vault);
    if o.ok {
      var p := FindParser(w.dirs, NIL_ID, true).value;
      FilesElsewhere(w.dirs, p, newId, Print(o.account));
      WriteKeepsWell(w.dirs, p, o.account);
      SelectionElsewhere(w.dirs, o.world.dirs, newId, other);
    }
    LiveEntriesStay(w, o.world.vault, other);
    ReadSame(cfg, w, o.world, other);
  }

  lemma LiveEntriesStay(w: World, after: Vault, id: Uuid)
    requires RefsLive(w.dirs, w.vault, AllDirs(w.dirs)) && Grows(w.vault, after)
    ensures Selected(w.dirs, id).Some? ==> SameEntries(w.vault, after, Selected(w.dirs, id).value)
  {
    if Selected(w.dirs, id).Some? {
      forall s | DocRef(Selected(w.dirs, id).value, s).Some?
        ensures EntryKey(s, DocRef(Selected(w.dirs, id).value, s).value) in w.vault
      {
        SelectedEntries(w.dirs, w.vault, id, s);
      }
    }
  }

  lemma {:induction false} ModifyReadsOthers(cfg: Config, w: World, id: Uuid, account: Account, other: Uuid)
    requires FreshWrites(cfg)
    requires WellKept(w.dirs) && UserFirst(w.dirs) && RefsLive(w.dirs, w.vault, AllDirs(w.dirs))
    requires other != id && other != NIL_ID
    ensures
      var w' := Modify(cfg, w, id, account).world;
      ReadsAlike(cfg, w, w', other)
  {
    var o := Modify(cfg, w, id, account);
    ModifyOutcome(cfg, w, id, account);
    VerifiedGrows(cfg, account.(id := id), w.items, w.vault);
    if o.ok {
      var p := FindParser(w.dirs, id, true).value;
      FilesElsewhere(w.dirs, p, id, Print(o.account));
      WriteKeepsWell(w.dirs, p, o.account);
      SelectionElsewhere(w.dirs, o.world.dirs, id, other);
    }
    LiveEntriesStay(w, o.world.vault, other);
    ReadSame(cfg, w, o.world, other);
  }

  /** Deleting one account never breaks another, wherever its file is kept. */
  lemma DeleteReadsOthers(cfg: Config, w: World, id: Uuid, other: Uuid)
    requires WellKept(w.dirs) && RefsSound(w.dirs, w.vault, AllDirs(w.dirs))
    requires other != id && other != NIL_ID
    ensures
      var w' := Delete(cfg, w, id).world;
      ReadsAlike(cfg, w, w', other)
  {
    var s := Delete(cfg, w, id);
    DeleteOutcome(cfg, w, id);
    if s.ok {
      var p := FindParser(w.dirs, id, true).value;
      FilesElsewhere(w.dirs, p, id, Unreadable);
      RemoveKeepsWell(w.dirs, p, id);
      SelectionElsewhere(w.dirs, s.world.dirs, id, other);
      if Selected(w.dirs, other).Some? {
        OtherEntriesStay(cfg, w, p, id, other);
      }
      ReadSame(cfg, w, s.world, other);
    } else if s.world != w {
      if Selected(w.dirs, other).Some? {
        OtherEntriesStay(cfg, w, FindParser(w.dirs, id, true).value, id, other);
      }
      ReadSame(cfg, w, s.world, other);
    }
  }

  lemma OtherEntriesStay(cfg: Config, w: World, p: nat, id: Uuid, other: Uuid)
    requires RefsSound(w.dirs, w.vault, AllDirs(w.dirs))
    requires p < |w.dirs| && id in w.dirs[p].files && other != id && Selected(w.dirs, other).Some?
    ensures
      var services := PlainServices(Listing(w.dirs[p].files[id]));
      SameEntries(w.vault, RemoveCustomUpTo(cfg, w.vault, services, Sorted(services.Keys)).vault,
          Selected(w.dirs, other).value)
  {
    var services := PlainServices(Listing(w.dirs[p].files[id]));
    var doc := Selected(w.dirs, other).value;
    var q := FindParser(w.dirs, other, false).value;
    RemovalExact(cfg, w.vault, services, Sorted(services.Keys));
    NoneRefuses(cfg, w.vault, services, Sorted(services.Keys));
    forall s | DocRef(doc, s).Some?
      ensures EntryKey(s, DocRef(doc, s).value) in w.vault
      ensures EntryKey(s, DocRef(doc, s).value) !in RefKeys(services, Sorted(services.Keys))
    {
      SelectedEntries(w.dirs, w.vault, other, s);
      StoredRefs(w.dirs, p, id, EntryKey(s, DocRef(doc, s).value));
      assert Ref(w.dirs, q, other, s) == DocRef(doc, s);
      assert p in AllDirs(w.dirs) && q in AllDirs(w.dirs);
    }
  }
}
