/** Deleting an account that has just been created undoes the creation. */
module Undo {
  import opened Base
  import opened Secrets
  import opened Plugins
  import opened Accounts
  import opened Environment
  import opened AccountObjects
  import opened Lifecycle
  import opened TokenLaws
  import opened AccountLaws
  import opened VaultLaws
  import opened StepLaws
  import opened Invariants
  import opened References

  lemma SecretsRestored(before: seq<SecretItem>, after: seq<SecretItem>, id: Uuid, names: seq<string>)
    requires Appends(before, after, id, names)
    requires forall k | 0 <= k < |before| :: !Matches(before[k], AccountQuery(id))
    ensures Without(after, AccountQuery(id)) == before
  {
    var added :| after == before + added && forall item | item in added :: InServices(item, id, names);
    forall item | item in added ensures Matches(item, AccountQuery(id)) {
      InServicesBelongs(item, id, names);
    }
    WithoutAppend(before, added, AccountQuery(id));
    WithoutAll(added, AccountQuery(id));
    WithoutNone(before, AccountQuery(id));
  }

  lemma WritableHolder(dirs: seq<Dir>, p: nat, id: Uuid, doc: Document)
    requires p < |dirs| && !dirs[p].readOnly
    requires id != NIL_ID && forall i | 0 <= i < |dirs| :: id !in dirs[i].files
    ensures FindParser(WithFile(dirs, p, id, doc), id, true) == Some(p)
    ensures WithoutFile(WithFile(dirs, p, id, doc), p, id) == dirs
  {
    FirstIs(WithFile(dirs, p, id, doc), id, true, p);
    assert dirs[p].files[id := doc] - {id} == dirs[p].files;
    assert WithoutFile(WithFile(dirs, p, id, doc), p, id)[p] == dirs[p];
  }

  /** Deleting an account whose printed file is the one selected. */
  lemma DeletePrinted(cfg: Config, w: World, p: nat, account: Account)
    requires p < |w.dirs| && FindParser(w.dirs, account.id, true) == Some(p) && account.id in w.dirs[p].files
    requires w.dirs[p].files[account.id] == Print(account) && account.services.Keys <= cfg.plugins.Keys
    ensures
      var c := RemoveCustomUpTo(cfg, w.vault, Stored(account.services), Sorted(account.services.Keys));
      Delete(cfg, w, account.id) ==
        if c.ok then
          Step(true, World(
            WithoutFile(w.dirs, p, account.id),
            Without(w.items, AccountQuery(account.id)),
            c.vault,
            w.status - {account.id},
            w.log + [Deleted(account.id)]))
        else
          Step(false, w.(vault := c.vault))
  {
    ReadOfPrint(cfg.plugins.Keys, account);
    assert Stored(account.services).Keys == account.services.Keys;
  }

  /** The plugin entries the account's file refers to. */
  ghost function Entries(account: Account): set<EntryKey> {
    RefKeys(Stored(account.services), Sorted(account.services.Keys))
  }

  lemma EntriesAreRefs(account: Account, e: EntryKey)
    ensures e in Entries(account) <==> DocRef(Print(account), e.plugin) == Some(e.id)
  {
    ListingOfPrint(account);
    RefAmong(Stored(account.services), Sorted(account.services.Keys), e);
  }

  /** Every entry a verification has added is one the account's file refers to. */
  lemma NewAreEntries(cfg: Config, account: Account, items: seq<SecretItem>, vault: Vault, e: EntryKey)
    requires VerifyAccount(cfg, account, items, vault).ok
    requires e in VerifyAccount(cfg, account, items, vault).vault && e !in vault
    ensures e in Entries(VerifyAccount(cfg, account, items, vault).account)
  {
    VerifiedKeys(cfg, account, items, vault, e);
    StoredRef(cfg, account, items, vault, e.plugin);
    EntriesAreRefs(VerifyAccount(cfg, account, items, vault).account, e);
  }

  /** Taking entries out of a storage that has grown restores it iff the new ones go and the old ones stay. */
  lemma VaultRestoredIff(before: Vault, after: Vault, taken: set<EntryKey>)
    requires Grows(before, after)
    ensures after - taken == before <==> forall e | e in after :: e in taken <==> e !in before
  {
    if forall e | e in after :: e in taken <==> e !in before {
      assert (after - taken).Keys == before.Keys;
    }
  }

  /** Plugin storage after the removal is that of before the verification iff exactly the new entries are let go. */
  lemma RemovalOfVerified(cfg: Config, account: Account, items: seq<SecretItem>, vault: Vault)
    requires FreshWrites(cfg) && VerifyAccount(cfg, account, items, vault).ok
    ensures
      var r := VerifyAccount(cfg, account, items, vault);
      r.vault - LetGo(cfg, r.vault, Entries(r.account)) == vault
      <==> forall e | e in Entries(r.account) && e in r.vault :: LetsGo(cfg, r.vault, e) <==> e !in vault
  {
    var r := VerifyAccount(cfg, account, items, vault);
    VerifiedGrows(cfg, account, items, vault);
    VaultRestoredIff(vault, r.vault, LetGo(cfg, r.vault, Entries(r.account)));
    forall e | e in r.vault && e !in vault ensures e in Entries(r.account) {
      NewAreEntries(cfg, account, items, vault, e);
    }
  }

  /**
   Deleting an account that has just been created goes through iff no plugin refuses to remove an entry
   its file refers to. Then every directory, the secret store and the statuses are exactly as before the
   create, and the log has just the two events. The plugins' storage is as before iff, among the entries
   referred to, the plugins let go of the new ones and of no others.
   */
  lemma CreateThenDelete(cfg: Config, w: World, account: Account, newId: Uuid)
    requires CleanPlugins(cfg) && FreshWrites(cfg)
    requires WellKept(w.dirs) && Fresh(w, newId)
    requires Create(cfg, w, account, newId).ok
    ensures
      var o := Create(cfg, w, account, newId);
      var d := Delete(cfg, o.world, newId);
      && (d.ok <==> forall e | e in Entries(o.account) :: !Refuses(cfg, o.world.vault, e))
      && (d.ok ==> d.world == w.(log := w.log + [Created(newId)] + [Deleted(newId)],
                                 vault := o.world.vault - LetGo(cfg, o.world.vault, Entries(o.account))))
      && (d.ok ==>
           (d.world.vault == w.vault
            <==> forall e | e in Entries(o.account) && e in o.world.vault ::
                   LetsGo(cfg, o.world.vault, e) <==> e !in w.vault))
  {
    var o := Create(cfg, w, account, newId);
    CreateOutcome(cfg, w, account, newId);
    CreateSecrets(cfg, w, account, newId);
    RemovalOfVerified(cfg, account.(id := newId), w.items, w.vault);
    var p := FindParser(w.dirs, NIL_ID, true).value;
    WritableHolder(w.dirs, p, newId, Print(o.account));
    DeletePrinted(cfg, o.world, p, o.account);
    RemovalExact(cfg, o.world.vault, Stored(o.account.services), Sorted(o.account.services.Keys));
    NoneRefuses(cfg, o.world.vault, Stored(o.account.services), Sorted(o.account.services.Keys));
    SecretsRestored(w.items, o.world.items, newId, Sorted(o.account.services.Keys));
    UpdateAndForget(w.status, newId, NONE);
  }
}
