/**
 What an operation will do to references and plugin storage, told beforehand: from the state, the given
 parameters and the plugins' functions, without the outcome of the operation.
 */
module Foretold {
  import opened Base
  import opened Accounts
  import opened Environment
  import opened Lifecycle
  import opened AccountLaws
  import opened Turns
  import opened VaultLaws
  import opened Alone
  import opened StepLaws
  import opened References
  import opened Garbage
  import opened Limits
  import opened Frames

  /** The PLUGIN_ID a service would go to the file with, its plugin not storing it. */
  ghost function Brings(cfg: Config, act: Account, w: World, s: string): Option<string> {
    GivenKeys(cfg, act);
    if s !in act.services || s !in cfg.plugins || FirstWrite(cfg, act, w.items, w.vault, s).Some? then None else
    var answer := Answer(cfg, s, Given(cfg, act).services[s].params);
    if PLUGIN_ID in answer then Some(answer[PLUGIN_ID]) else None
  }

  lemma CarriedIsBrought(cfg: Config, act: Account, w: World, s: string)
    requires CleanPlugins(cfg) && Begins(cfg, act)
    ensures Carried(cfg, act, w.items, w.vault, s) == Brings(cfg, act, w, s)
  {
    if s in act.services {
      WritesAlone(cfg, act, w.items, w.vault, s);
    }
  }

  /** Whatever the services bring is live already and not used by another file. */
  ghost predicate BringsFree(cfg: Config, act: Account, w: World, p: nat, scope: set<int>) {
    forall s | Brings(cfg, act, w, s).Some? :: Free(w.dirs, w.vault, scope, p, act.id, s, Brings(cfg, act, w, s).value)
  }

  lemma CarriesWellTold(cfg: Config, act: Account, w: World, p: nat, scope: set<int>)
    requires CleanPlugins(cfg) && Begins(cfg, act)
    ensures CarriesWell(cfg, act, w, p, scope) <==> BringsFree(cfg, act, w, p, scope)
  {
    forall s ensures Carried(cfg, act, w.items, w.vault, s) == Brings(cfg, act, w, s) {
      CarriedIsBrought(cfg, act, w, s);
    }
  }

  /** Whether a create will leave every reference live and unshared. */
  lemma CreateKeepsRefsTold(cfg: Config, w: World, account: Account, newId: Uuid, scope: set<int>)
    requires Listable(cfg.dirOrder)
    requires CleanPlugins(cfg) && FreshWrites(cfg) && WellKept(w.dirs) && Fresh(w, newId)
    requires Covers(w.dirs, scope) && RefsSound(w.dirs, w.vault, scope)
    ensures
      var act, p := account.(id := newId), FindParser(w.dirs, NIL_ID, true);
      var w' := Create(cfg, w, account, newId).world;
      RefsSound(w'.dirs, w'.vault, scope) <==> (CreatePasses(cfg, w, act) ==> BringsFree(cfg, act, w, p.value, scope))
  {
    var act := account.(id := newId);
    CreateKeepsRefsIff(cfg, w, account, newId, scope);
    CreateSucceedsIff(cfg, w, account, newId);
    if CreatePasses(cfg, w, act) {
      CarriesWellTold(cfg, act, w, FindParser(w.dirs, NIL_ID, true).value, scope);
    }
  }

  /** Whether a modify will. */
  lemma ModifyKeepsRefsTold(cfg: Config, w: World, id: Uuid, account: Account, scope: set<int>)
    requires CleanPlugins(cfg) && FreshWrites(cfg) && WellKept(w.dirs) && UserFirst(w.dirs)
    requires Covers(w.dirs, scope) && RefsSound(w.dirs, w.vault, scope)
    ensures
      var act, p := account.(id := id), FindParser(w.dirs, id, true);
      var w' := Modify(cfg, w, id, account).world;
      RefsSound(w'.dirs, w'.vault, scope) <==> (ModifyPasses(cfg, w, act) ==> BringsFree(cfg, act, w, p.value, scope))
  {
    var act := account.(id := id);
    ModifyKeepsRefsIff(cfg, w, id, account, scope);
    ModifySucceedsIff(cfg, w, id, account);
    if ModifyPasses(cfg, w, act) {
      CarriesWellTold(cfg, act, w, FindParser(w.dirs, id, true).value, scope);
    }
  }

  /** Whether a create will leave an entry that no file refers to. */
  lemma CreateGarbageTold(cfg: Config, w: World, account: Account, newId: Uuid, scope: set<int>)
    requires Listable(cfg.dirOrder)
    requires CleanPlugins(cfg) && FreshWrites(cfg) && WellKept(w.dirs) && Fresh(w, newId)
    requires Covers(w.dirs, scope) && RefsSound(w.dirs, w.vault, scope) && NoGarbage(w.dirs, w.vault, scope)
    ensures
      var act := account.(id := newId);
      var w' := Create(cfg, w, account, newId).world;
      && Given(cfg, act).services.Keys == act.services.Keys
      && (NoGarbage(w'.dirs, w'.vault, scope) <==>
            (CreateReaches(cfg, w, act) && !CreatePasses(cfg, w, act) ==>
              forall k | k in act.services :: !Stores(cfg, act.title, k, Given(cfg, act).services[k].params, w.vault)))
  {
    var act := account.(id := newId);
    GivenKeys(cfg, act);
    CreateGarbageIff(cfg, w, account, newId, scope);
    LimitsAllowIff(cfg, w.dirs, act);
    CreateSucceedsIff(cfg, w, account, newId);
    if Begins(cfg, act) {
      NewStoresNothingIff(cfg, act, w);
    }
  }

  /** The new version brings every live reference of the old one. */
  ghost predicate BringsOn(cfg: Config, act: Account, w: World, p: nat) {
    forall e | RefersTo(w, p, act.id, e) :: Brings(cfg, act, w, e.plugin) == Some(e.id)
  }

  /** Whether a modify will. */
  lemma ModifyGarbageTold(cfg: Config, w: World, id: Uuid, account: Account, scope: set<int>)
    requires CleanPlugins(cfg) && FreshWrites(cfg) && WellKept(w.dirs) && UserFirst(w.dirs)
    requires Covers(w.dirs, scope) && RefsSound(w.dirs, w.vault, scope) && NoGarbage(w.dirs, w.vault, scope)
    ensures
      var act, p := account.(id := id), FindParser(w.dirs, id, true);
      var w' := Modify(cfg, w, id, account).world;
      NoGarbage(w'.dirs, w'.vault, scope)
      <==> if ModifyPasses(cfg, w, act) then BringsOn(cfg, act, w, p.value)
           else ModifyReaches(cfg, w, id, act) ==>
             forall k | k in act.services :: FirstWrite(cfg, act, w.items, w.vault, k).None?
  {
    var act, p := account.(id := id), FindParser(w.dirs, id, true);
    ModifyGarbageIff(cfg, w, id, account, scope);
    ModifySucceedsIff(cfg, w, id, account);
    if ModifyPasses(cfg, w, act) {
      forall s ensures Carried(cfg, act, w.items, w.vault, s) == Brings(cfg, act, w, s) {
        CarriedIsBrought(cfg, act, w, s);
      }
    } else if Begins(cfg, act) {
      StoresNothingTold(cfg, act, w);
    }
  }

  lemma StoresNothingTold(cfg: Config, act: Account, w: World)
    requires CleanPlugins(cfg) && Begins(cfg, act)
    ensures StoresNothing(cfg, act, w)
         <==> forall k | k in act.services :: FirstWrite(cfg, act, w.items, w.vault, k).None?
  {
    forall k | k in act.services ensures Writes(cfg, act, w.items, w.vault, k)
        == FirstWrite(cfg, act, w.items, w.vault, k) {
      WritesAlone(cfg, act, w.items, w.vault, k);
    }
    forall k | k !in act.services ensures Writes(cfg, act, w.items, w.vault, k).None? {
    }
  }
}
