/**
 The account life cycle as a state machine: what each operation of the account manager does to the
 directories, the secret store, the plugins' storage, the statuses and the event log.
 */
module Lifecycle {
  import opened Base
  import opened Secrets
  import opened Accounts
  import opened Environment
  import opened AccountObjects
  import opened AccountParsers

  /** The directories an account manager opens: the user's own, then the read-only ones. */
  function Opened(userDirs: seq<map<Uuid, Document>>, readOnlyDirs: seq<map<Uuid, Document>>): seq<Dir> {
    seq(|userDirs|, i requires 0 <= i < |userDirs| => Dir(false, userDirs[i]))
    + seq(|readOnlyDirs|, i requires 0 <= i < |readOnlyDirs| => Dir(true, readOnlyDirs[i]))
  }

  predicate Serves(dir: Dir, id: Uuid, onlyWritable: bool) {
    (!onlyWritable || !dir.readOnly) && (id in dir.files || id == NIL_ID)
  }

  /** The first directory, from the given one on, that serves the id. */
  function FindParser(dirs: seq<Dir>, id: Uuid, onlyWritable: bool, from: nat := 0): (r: Option<nat>)
    requires from <= |dirs|
    ensures r.Some? ==> from <= r.value < |dirs| && Serves(dirs[r.value], id, onlyWritable)
    ensures r.Some? ==> forall i | from <= i < r.value :: !Serves(dirs[i], id, onlyWritable)
    ensures r.None? ==> forall i | from <= i < |dirs| :: !Serves(dirs[i], id, onlyWritable)
    decreases |dirs| - from
  {
    if from == |dirs| then None
    else if Serves(dirs[from], id, onlyWritable) then Some(from)
    else FindParser(dirs, id, onlyWritable, from + 1)
  }

  function ReadAccount(cfg: Config, w: World, id: Uuid, account: Account): ReadResult {
    var p := FindParser(w.dirs, id, false);
    if p.None? then ReadResult(false, account) else
    var r := ReadFile(cfg, w.dirs[p.value], id, account);
    if r.ok then ReadResult(true, r.account.(services := ReadCustomAll(cfg, w.vault, r.account.services))) else r
  }

  // ---------------------------------------------------------------- listing and limits

  function ListAll(cfg: Config, dirs: seq<Dir>): seq<Account> {
    if dirs == [] then [] else ListAll(cfg, dirs[..|dirs| - 1]) + ListDir(cfg, dirs[|dirs| - 1])
  }

  predicate Accepted(account: Account, providers: seq<string>, services: seq<string>) {
    || (providers == [] && services == [])
    || account.provider in providers
    || exists i | 0 <= i < |services| :: services[i] in account.services
  }

  function Filtered(accounts: seq<Account>, providers: seq<string>, services: seq<string>): seq<Account> {
    if accounts == [] then []
    else
      var n := |accounts| - 1;
      Filtered(accounts[..n], providers, services)
      + if Accepted(accounts[n], providers, services) then [accounts[n]] else []
  }

  function CountService(accounts: seq<Account>, name: string): nat {
    if accounts == [] then 0
    else
      var n := |accounts| - 1;
      CountService(accounts[..n], name) + if name in accounts[n].services then 1 else 0
  }

  predicate UnderLimit(cfg: Config, accounts: seq<Account>, name: string) {
    name in cfg.plugins && cfg.plugins[name].maxCount >= 0 ==> CountService(accounts, name) < cfg.plugins[name].maxCount
  }

  predicate WithinLimits(cfg: Config, dirs: seq<Dir>, account: Account) {
    forall k | k in account.services :: UnderLimit(cfg, ListAll(cfg, dirs), k)
  }

  // ---------------------------------------------------------------- the operations

  function StatusOf(status: map<Uuid, Status>, id: Uuid): Status {
    if id in status then status[id] else NONE
  }

  datatype Step = Step(ok: bool, world: World)

  function SetStatus(cfg: Config, w: World, id: Uuid, now: Status): Step {
    var r := ReadAccount(cfg, w, id, NEW_ACCOUNT);
    if !r.ok then Step(false, w) else
    var was := StatusOf(w.status, r.account.id);
    Step(true, w.(status := w.status[r.account.id := now],
                  log := if was != now then w.log + [StatusChanged(r.account.id, was, now)] else w.log))
  }

  /** An operation on an account given by the caller, which it changes along the way. */
  datatype Outcome = Outcome(ok: bool, world: World, account: Account)

  /** Saves a verified account into directory p and resets the status kept under an id. */
  ghost function Store(cfg: Config, w: World, p: nat, account: Account, id: Uuid): Step
    requires p < |w.dirs|
  {
    var d := WriteFile(w.dirs[p], account);
    if !d.ok then Step(false, w)
    else Step(true, SetStatus(cfg, w.(dirs := w.dirs[p := d.dir]), id, NONE).world)
  }

  ghost function Announce(s: Step, event: Event): Step {
    if s.ok then s.(world := s.world.(log := s.world.log + [event])) else s
  }

  /** Verification and saving of a new account that is within the limits. */
  ghost function Admit(cfg: Config, w: World, p: nat, account: Account, newId: Uuid): Outcome
    requires p < |w.dirs|
  {
    var r := VerifyAccount(cfg, account, w.items, w.vault);
    var w1 := w.(items := r.items, vault := r.vault);
    if !r.ok then Outcome(false, w1, r.account) else
    var s := Announce(Store(cfg, w1, p, r.account, newId), Created(r.account.id));
    Outcome(s.ok, s.world, r.account)
  }

  ghost function CreateIn(cfg: Config, w: World, p: nat, account: Account, newId: Uuid): Outcome
    requires p < |w.dirs|
  {
    var act := account.(id := newId);
    if WithinLimits(cfg, w.dirs, act) then Admit(cfg, w, p, act, newId) else Outcome(false, w, act)
  }

  ghost function Create(cfg: Config, w: World, account: Account, newId: Uuid): Outcome {
    var p := FindParser(w.dirs, NIL_ID, true);
    if p.None? then Outcome(false, w, account) else CreateIn(cfg, w, p.value, account, newId)
  }

  /** Saves the new version of an account and drops the secrets of the services it gave up. */
  ghost function Replace(cfg: Config, w: World, p: nat, was: Account, account: Account): Step
    requires p < |w.dirs|
  {
    var s := Store(cfg, w, p, account, was.id);
    if !s.ok then s else
    Announce(s.(world := s.world.(
      items := CleanedUp(s.world.items, was.id, Sorted(was.services.Keys), account.services.Keys))), Modified(was.id))
  }

  ghost function ModifyIn(cfg: Config, w: World, p: nat, was: Account, account: Account, id: Uuid): Outcome
    requires p < |w.dirs|
  {
    var r := VerifyAccount(cfg, account.(id := id), w.items, w.vault);
    var w1 := w.(items := r.items, vault := r.vault);
    if !r.ok then Outcome(false, w1, r.account) else
    var s := Replace(cfg, w1, p, was, r.account);
    Outcome(s.ok, s.world, r.account)
  }

  ghost function Modify(cfg: Config, w: World, id: Uuid, account: Account): Outcome {
    var r := ReadAccount(cfg, w, id, NEW_ACCOUNT);
    if !r.ok then Outcome(false, w, account) else
    var p := FindParser(w.dirs, r.account.id, true);
    if p.None? then Outcome(false, w, account) else ModifyIn(cfg, w, p.value, r.account, account, id)
  }

  ghost function Delete(cfg: Config, w: World, id: Uuid): Step {
    var p := FindParser(w.dirs, id, true);
    if p.None? then Step(false, w) else
    var r := ReadFile(cfg, w.dirs[p.value], id, NEW_ACCOUNT);
    if !r.ok then Step(false, w) else
    var c := RemoveCustomUpTo(cfg, w.vault, r.account.services, Sorted(r.account.services.Keys));
    if !c.ok then Step(false, w.(vault := c.vault)) else
    var w1 := w.(vault := c.vault, items := Without(w.items, AccountQuery(r.account.id)));
    var d := RemoveFile(w.dirs[p.value], id);
    if !d.ok then Step(false, w1) else
    Step(true, w1.(dirs := w.dirs[p.value := d.dir], status := w.status - {r.account.id},
                   log := w.log + [Deleted(r.account.id)]))
  }

  // ---------------------------------------------------------------- accounts made for plugins

  function DefaultAccount(title: string): Account {
    NEW_ACCOUNT.(title := "Default - " + title, active := true, services := map[title := Plain(map[])])
  }

  /** One plugin's turn: an account is made for it unless the listed accounts already have one. */
  ghost function AutoInitOne(cfg: Config, w: World, listed: seq<Account>, title: string, newId: Uuid): World
    requires title in cfg.plugins
  {
    if cfg.plugins[title].autoInit && CountService(listed, title) == 0
    then Create(cfg, w, DefaultAccount(title), newId).world
    else w
  }

  ghost function AutoInitUpTo(cfg: Config, w: World, listed: seq<Account>, titles: seq<string>, ids: seq<Uuid>): World
    requires |titles| == |ids| && forall t | t in titles :: t in cfg.plugins
  {
    if titles == [] then w
    else
      var n := |titles| - 1;
      AutoInitOne(cfg, AutoInitUpTo(cfg, w, listed, titles[..n], ids[..n]), listed, titles[n], ids[n])
  }

  /** Every plugin in turn, against the accounts listed before the first of them. */
  ghost function AutoInit(cfg: Config, w: World, ids: seq<Uuid>): World
    requires |ids| == |Sorted(cfg.plugins.Keys)|
  {
    AutoInitUpTo(cfg, w, ListAll(cfg, w.dirs), Sorted(cfg.plugins.Keys), ids)
  }
}
