/** Runs of the account manager: any sequence of operations, each ending as it may. */
module Runs {
  import opened Base
  import opened Accounts
  import opened Environment
  import opened Lifecycle
  import opened StepLaws

  datatype Op =
    | CreateOp(account: Account, newId: Uuid)
    | ModifyOp(id: Uuid, account: Account)
    | DeleteOp(id: Uuid)
    | SetStatusOp(id: Uuid, now: Status)
    | AutoInitOp(ids: seq<Uuid>)

  /** Each plugin's id is unused when its turn comes. */
  ghost predicate FreshTurns(cfg: Config, w: World, listed: seq<Account>, titles: seq<string>, ids: seq<Uuid>)
    requires |titles| == |ids| && forall t | t in titles :: t in cfg.plugins
  {
    forall n | 0 <= n < |ids| :: Fresh(AutoInitUpTo(cfg, w, listed, titles[..n], ids[..n]), ids[n])
  }

  /** New ids are unused ones; nothing else is asked of a step. */
  ghost predicate Enabled(cfg: Config, w: World, op: Op) {
    match op
    case CreateOp(_, newId) => Fresh(w, newId)
    case AutoInitOp(ids) =>
      && |ids| == |Sorted(cfg.plugins.Keys)|
      && FreshTurns(cfg, w, ListAll(cfg, w.dirs), Sorted(cfg.plugins.Keys), ids)
    case _ => true
  }

  ghost function Apply(cfg: Config, w: World, op: Op): World
    requires Enabled(cfg, w, op)
  {
    match op
    case CreateOp(account, newId) => Create(cfg, w, account, newId).world
    case ModifyOp(id, account) => Modify(cfg, w, id, account).world
    case DeleteOp(id) => Delete(cfg, w, id).world
    case SetStatusOp(id, now) => SetStatus(cfg, w, id, now).world
    case AutoInitOp(ids) => AutoInit(cfg, w, ids)
  }

  /** Steps succeed or fail as they may; every one of them is part of the run. */
  ghost predicate ValidRun(cfg: Config, w: World, ops: seq<Op>)
    decreases |ops|
  {
    ops != [] ==> Enabled(cfg, w, ops[0]) && ValidRun(cfg, Apply(cfg, w, ops[0]), ops[1..])
  }

  ghost function Run(cfg: Config, w: World, ops: seq<Op>): World
    requires ValidRun(cfg, w, ops)
    decreases |ops|
  {
    if ops == [] then w else Run(cfg, Apply(cfg, w, ops[0]), ops[1..])
  }

  /** The modification does not add the service to an account that did not have it. */
  ghost predicate AddsNo(cfg: Config, w: World, op: Op, s: string) {
    op.ModifyOp? && s in op.account.services ==>
      var was := ReadAccount(cfg, w, op.id, NEW_ACCOUNT);
      was.ok ==> s in was.account.services
  }

  ghost predicate AddsNoAlong(cfg: Config, w: World, ops: seq<Op>, s: string)
    requires ValidRun(cfg, w, ops)
    decreases |ops|
  {
    ops != [] ==> AddsNo(cfg, w, ops[0], s) && AddsNoAlong(cfg, Apply(cfg, w, ops[0]), ops[1..], s)
  }

  // ---------------------------------------------------------------- initialisation is a run of creations

  ghost predicate Basic(ops: seq<Op>) {
    forall k | 0 <= k < |ops| :: !ops[k].AutoInitOp?
  }

  lemma {:induction false} RunAppend(cfg: Config, w: World, a: seq<Op>, b: seq<Op>)
    requires ValidRun(cfg, w, a) && ValidRun(cfg, Run(cfg, w, a), b)
    ensures ValidRun(cfg, w, a + b) && Run(cfg, w, a + b) == Run(cfg, Run(cfg, w, a), b)
    decreases |a|
  {
    if a == [] {
      assert a + b == b;
    } else {
      assert (a + b)[1..] == a[1..] + b;
      RunAppend(cfg, Apply(cfg, w, a[0]), a[1..], b);
    }
  }

  /** The creations an initialisation comes down to. */
  ghost predicate Defaults(ops: seq<Op>) {
    forall k | 0 <= k < |ops| :: ops[k].CreateOp? && exists t :: ops[k].account == DefaultAccount(t)
  }

  lemma TurnAsRun(cfg: Config, w: World, listed: seq<Account>, title: string, id: Uuid) returns (ops: seq<Op>)
    requires title in cfg.plugins && Fresh(w, id)
    ensures Defaults(ops) && ValidRun(cfg, w, ops)
    ensures Run(cfg, w, ops) == AutoInitOne(cfg, w, listed, title, id)
  {
    ops := [];
    if cfg.plugins[title].autoInit && CountService(listed, title) == 0 {
      var op := CreateOp(DefaultAccount(title), id);
      ops := [op];
      assert Enabled(cfg, w, op) && ops[1..] == [];
    }
  }

  lemma {:induction false} FreshTurnsBefore(cfg: Config, w: World, listed: seq<Account>, titles: seq<string>,
                                            ids: seq<Uuid>)
    requires titles != [] && |titles| == |ids| && forall t | t in titles :: t in cfg.plugins
    requires FreshTurns(cfg, w, listed, titles, ids)
    ensures FreshTurns(cfg, w, listed, titles[..|titles| - 1], ids[..|titles| - 1])
  {
    var n := |titles| - 1;
    assert forall m | 0 <= m < n ::
        titles[..n][..m] == titles[..m] && ids[..n][..m] == ids[..m] && ids[..n][m] == ids[m];
  }

  lemma {:induction false} AutoInitAsRun(cfg: Config, w: World, listed: seq<Account>, titles: seq<string>,
                                         ids: seq<Uuid>)
    returns (ops: seq<Op>)
    requires |titles| == |ids| && forall t | t in titles :: t in cfg.plugins
    requires FreshTurns(cfg, w, listed, titles, ids)
    ensures Defaults(ops) && ValidRun(cfg, w, ops)
    ensures Run(cfg, w, ops) == AutoInitUpTo(cfg, w, listed, titles, ids)
  {
    if titles == [] {
      ops := [];
    } else {
      var n := |titles| - 1;
      FreshTurnsBefore(cfg, w, listed, titles, ids);
      var front := AutoInitAsRun(cfg, w, listed, titles[..n], ids[..n]);
      var w1 := AutoInitUpTo(cfg, w, listed, titles[..n], ids[..n]);
      var turn := TurnAsRun(cfg, w1, listed, titles[n], ids[n]);
      RunAppend(cfg, w, front, turn);
      ops := front + turn;
    }
  }

  lemma {:induction false} CreationsAddNo(cfg: Config, w: World, ops: seq<Op>, s: string)
    requires Defaults(ops) && ValidRun(cfg, w, ops)
    ensures AddsNoAlong(cfg, w, ops, s)
    decreases |ops|
  {
    if ops != [] {
      CreationsAddNo(cfg, Apply(cfg, w, ops[0]), ops[1..], s);
    }
  }

  lemma {:induction false} AddsNoAppend(cfg: Config, w: World, a: seq<Op>, b: seq<Op>, s: string)
    requires ValidRun(cfg, w, a) && ValidRun(cfg, Run(cfg, w, a), b) && ValidRun(cfg, w, a + b)
    requires AddsNoAlong(cfg, w, a, s) && AddsNoAlong(cfg, Run(cfg, w, a), b, s)
    ensures AddsNoAlong(cfg, w, a + b, s)
    decreases |a|
  {
    if a == [] {
      assert a + b == b;
    } else {
      assert (a + b)[1..] == a[1..] + b;
      AddsNoAppend(cfg, Apply(cfg, w, a[0]), a[1..], b, s);
    }
  }

  /** One step as a run without initialisations. */
  lemma StepAsBasic(cfg: Config, w: World, op: Op, s: string) returns (basic: seq<Op>)
    requires Enabled(cfg, w, op)
    ensures Basic(basic) && ValidRun(cfg, w, basic) && Run(cfg, w, basic) == Apply(cfg, w, op)
    ensures AddsNo(cfg, w, op, s) ==> AddsNoAlong(cfg, w, basic, s)
  {
    if op.AutoInitOp? {
      basic := AutoInitAsRun(cfg, w, ListAll(cfg, w.dirs), Sorted(cfg.plugins.Keys), op.ids);
      CreationsAddNo(cfg, w, basic, s);
    } else {
      basic := [op];
      assert ValidRun(cfg, Apply(cfg, w, op), basic[1..]);
      assert Run(cfg, w, basic) == Run(cfg, Apply(cfg, w, op), basic[1..]);
    }
  }

  /** Every run ends where a run without initialisations ends. */
  lemma {:induction false} AsBasic(cfg: Config, w: World, ops: seq<Op>, s: string) returns (basic: seq<Op>)
    requires ValidRun(cfg, w, ops)
    ensures Basic(basic) && ValidRun(cfg, w, basic) && Run(cfg, w, basic) == Run(cfg, w, ops)
    ensures AddsNoAlong(cfg, w, ops, s) ==> AddsNoAlong(cfg, w, basic, s)
    decreases |ops|
  {
    if ops == [] {
      basic := [];
    } else {
      var first := StepAsBasic(cfg, w, ops[0], s);
      var rest := AsBasic(cfg, Apply(cfg, w, ops[0]), ops[1..], s);
      RunAppend(cfg, w, first, rest);
      basic := first + rest;
      if AddsNoAlong(cfg, w, ops, s) {
        AddsNoAppend(cfg, w, first, rest, s);
      }
    }
  }
}
