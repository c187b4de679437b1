/** Accounts on the wire: the two conversions of the RPC handler and the round trips between them. */
module Rpc {
  import opened Base
  import opened Accounts
  import opened Environment
  import opened AccountObjects

  /** An account message; the id may be absent, and its text need not be an id (then it is NIL_ID). */
  datatype Message = Message(
    id: Option<Uuid>, title: string, provider: string, active: bool, settings: seq<Pair>, services: seq<ServiceNode>)

  /** Taking a message into an account stops at the first service without a plugin. */
  function FromMessage(registered: set<string>, account: Account, m: Message): ReadResult {
    var a := account.(
      id := if m.id.Some? then m.id.value else account.id,
      title := m.title, provider := m.provider, active := m.active,
      settings := Assign(account.settings, m.settings));
    var r := ReadNodes(registered, a.services, m.services);
    ReadResult(r.ok, a.(services := r.services))
  }

  ghost function NodeOf(services: map<string, Service>, name: string): ServiceNode
    requires name in services
  {
    ServiceNode(name, Pairs(services[name].params))
  }

  ghost function Nodes(services: map<string, Service>, names: seq<string>): seq<ServiceNode>
    requires forall k | k in names :: k in services
  {
    seq(|names|, i requires 0 <= i < |names| => NodeOf(services, names[i]))
  }

  ghost function ToMessage(account: Account): Message {
    Message(Some(account.id), account.title, account.provider, account.active, Pairs(account.settings),
            Nodes(account.services, Sorted(account.services.Keys)))
  }

  /** A pair sent for the key after which no other is. */
  predicate LastFor(pairs: seq<Pair>, i: nat, key: string) {
    i < |pairs| && pairs[i].key == key && forall j | i < j < |pairs| :: pairs[j].key != key
  }

  /**
   Taking in a message, accepted or not, sets title, provider and flag to those sent, and the id if one was
   sent; settings are added to those there, the last of a key deciding.
   */
  lemma HeaderTaken(registered: set<string>, account: Account, m: Message, key: string)
    ensures
      var a := FromMessage(registered, account, m).account;
      && a.title == m.title && a.provider == m.provider && a.active == m.active
      && a.id == (match m.id case Some(id) => id case None => account.id)
      && (key in a.settings <==> key in account.settings || exists i: nat :: LastFor(m.settings, i, key))
      && (forall i: nat | LastFor(m.settings, i, key) :: a.settings[key] == m.settings[i].value)
      && (key in account.settings && (forall i: nat :: !LastFor(m.settings, i, key)) ==>
            a.settings[key] == account.settings[key])
  {
    AssignLastWins(account.settings, m.settings, key);
    LastForExists(m.settings, key);
  }

  lemma {:induction false} LastForExists(pairs: seq<Pair>, key: string)
    ensures (exists p :: p in pairs && p.key == key) <==> exists i: nat :: LastFor(pairs, i, key)
  {
    if pairs != [] {
      var n := |pairs| - 1;
      LastForExists(pairs[..n], key);
      if pairs[n].key == key {
        assert LastFor(pairs, n, key);
      } else if i: nat :| LastFor(pairs[..n], i, key) {
        assert LastFor(pairs, i, key);
      }
    }
  }

  /**
   A message sent for an account carries its id, title, provider and flag, its settings and services each once
   and in key order, and of each service all parameters, the protected ones included.
   */
  lemma MessageCarries(account: Account)
    ensures
      var m := ToMessage(account);
      && m.id == Some(account.id) && m.title == account.title && m.provider == account.provider
      && m.active == account.active
      && (forall p: Pair :: p in m.settings <==> p.key in account.settings && account.settings[p.key] == p.value)
      && (forall i, j | 0 <= i < j < |m.settings| :: Before(m.settings[i].key, m.settings[j].key))
      && (forall k :: k in account.services <==> exists i :: 0 <= i < |m.services| && m.services[i].name == k)
      && (forall i, j | 0 <= i < j < |m.services| :: Before(m.services[i].name, m.services[j].name))
      && forall i, p: Pair | 0 <= i < |m.services| && m.services[i].name in account.services ::
           p in m.services[i].params
           <==> p.key in account.services[m.services[i].name].params
                && account.services[m.services[i].name].params[p.key] == p.value
  {
    var m, names := ToMessage(account), Sorted(account.services.Keys);
    PairsExact(account.settings);
    forall i | 0 <= i < |m.services| ensures m.services[i].name == names[i] && names[i] in account.services {
      assert names[i] in names;
    }
    forall k | k in account.services ensures exists i :: 0 <= i < |m.services| && m.services[i].name == k {
      assert k in names;
      var i :| 0 <= i < |names| && names[i] == k;
      assert m.services[i].name == k;
    }
    forall i, j | 0 <= i < j < |m.services| ensures Before(m.services[i].name, m.services[j].name) {
      assert Before(names[i], names[j]);
    }
    forall i, p: Pair | 0 <= i < |m.services| && m.services[i].name in account.services
      ensures p in m.services[i].params
         <==> p.key in account.services[m.services[i].name].params
              && account.services[m.services[i].name].params[p.key] == p.value
    {
      PairsExact(account.services[names[i]].params);
    }
  }

  /** An account as it comes from a message: no verification has happened. */
  predicate Unverified(account: Account) {
    forall k | k in account.services :: account.services[k] == Plain(account.services[k].params)
  }

  lemma ReadNodeOf(registered: set<string>, services: map<string, Service>, name: string, before: map<string, Service>)
    requires name in services && name in registered && name !in before
    ensures ReadNode(registered, before, NodeOf(services, name))
         == ReadServices(true, before[name := Plain(services[name].params)])
  {
    AssignPairs(services[name].params);
  }

  lemma {:induction false} ReadNodesOf(registered: set<string>, services: map<string, Service>, names: seq<string>,
                                       nodes: seq<ServiceNode>)
    requires |nodes| == |names| && forall i, j | 0 <= i < j < |names| :: names[i] != names[j]
    requires forall i | 0 <= i < |names| ::
         names[i] in services && names[i] in registered && nodes[i] == NodeOf(services, names[i])
    ensures
      var r := ReadNodes(registered, map[], nodes);
      && r.ok && (forall k :: k in r.services <==> k in names)
      && forall k | k in names :: r.services[k] == Plain(services[k].params)
  {
    if names != [] {
      var n := |names| - 1;
      ReadNodesOf(registered, services, names[..n], nodes[..n]);
      LastApart(names);
      var r := ReadNodes(registered, map[], nodes[..n]);
      ReadNodeOf(registered, services, names[n], r.services);
    }
  }

  /** An account as a message shows it: the parameters of its services, and nothing about their verification. */
  function AsSent(account: Account): Account {
    account.(services := map k | k in account.services :: Plain(account.services[k].params))
  }

  lemma UnverifiedAsSent(account: Account)
    requires Unverified(account)
    ensures AsSent(account) == account
  {
    assert AsSent(account).services == account.services;
  }

  lemma ServicesAsSent(registered: set<string>, account: Account)
    requires account.services.Keys <= registered
    ensures ReadNodes(registered, map[], ToMessage(account).services) == ReadServices(true, AsSent(account).services)
  {
    var names := Sorted(account.services.Keys);
    ReadNodesOf(registered, account.services, names, ToMessage(account).services);
    var r := ReadNodes(registered, map[], ToMessage(account).services);
    assert r.services.Keys == account.services.Keys;
    assert r.services == AsSent(account).services;
  }

  /**
   Sending an account and taking it back gives the account as it was sent, if its services have plugins:
   the very same account if it was unverified.
   */
  lemma MessageRoundTrip(registered: set<string>, account: Account)
    requires account.services.Keys <= registered
    ensures FromMessage(registered, NEW_ACCOUNT, ToMessage(account)) == ReadResult(true, AsSent(account))
    ensures Unverified(account) ==> AsSent(account) == account
  {
    ServicesAsSent(registered, account);
    AssignPairs(account.settings);
    if Unverified(account) {
      UnverifiedAsSent(account);
    }
  }

  /** Accounts taken from messages are unverified. */
  lemma {:induction false} ReadNodesUnverified(registered: set<string>, nodes: seq<ServiceNode>)
    ensures forall k | k in ReadNodes(registered, map[], nodes).services ::
      ReadNodes(registered, map[], nodes).services[k] == Plain(ReadNodes(registered, map[], nodes).services[k].params)
  {
    if nodes != [] {
      ReadNodesUnverified(registered, nodes[..|nodes| - 1]);
    }
  }

  /**
   The normal form of a message that is accepted: what is sent back is, once taken in again and sent
   back once more, the same message.
   */
  lemma NormalFormIdempotent(registered: set<string>, m: Message)
    requires FromMessage(registered, NEW_ACCOUNT, m).ok
    ensures
      var normal := ToMessage(FromMessage(registered, NEW_ACCOUNT, m).account);
      FromMessage(registered, NEW_ACCOUNT, normal) == FromMessage(registered, NEW_ACCOUNT, m)
      && ToMessage(FromMessage(registered, NEW_ACCOUNT, normal).account) == normal
  {
    ReadNodesUnverified(registered, m.services);
    ReadNodesRegistered(registered, map[], m.services);
    MessageRoundTrip(registered, FromMessage(registered, NEW_ACCOUNT, m).account);
  }

  // ---------------------------------------------------------------- what the normal form contains

  /** The parameter pairs sent for a service, over all the places where it is named. */
  function SentFor(nodes: seq<ServiceNode>, name: string): seq<Pair> {
    if nodes == [] then []
    else
      var n := |nodes| - 1;
      SentFor(nodes[..n], name) + if nodes[n].name == name then nodes[n].params else []
  }

  lemma {:induction false} AssignAppend(m: StrMap, a: seq<Pair>, b: seq<Pair>)
    ensures Assign(m, a + b) == Assign(Assign(m, a), b)
  {
    if b == [] {
      assert a + b == a;
    } else {
      var n := |b| - 1;
      assert (a + b)[..|a| + n] == a + b[..n];
      AssignAppend(m, a, b[..n]);
    }
  }

  predicate Names(nodes: seq<ServiceNode>, name: string) {
    exists i :: 0 <= i < |nodes| && nodes[i].name == name
  }

  lemma NamesNext(nodes: seq<ServiceNode>, name: string)
    requires nodes != []
    ensures Names(nodes, name) <==> Names(nodes[..|nodes| - 1], name) || nodes[|nodes| - 1].name == name
  {
    var n := |nodes| - 1;
    if Names(nodes[..n], name) {
      var i :| 0 <= i < n && nodes[..n][i].name == name;
      assert nodes[i].name == name;
    }
    if Names(nodes, name) {
      var i :| 0 <= i < |nodes| && nodes[i].name == name;
      if i < n { assert nodes[..n][i].name == name; }
    }
  }

  /** The service as it was, or a new one. */
  function Prior(services: map<string, Service>, name: string): Service {
    if name in services then services[name] else Service(map[], map[], map[], false)
  }

  /**
   Beyond those it had, an account has exactly the services an accepted message names; a service takes in, in
   order, the parameters of all the places where it is named.
   */
  lemma {:induction false} AcceptedServices(registered: set<string>, services: map<string, Service>,
                                            nodes: seq<ServiceNode>, name: string)
    requires ReadNodes(registered, services, nodes).ok
    ensures
      var r, was := ReadNodes(registered, services, nodes).services, Prior(services, name);
      && (name in r <==> name in services || Names(nodes, name))
      && (name in r ==> r[name] == was.(params := Assign(was.params, SentFor(nodes, name))))
    ensures !Names(nodes, name) ==> SentFor(nodes, name) == []
  {
    if nodes != [] {
      var n := |nodes| - 1;
      AcceptedServices(registered, services, nodes[..n], name);
      NamesNext(nodes, name);
      AssignAppend(Prior(services, name).params, SentFor(nodes[..n], name), nodes[n].params);
      assert SentFor(nodes[..n], name) + [] == SentFor(nodes[..n], name);
    }
  }

  /**
   A parameter of an accepted service is there iff it was before or a pair was sent for it, and has the value of
   the last such pair, over all the places where the service is named.
   */
  lemma AcceptedParams(registered: set<string>, services: map<string, Service>, nodes: seq<ServiceNode>, name: string,
                       key: string)
    requires ReadNodes(registered, services, nodes).ok && (name in services || Names(nodes, name))
    ensures
      var r, was, sent := ReadNodes(registered, services, nodes).services, Prior(services, name), SentFor(nodes, name);
      && name in r
      && (key in r[name].params <==> key in was.params || exists i: nat :: LastFor(sent, i, key))
      && (forall i: nat | LastFor(sent, i, key) :: r[name].params[key] == sent[i].value)
      && (key in was.params && (forall i: nat :: !LastFor(sent, i, key)) ==> r[name].params[key] == was.params[key])
  {
    AcceptedServices(registered, services, nodes, name);
    AssignLastWins(Prior(services, name).params, SentFor(nodes, name), key);
    LastForExists(SentFor(nodes, name), key);
  }

  /** A message is accepted iff every service it names has a plugin. */
  lemma AcceptedIff(registered: set<string>, account: Account, m: Message)
    ensures FromMessage(registered, account, m).ok
       <==> forall i | 0 <= i < |m.services| :: m.services[i].name in registered
  {
    ReadNodesAll(registered, account.services, m.services);
  }

  /** A message that is refused has been taken in up to the first service without a plugin. */
  lemma RefusedAt(registered: set<string>, account: Account, m: Message) returns (n: nat)
    requires !FromMessage(registered, account, m).ok
    ensures n < |m.services| && m.services[n].name !in registered
    ensures
      var before := FromMessage(registered, account, m.(services := m.services[..n]));
      && before.ok
      && FromMessage(registered, account, m).account
         == before.account.(services := before.account.services[m.services[n].name :=
              Prior(before.account.services, m.services[n].name)])
  {
    n := StopsAt(registered, account.services, m.services);
  }

  // ---------------------------------------------------------------- the conversions

  class RpcHandler {
    static method AccountFromMessage(m: Message, account: AccountObject, host: Host) returns (ok: bool)
      requires account.Valid(host.plugins.plugins) && host.plugins.Valid()
      modifies account, account.services.Values
      ensures account.Valid(host.plugins.plugins)
      ensures ReadResult(ok, account.Value()) == FromMessage(old(host.plugins.plugins).Keys, old(account.Value()), m)
    {
      ReadHeader(m, account);
      ok := account.AddServices(m.services, host);
    }

    static method ReadHeader(m: Message, account: AccountObject)
      modifies account`id, account`title, account`provider, account`active, account`settings
      ensures account.Value() == old(account.Value()).(
        id := if m.id.Some? then m.id.value else old(account.id),
        title := m.title, provider := m.provider, active := m.active,
        settings := Assign(old(account.settings), m.settings))
    {
      if m.id.Some? {
        account.id := m.id.value;
      }
      account.title := m.title;
      account.provider := m.provider;
      account.active := m.active;
      account.AddSettings(m.settings);
    }

    static method MessageFromAccount(account: AccountObject) returns (m: Message)
      ensures m == ToMessage(old(account.Value()))
    {
      ghost var value := account.Value();
      var settings := PairsOf(account.settings);
      var names := account.ServiceNames();
      var nodes := ServiceMessages(account, names);
      m := Message(Some(account.id), account.title, account.provider, account.active, settings, nodes);
    }

    static method ServiceMessages(account: AccountObject, names: seq<string>) returns (nodes: seq<ServiceNode>)
      requires forall k | k in names :: k in account.services && k in account.Value().services
      ensures nodes == Nodes(old(account.Value()).services, names)
    {
      ghost var services := account.Value().services;
      nodes := [];
      for i := 0 to |names|
        invariant nodes == Nodes(services, names)[..i]
      {
        assert names[i] in names;
        assert services[names[i]] == account.services[names[i]].Value();
        var pairs := PairsOf(account.services[names[i]].params);
        nodes := nodes + [ServiceNode(names[i], pairs)];
      }
    }
  }
}
