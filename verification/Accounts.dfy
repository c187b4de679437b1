/**
 Accounts and the documents they are stored in: the values, what printing and reading mean, and the
 round trip between the two.
 */
module Accounts {
  import opened Base

  /** A service of an account: its parameters and what the last verification said about them. */
  datatype Service = Service(params: StrMap, required: map<string, bool>, guarded: map<string, bool>, verified: bool)

  /** A service as it is constructed, with the given parameters. */
  function Plain(params: StrMap): Service {
    Service(params, map[], map[], false)
  }

  predicate IsProtected(service: Service, key: string) {
    service.verified && key in service.guarded && service.guarded[key]
  }

  function Unprotected(service: Service): StrMap {
    map k | k in service.params && !IsProtected(service, k) :: service.params[k]
  }

  datatype Account = Account(
    id: Uuid, title: string, provider: string, active: bool, settings: StrMap, services: map<string, Service>)

  const NEW_ACCOUNT := Account(NIL_ID, "", "", false, map[], map[])

  // ---------------------------------------------------------------- documents

  datatype ServiceNode = ServiceNode(name: string, params: seq<Pair>)

  /** A scalar that is missing or of the wrong kind is None; an id text that is not a uuid is NIL_ID. */
  datatype AccountNode = AccountNode(
    id: Option<Uuid>, title: Option<string>, provider: Option<string>, active: Option<bool>,
    settings: seq<Pair>, services: seq<seq<ServiceNode>>)

  /** A stored file: not YAML at all, YAML without an account, or an account. */
  datatype Document = Unreadable | Empty | Doc(node: AccountNode)

  datatype ReadServices = ReadServices(ok: bool, services: map<string, Service>)

  datatype ReadResult = ReadResult(ok: bool, account: Account)

  function ServiceAt(services: map<string, Service>, name: string): Service {
    if name in services then services[name] else Plain(map[])
  }

  /** Initialise the named service, then add its parameters; stop if no plugin has that name. */
  function ReadNode(registered: set<string>, services: map<string, Service>, node: ServiceNode): ReadServices {
    var service := ServiceAt(services, node.name);
    if node.name !in registered then ReadServices(false, services[node.name := service])
    else ReadServices(true, services[node.name := service.(params := Assign(service.params, node.params))])
  }

  function ReadNodes(registered: set<string>, services: map<string, Service>, nodes: seq<ServiceNode>): ReadServices {
    if nodes == [] then ReadServices(true, services)
    else
      var n := |nodes| - 1;
      var r := ReadNodes(registered, services, nodes[..n]);
      if r.ok then ReadNode(registered, r.services, nodes[n]) else r
  }

  function ReadGroups(registered: set<string>, services: map<string, Service>,
                      groups: seq<seq<ServiceNode>>): ReadServices {
    if groups == [] then ReadServices(true, services)
    else
      var n := |groups| - 1;
      var r := ReadGroups(registered, services, groups[..n]);
      if r.ok then ReadNodes(registered, r.services, groups[n]) else r
  }

  lemma {:induction false} ReadNodesStops(registered: set<string>, services: map<string, Service>,
                                          nodes: seq<ServiceNode>, n: nat)
    requires n <= |nodes| && !ReadNodes(registered, services, nodes[..n]).ok
    ensures ReadNodes(registered, services, nodes) == ReadNodes(registered, services, nodes[..n])
  {
    if n == |nodes| {
      assert nodes[..n] == nodes;
    } else {
      var m := |nodes| - 1;
      assert nodes[..m][..n] == nodes[..n];
      ReadNodesStops(registered, services, nodes[..m], n);
    }
  }

  lemma {:induction false} ReadGroupsStops(registered: set<string>, services: map<string, Service>,
                                           groups: seq<seq<ServiceNode>>, n: nat)
    requires n <= |groups| && !ReadGroups(registered, services, groups[..n]).ok
    ensures ReadGroups(registered, services, groups) == ReadGroups(registered, services, groups[..n])
  {
    if n == |groups| {
      assert groups[..n] == groups;
    } else {
      var m := |groups| - 1;
      assert groups[..m][..n] == groups[..n];
      ReadGroupsStops(registered, services, groups[..m], n);
    }
  }

  function ReadNames(account: Account, n: AccountNode): ReadResult {
    if n.id.None? then ReadResult(false, account) else
    var a1 := account.(id := n.id.value);
    if n.title.None? then ReadResult(false, a1) else
    ReadResult(true, a1.(title := n.title.value))
  }

  function ReadState(account: Account, n: AccountNode): ReadResult {
    if n.provider.None? then ReadResult(false, account) else
    var a := account.(provider := n.provider.value);
    if n.active.None? then ReadResult(false, a) else
    ReadResult(true, a.(active := n.active.value, settings := Assign(a.settings, n.settings)))
  }

  /** Everything but the services, in the order of the file, up to the first scalar that is missing. */
  function ReadHeader(account: Account, n: AccountNode): ReadResult {
    var r := ReadNames(account, n);
    if r.ok then ReadState(r.account, n) else r
  }

  /** Reading a document merges it into the given account and stops at the first failure. */
  function Read(registered: set<string>, account: Account, doc: Document): ReadResult {
    match doc
    case Unreadable => ReadResult(false, account)
    case Empty => ReadResult(true, account)
    case Doc(n) =>
      var h := ReadHeader(account, n);
      if !h.ok then h else
      var r := ReadGroups(registered, h.account.services, n.services);
      ReadResult(r.ok, h.account.(services := r.services))
  }

  lemma {:induction false} ReadNodesRegistered(registered: set<string>, services: map<string, Service>,
                                               nodes: seq<ServiceNode>)
    requires services.Keys <= registered
    ensures ReadNodes(registered, services, nodes).ok
         ==> ReadNodes(registered, services, nodes).services.Keys <= registered
  {
    if nodes != [] {
      ReadNodesRegistered(registered, services, nodes[..|nodes| - 1]);
    }
  }

  lemma {:induction false} ReadGroupsRegistered(registered: set<string>, services: map<string, Service>,
                                                groups: seq<seq<ServiceNode>>)
    requires services.Keys <= registered
    ensures ReadGroups(registered, services, groups).ok
         ==> ReadGroups(registered, services, groups).services.Keys <= registered
  {
    if groups != [] {
      var n := |groups| - 1;
      ReadGroupsRegistered(registered, services, groups[..n]);
      var r := ReadGroups(registered, services, groups[..n]);
      if r.ok {
        ReadNodesRegistered(registered, r.services, groups[n]);
      }
    }
  }

  /** Every service of an account that was read has a plugin. */
  lemma ReadRegistered(registered: set<string>, account: Account, doc: Document)
    requires account.services.Keys <= registered
    ensures Read(registered, account, doc).ok ==> Read(registered, account, doc).account.services.Keys <= registered
  {
    if doc.Doc? {
      ReadGroupsRegistered(registered, account.services, doc.node.services);
    }
  }

  // ---------------------------------------------------------------- what a failed read leaves

  /**
   Taking in services fails at the first one without a plugin: those before it have been taken in, it is there
   with the parameters it had, and the rest is not looked at.
   */
  lemma {:induction false} StopsAt(registered: set<string>, services: map<string, Service>, nodes: seq<ServiceNode>)
    returns (n: nat)
    requires !ReadNodes(registered, services, nodes).ok
    ensures n < |nodes| && nodes[n].name !in registered
    ensures forall i | 0 <= i < n :: nodes[i].name in registered
    ensures
      var r := ReadNodes(registered, services, nodes[..n]);
      && r.ok
      && ReadNodes(registered, services, nodes).services
         == r.services[nodes[n].name :=
              if nodes[n].name in r.services then r.services[nodes[n].name] else Plain(map[])]
  {
    var m := |nodes| - 1;
    if ReadNodes(registered, services, nodes[..m]).ok {
      n := m;
      ReadNodesAll(registered, services, nodes[..m]);
      assert forall i | 0 <= i < m :: nodes[..m][i] == nodes[i];
    } else {
      n := StopsAt(registered, services, nodes[..m]);
      assert nodes[..m][..n] == nodes[..n];
      assert forall i | 0 <= i <= n :: nodes[..m][i] == nodes[i];
    }
  }

  lemma {:induction false} ReadNodesAll(registered: set<string>, services: map<string, Service>,
                                        nodes: seq<ServiceNode>)
    ensures ReadNodes(registered, services, nodes).ok <==> forall i | 0 <= i < |nodes| :: nodes[i].name in registered
  {
    if nodes != [] {
      ReadNodesAll(registered, services, nodes[..|nodes| - 1]);
    }
  }

  /** The services of a document in the order in which they are read. */
  function Flat(groups: seq<seq<ServiceNode>>): seq<ServiceNode> {
    if groups == [] then [] else Flat(groups[..|groups| - 1]) + groups[|groups| - 1]
  }

  lemma {:induction false} ReadNodesAppend(registered: set<string>, services: map<string, Service>,
                                           a: seq<ServiceNode>, b: seq<ServiceNode>)
    ensures
      var r := ReadNodes(registered, services, a);
      ReadNodes(registered, services, a + b) == if r.ok then ReadNodes(registered, r.services, b) else r
  {
    if b == [] {
      assert a + b == a;
    } else {
      var n := |b| - 1;
      assert (a + b)[..|a| + n] == a + b[..n];
      ReadNodesAppend(registered, services, a, b[..n]);
    }
  }

  lemma {:induction false} ReadGroupsFlat(registered: set<string>, services: map<string, Service>,
                                          groups: seq<seq<ServiceNode>>)
    ensures ReadGroups(registered, services, groups) == ReadNodes(registered, services, Flat(groups))
  {
    if groups != [] {
      var n := |groups| - 1;
      ReadGroupsFlat(registered, services, groups[..n]);
      ReadNodesAppend(registered, services, Flat(groups[..n]), groups[n]);
    }
  }

  /** How much of a document is taken in: the scalars that come before the first one that is missing. */
  function ScalarsRead(account: Account, n: AccountNode): Account {
    var all, titled := n.id.Some? && n.title.Some? && n.provider.Some?, n.id.Some? && n.title.Some?;
    Account(
      if n.id.Some? then n.id.value else account.id,
      if titled then n.title.value else account.title,
      if all then n.provider.value else account.provider,
      if all && n.active.Some? then n.active.value else account.active,
      if all && n.active.Some? then Assign(account.settings, n.settings) else account.settings,
      account.services)
  }

  /**
   Reading a document into any account: a missing scalar stops it, and the ones before it stay; if none is
   missing, the services are taken in one by one, up to the first without a plugin.
   */
  lemma ReadTakesIn(registered: set<string>, account: Account, doc: Document)
    requires doc.Doc?
    ensures
      var n, r := doc.node, Read(registered, account, doc);
      var services := ReadNodes(registered, account.services, Flat(n.services));
      && r.account.(services := account.services) == ScalarsRead(account, n)
      && if n.id.None? || n.title.None? || n.provider.None? || n.active.None?
         then !r.ok && r.account.services == account.services
         else r.ok == services.ok && r.account.services == services.services
  {
    ReadGroupsFlat(registered, account.services, doc.node.services);
  }

  ghost function PrintService(name: string, service: Service): seq<ServiceNode> {
    [ServiceNode(name, Pairs(Unprotected(service)))]
  }

  /** An account written out: everything in key order, protected parameters dropped. */
  ghost function Print(account: Account): Document {
    var names := Sorted(account.services.Keys);
    Doc(AccountNode(
      Some(account.id), Some(account.title), Some(account.provider), Some(account.active),
      Pairs(account.settings),
      seq(|names|, i requires 0 <= i < |names| => PrintService(names[i], account.services[names[i]]))))
  }

  // ---------------------------------------------------------------- what a document lists

  function ParamsAt(m: map<string, StrMap>, name: string): StrMap {
    if name in m then m[name] else map[]
  }

  function MergeNodes(m: map<string, StrMap>, nodes: seq<ServiceNode>): map<string, StrMap> {
    if nodes == [] then m
    else
      var n := |nodes| - 1;
      var r := MergeNodes(m, nodes[..n]);
      r[nodes[n].name := Assign(ParamsAt(r, nodes[n].name), nodes[n].params)]
  }

  function MergeGroups(m: map<string, StrMap>, groups: seq<seq<ServiceNode>>): map<string, StrMap> {
    if groups == [] then m else MergeNodes(MergeGroups(m, groups[..|groups| - 1]), groups[|groups| - 1])
  }

  /** The services a document lists, with their parameters. */
  function Listing(doc: Document): map<string, StrMap> {
    if doc.Doc? then MergeGroups(map[], doc.node.services) else map[]
  }

  function PlainServices(m: map<string, StrMap>): map<string, Service> {
    map k | k in m :: Plain(m[k])
  }

  /** A document that reads successfully into a new account. */
  predicate Readable(registered: set<string>, doc: Document) {
    match doc
    case Unreadable => false
    case Empty => true
    case Doc(n) => n.id.Some? && n.title.Some? && n.provider.Some? && n.active.Some? && Listing(doc).Keys <= registered
  }

  lemma {:induction false} MergeNodesKeeps(m: map<string, StrMap>, nodes: seq<ServiceNode>)
    ensures m.Keys <= MergeNodes(m, nodes).Keys
  {
    if nodes != [] {
      MergeNodesKeeps(m, nodes[..|nodes| - 1]);
    }
  }

  lemma ReadNodePlain(registered: set<string>, m: map<string, StrMap>, node: ServiceNode)
    ensures
      var m' := m[node.name := Assign(ParamsAt(m, node.name), node.params)];
      var r := ReadNode(registered, PlainServices(m), node);
      (r.ok <==> node.name in registered) && (r.ok ==> r.services == PlainServices(m'))
  {
  }

  lemma {:induction false} ReadNodesPlain(registered: set<string>, m: map<string, StrMap>, nodes: seq<ServiceNode>)
    requires m.Keys <= registered
    ensures ReadNodes(registered, PlainServices(m), nodes).ok <==> MergeNodes(m, nodes).Keys <= registered
    ensures ReadNodes(registered, PlainServices(m), nodes).ok ==>
              ReadNodes(registered, PlainServices(m), nodes).services == PlainServices(MergeNodes(m, nodes))
  {
    if nodes != [] {
      var n := |nodes| - 1;
      var before := MergeNodes(m, nodes[..n]);
      ReadNodesPlain(registered, m, nodes[..n]);
      ReadNodePlain(registered, before, nodes[n]);
      assert MergeNodes(m, nodes).Keys == before.Keys + {nodes[n].name};
    }
  }

  lemma {:induction false} ReadGroupsPlain(registered: set<string>, groups: seq<seq<ServiceNode>>)
    ensures ReadGroups(registered, map[], groups).ok <==> MergeGroups(map[], groups).Keys <= registered
    ensures ReadGroups(registered, map[], groups).ok ==>
              ReadGroups(registered, map[], groups).services == PlainServices(MergeGroups(map[], groups))
  {
    if groups == [] {
      assert PlainServices(map[]) == map[];
    } else {
      var n := |groups| - 1;
      ReadGroupsPlain(registered, groups[..n]);
      var before := MergeGroups(map[], groups[..n]);
      if before.Keys <= registered {
        ReadNodesPlain(registered, before, groups[n]);
      } else {
        MergeNodesKeeps(before, groups[n]);
      }
    }
  }

  /** Reading into a new account succeeds iff the document is readable, and yields what it lists. */
  lemma ReadNew(registered: set<string>, doc: Document)
    ensures Read(registered, NEW_ACCOUNT, doc).ok <==> Readable(registered, doc)
    ensures Readable(registered, doc) ==>
              Read(registered, NEW_ACCOUNT, doc).account.services == PlainServices(Listing(doc))
    ensures Readable(registered, doc) && doc.Doc? ==>
              var a := Read(registered, NEW_ACCOUNT, doc).account;
              && Some(a.id) == doc.node.id && Some(a.title) == doc.node.title && Some(a.provider) == doc.node.provider
              && Some(a.active) == doc.node.active && a.settings == Assign(map[], doc.node.settings)
  {
    if doc.Doc? {
      ReadGroupsPlain(registered, doc.node.services);
    }
    assert PlainServices(map[]) == map[];
  }

  // ---------------------------------------------------------------- the round trip

  function PublicServices(services: map<string, Service>): map<string, StrMap> {
    map k | k in services :: Unprotected(services[k])
  }

  /** The services as an account file shows them. */
  function Stored(services: map<string, Service>): map<string, Service> {
    PlainServices(PublicServices(services))
  }

  /** What remains of an account once it has been stored. */
  function Public(account: Account): Account {
    account.(services := Stored(account.services))
  }

  /** The groups are those printed for the named services. */
  ghost predicate PrintedFor(services: map<string, Service>, names: seq<string>, groups: seq<seq<ServiceNode>>) {
    && |groups| == |names| && (forall i, j | 0 <= i < j < |names| :: names[i] != names[j])
    && forall i | 0 <= i < |names| :: names[i] in services && groups[i] == PrintService(names[i], services[names[i]])
  }

  lemma PrintedForFront(services: map<string, Service>, names: seq<string>, groups: seq<seq<ServiceNode>>)
    requires names != [] && PrintedFor(services, names, groups)
    ensures
      var n := |names| - 1;
      && PrintedFor(services, names[..n], groups[..n])
      && names[n] !in names[..n] && names[n] in services && groups[n] == PrintService(names[n], services[names[n]])
      && forall k :: k in names <==> k in names[..n] || k == names[n]
  {
    LastApart(names);
  }

  lemma {:induction false} MergePrinted(services: map<string, Service>, names: seq<string>,
                                        groups: seq<seq<ServiceNode>>)
    requires PrintedFor(services, names, groups)
    ensures forall k :: k in MergeGroups(map[], groups) <==> k in names
    ensures forall k | k in names :: k in services && MergeGroups(map[], groups)[k] == Unprotected(services[k])
  {
    if names != [] {
      var n := |names| - 1;
      PrintedForFront(services, names, groups);
      MergePrinted(services, names[..n], groups[..n]);
      MergePrintedOne(MergeGroups(map[], groups[..n]), names[n], services[names[n]]);
    }
  }

  lemma MergePrintedOne(m: map<string, StrMap>, name: string, service: Service)
    requires name !in m
    ensures MergeNodes(m, PrintService(name, service)) == m[name := Unprotected(service)]
  {
    AssignPairs(Unprotected(service));
    assert PrintService(name, service)[..0] == [];
  }

  /** A printed account lists its services with exactly the unprotected parameters. */
  lemma ListingOfPrint(account: Account)
    ensures Listing(Print(account)) == PublicServices(account.services)
  {
    var names := Sorted(account.services.Keys);
    MergePrinted(account.services, names, Print(account).node.services);
    var l := Listing(Print(account));
    assert l.Keys == account.services.Keys;
    assert forall k | k in l :: k in names;
  }

  /** A parameter is printed, with its value, unless a verification has marked it as protected. */
  lemma PrintedIff(account: Account, name: string, key: string)
    requires name in account.services
    ensures
      var listing, s := Listing(Print(account)), account.services[name];
      && name in listing
      && (key in listing[name] <==> key in s.params && !(s.verified && key in s.guarded && s.guarded[key]))
      && (key in listing[name] ==> listing[name][key] == s.params[key])
  {
    ListingOfPrint(account);
  }

  /** Reading a printed account into a new one gives the account without its protected parameters. */
  lemma ReadOfPrint(registered: set<string>, account: Account)
    requires account.services.Keys <= registered
    ensures Read(registered, NEW_ACCOUNT, Print(account)) == ReadResult(true, Public(account))
  {
    ListingOfPrint(account);
    ReadNew(registered, Print(account));
    AssignPairs(account.settings);
  }

  lemma UnprotectedTwice(services: map<string, Service>, k: string)
    requires k in services
    ensures Unprotected(Public(NEW_ACCOUNT.(services := services)).services[k]) == Unprotected(services[k])
  {
  }

  /** Printing what was read back gives the document that was read. */
  lemma PrintOfPublic(account: Account)
    ensures Print(Public(account)) == Print(account)
  {
    var a, b := Public(account), account;
    assert a.services.Keys == b.services.Keys;
    forall k | k in b.services ensures Unprotected(a.services[k]) == Unprotected(b.services[k]) {
      UnprotectedTwice(b.services, k);
    }
    assert Print(a).node.services == Print(b).node.services;
  }

  /** Only what a document lists survives a second round trip: storing is idempotent. */
  lemma RoundTripIdempotent(registered: set<string>, account: Account)
    requires account.services.Keys <= registered
    ensures Print(Read(registered, NEW_ACCOUNT, Print(account)).account) == Print(account)
  {
    ReadOfPrint(registered, account);
    PrintOfPublic(account);
  }
}
