/**
 Plugins. The behaviour of a plugin is a record of functions, so every statement below holds for
 every plugin; its private storage is the part of a `Vault` under its title.
 */
module Plugins {
  import opened Base

  datatype ServiceParam = ServiceParam(key: string, val: string, isRequired: bool, isProtected: bool)

  datatype VerifyResult = VerifyResult(verified: bool, params: seq<ServiceParam>)

  datatype Token = Token(caption: string, secret: string, attributes: StrMap)

  datatype AuthResult = AuthResult(authenticated: bool, tokens: seq<Token>)

  /** What a custom write stored, and the id it reported. */
  datatype Written = Written(id: string, params: StrMap)

  datatype RemoveOutcome = Throws | Returns(removed: bool)

  /**
   `write` sees the ids the plugin has in use and answers None when it throws or is not implemented;
   `read` sees the stored entry, if there is one; `remove` sees whether there is one.
   */
  datatype Plugin = Plugin(
    title: string,
    autoInit: bool,
    maxCount: int,
    verify: StrMap -> VerifyResult,
    authenticate: seq<ServiceParam> -> AuthResult,
    write: (VerifyResult, AuthResult, set<string>) -> Option<Written>,
    read: (string, Option<StrMap>) -> Option<StrMap>,
    remove: (string, bool) -> RemoveOutcome)

  datatype EntryKey = EntryKey(plugin: string, id: string)

  type Vault = map<EntryKey, StrMap>

  function LiveIds(vault: Vault, title: string): (ids: set<string>)
    ensures forall id :: id in ids <==> EntryKey(title, id) in vault
  {
    var ids := set k | k in vault && k.plugin == title :: k.id;
    assert forall id | EntryKey(title, id) in vault :: EntryKey(title, id).id in ids;
    ids
  }

  function EntryOf(vault: Vault, title: string, id: string): Option<StrMap> {
    if EntryKey(title, id) in vault then Some(vault[EntryKey(title, id)]) else None
  }

  function WriteEntry(vault: Vault, title: string, plugin: Plugin, v: VerifyResult, a: AuthResult): (Vault,
                                                                                                     Option<string>) {
    match plugin.write(v, a, LiveIds(vault, title))
    case None => (vault, None)
    case Some(w) => (vault[EntryKey(title, w.id) := w.params], Some(w.id))
  }

  /** Only a removal that reports success takes the entry away. */
  function RemoveEntry(vault: Vault, title: string, plugin: Plugin, id: string): (Vault, RemoveOutcome) {
    var outcome := plugin.remove(id, EntryKey(title, id) in vault);
    (if outcome == Returns(true) then vault - {EntryKey(title, id)} else vault, outcome)
  }

  class PluginStore {
    var entries: Vault

    constructor ()
      ensures entries == map[]
    {
      entries := map[];
    }

    method Write(title: string, plugin: Plugin, v: VerifyResult, a: AuthResult) returns (id: Option<string>)
      modifies this
      ensures (entries, id) == WriteEntry(old(entries), title, plugin, v, a)
    {
      var written := plugin.write(v, a, LiveIds(entries, title));
      match written
      case None =>
        id := None;
      case Some(w) =>
        entries := entries[EntryKey(title, w.id) := w.params];
        id := Some(w.id);
    }

    method Read(title: string, plugin: Plugin, id: string) returns (params: Option<StrMap>)
      ensures params == plugin.read(id, EntryOf(entries, title, id))
    {
      params := plugin.read(id, EntryOf(entries, title, id));
    }

    method Remove(title: string, plugin: Plugin, id: string) returns (outcome: RemoveOutcome)
      modifies this
      ensures (entries, outcome) == RemoveEntry(old(entries), title, plugin, id)
    {
      outcome := plugin.remove(id, EntryKey(title, id) in entries);
      if outcome == Returns(true) {
        entries := entries - {EntryKey(title, id)};
      }
    }
  }

  // ---------------------------------------------------------------- the registry

  /** What one plugin definition file yields: its name, and the plugin if initialising it succeeds. */
  datatype Container = Container(name: string, loaded: Option<Plugin>)

  /** Containers by name; the one read last wins. */
  function ByName(containers: seq<Container>): map<string, Container> {
    if containers == [] then map[]
    else
      var n := |containers| - 1;
      ByName(containers[..n])[containers[n].name := containers[n]]
  }

  /** Plugins by title, taken in the order of the given names; the one taken last wins. */
  function ByTitle(named: map<string, Container>, names: seq<string>): map<string, Plugin>
    requires forall k | k in names :: k in named
  {
    if names == [] then map[]
    else
      var n := |names| - 1;
      var front := ByTitle(named, names[..n]);
      match named[names[n]].loaded
      case None => front
      case Some(plugin) => front[plugin.title := plugin]
  }

  function Concat(paths: seq<seq<Container>>): seq<Container> {
    if paths == [] then [] else Concat(paths[..|paths| - 1]) + paths[|paths| - 1]
  }

  /** The title index after loading containers in the given order. */
  ghost function Registry(containers: seq<Container>): map<string, Plugin> {
    var named := ByName(containers);
    ByTitle(named, Sorted(named.Keys))
  }

  class PluginManager {
    var plugins: map<string, Plugin>

    ghost predicate Valid()
      reads this
    {
      forall t | t in plugins :: plugins[t].title == t
    }

    constructor (paths: seq<seq<Container>>)
      ensures Valid()
      ensures plugins == Registry(Concat(paths))
    {
      var named := ReadPaths(paths);
      plugins := map[];
      new;
      InitPlugins(named);
    }

    static method ReadPaths(paths: seq<seq<Container>>) returns (named: map<string, Container>)
      ensures named == ByName(Concat(paths))
    {
      named := map[];
      for i := 0 to |paths|
        invariant named == ByName(Concat(paths[..i]))
      {
        assert paths[..i + 1][..i] == paths[..i];
        named := ReadPathPlugins(named, Concat(paths[..i]), paths[i]);
      }
      assert paths[..|paths|] == paths;
    }

    static method ReadPathPlugins(before: map<string, Container>, ghost earlier: seq<Container>, found: seq<Container>)
      returns (named: map<string, Container>)
      requires before == ByName(earlier)
      ensures named == ByName(earlier + found)
    {
      named := before;
      assert earlier + found[..0] == earlier;
      for j := 0 to |found|
        invariant named == ByName(earlier + found[..j])
      {
        assert (earlier + found[..j + 1])[..|earlier| + j] == earlier + found[..j];
        named := named[found[j].name := found[j]];
      }
      assert found[..|found|] == found;
    }

    method InitPlugins(named: map<string, Container>)
      requires plugins == map[]
      modifies this
      ensures plugins == ByTitle(named, Sorted(named.Keys))
      ensures Valid()
    {
      var names := KeysOf(named.Keys);
      for i := 0 to |names|
        invariant plugins == ByTitle(named, names[..i])
      {
        assert names[..i + 1][..i] == names[..i];
        assert names[i] in names;
        match named[names[i]].loaded
        case None =>
        case Some(plugin) =>
          plugins := plugins[plugin.title := plugin];
      }
      assert names[..|names|] == names;
      ByTitleKeys(named, names);
    }

    /** The lookup of the source scans the index and compares titles. */
    method Lookup(title: string) returns (found: Option<Plugin>)
      requires Valid()
      ensures found == if title in plugins then Some(plugins[title]) else None
    {
      var keys := KeysOf(plugins.Keys);
      for i := 0 to |keys|
        invariant forall j | 0 <= j < i :: keys[j] != title
      {
        assert keys[i] in plugins;
        if plugins[keys[i]].title == title {
          return Some(plugins[keys[i]]);
        }
      }
      assert title in plugins ==> title in keys;
      found := None;
    }
  }

  lemma {:induction false} ByTitleKeys(named: map<string, Container>, names: seq<string>)
    requires forall k | k in names :: k in named
    ensures forall t | t in ByTitle(named, names) :: ByTitle(named, names)[t].title == t
  {
    if names != [] {
      ByTitleKeys(named, names[..|names| - 1]);
    }
  }

  predicate Titled(named: map<string, Container>, name: string, title: string) {
    name in named && named[name].loaded.Some? && named[name].loaded.value.title == title
  }

  /** The last of the names that loads a plugin of the title. */
  predicate LastTitled(named: map<string, Container>, names: seq<string>, i: nat, title: string) {
    && i < |names| && Titled(named, names[i], title)
    && forall j | i < j < |names| :: !Titled(named, names[j], title)
  }

  /** A title is indexed iff some name loads a plugin of that title, and the last such name decides. */
  lemma {:induction false} ByTitleLastWins(named: map<string, Container>, names: seq<string>, i: nat, title: string)
    requires forall k | k in names :: k in named
    requires LastTitled(named, names, i, title)
    ensures title in ByTitle(named, names) && ByTitle(named, names)[title] == named[names[i]].loaded.value
  {
    var n := |names| - 1;
    if i < n {
      assert LastTitled(named, names[..n], i, title);
      ByTitleLastWins(named, names[..n], i, title);
      assert !Titled(named, names[n], title);
    }
  }

  lemma {:induction false} ByTitleDomain(named: map<string, Container>, names: seq<string>, title: string)
    returns (i: nat)
    requires forall k | k in names :: k in named
    requires title in ByTitle(named, names)
    ensures LastTitled(named, names, i, title)
  {
    var n := |names| - 1;
    if Titled(named, names[n], title) {
      i := n;
    } else {
      i := ByTitleDomain(named, names[..n], title);
    }
  }

  lemma {:induction false} ByNameLastWins(containers: seq<Container>, i: nat)
    requires Decides(containers, i)
    ensures containers[i].name in ByName(containers) && ByName(containers)[containers[i].name] == containers[i]
  {
    var n := |containers| - 1;
    if i < n {
      assert Decides(containers[..n], i);
      ByNameLastWins(containers[..n], i);
    }
  }

  /** The last container read under its name, and it loads a plugin of the title. */
  predicate Provides(containers: seq<Container>, i: nat, title: string) {
    && Decides(containers, i)
    && containers[i].loaded.Some?
    && containers[i].loaded.value.title == title
  }

  predicate Decides(containers: seq<Container>, i: nat) {
    i < |containers| && forall j | i < j < |containers| :: containers[j].name != containers[i].name
  }

  /** Among the providers of a title, the one with the greatest name. */
  ghost predicate Chosen(containers: seq<Container>, i: nat, title: string) {
    && Provides(containers, i, title)
    && forall j: nat | Provides(containers, j, title) :: i == j || Before(containers[j].name, containers[i].name)
  }

  /** The position, among the sorted names, of a name that has a container. */
  lemma NamePosition(containers: seq<Container>, i: nat) returns (k: nat)
    requires Decides(containers, i)
    ensures k < |Sorted(ByName(containers).Keys)|
    ensures Sorted(ByName(containers).Keys)[k] == containers[i].name
    ensures containers[i].name in ByName(containers) && ByName(containers)[containers[i].name] == containers[i]
  {
    ByNameLastWins(containers, i);
    assert containers[i].name in Sorted(ByName(containers).Keys);
    k :| 0 <= k < |Sorted(ByName(containers).Keys)| && Sorted(ByName(containers).Keys)[k] == containers[i].name;
  }

  /** Every registered title has a provider, the chosen one, and its plugin is the one registered. */
  lemma RegisteredIsChosen(containers: seq<Container>, title: string) returns (i: nat)
    requires title in Registry(containers)
    ensures Chosen(containers, i, title)
    ensures Registry(containers)[title] == containers[i].loaded.value
  {
    var named := ByName(containers);
    var names := Sorted(named.Keys);
    var k := ByTitleDomain(named, names, title);
    ByTitleLastWins(named, names, k, title);
    i := DecidingIndex(containers, names[k]);
    forall j: nat | Provides(containers, j, title)
      ensures i == j || Before(containers[j].name, containers[i].name)
    {
      var m := NamePosition(containers, j);
      assert Titled(named, names[m], title);
      if m == k { SameDecider(containers, i, j); }
    }
  }

  lemma SameDecider(containers: seq<Container>, i: nat, j: nat)
    requires Decides(containers, i) && Decides(containers, j) && containers[i].name == containers[j].name
    ensures i == j
  {
  }

  /** Every title with a provider is registered. */
  lemma ProvidedIsRegistered(containers: seq<Container>, i: nat, title: string)
    requires Provides(containers, i, title)
    ensures title in Registry(containers)
  {
    var named := ByName(containers);
    var names := Sorted(named.Keys);
    var m := NamePosition(containers, i);
    var k := LastTitledExists(named, names, m, title);
    ByTitleLastWins(named, names, k, title);
  }

  lemma {:induction false} LastTitledExists(named: map<string, Container>, names: seq<string>, m: nat, title: string)
    returns (k: nat)
    requires m < |names| && Titled(named, names[m], title)
    ensures LastTitled(named, names, k, title)
    decreases |names| - m
  {
    if j :| m < j < |names| && Titled(named, names[j], title) {
      k := LastTitledExists(named, names, j, title);
    } else {
      k := m;
    }
  }

  lemma {:induction false} DecidingIndex(containers: seq<Container>, name: string) returns (i: nat)
    requires name in ByName(containers)
    ensures Decides(containers, i) && containers[i].name == name && ByName(containers)[name] == containers[i]
  {
    var n := |containers| - 1;
    if containers[n].name == name {
      i := n;
    } else {
      i := DecidingIndex(containers[..n], name);
      assert containers[..n][i] == containers[i];
      forall j | i < j < |containers| ensures containers[j].name != name {
        if j < n { assert containers[..n][j] == containers[j]; }
      }
    }
  }
}
