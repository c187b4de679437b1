/** One directory of account files: reading, listing, writing and removing the files in it. */
module AccountParsers {
  import opened Base
  import opened Accounts
  import opened Services
  import opened Environment
  import opened AccountObjects

  function ReadFile(cfg: Config, dir: Dir, id: Uuid, account: Account): ReadResult {
    if id in dir.files then Read(cfg.plugins.Keys, account, dir.files[id]) else ReadResult(false, account)
  }

  /** The accounts the given files hold; a file that cannot be read is passed over. */
  function ListFiles(cfg: Config, dir: Dir, ids: seq<Uuid>): seq<Account> {
    if ids == [] then []
    else
      var n := |ids| - 1;
      var r := ReadFile(cfg, dir, ids[n], NEW_ACCOUNT);
      ListFiles(cfg, dir, ids[..n]) + if r.ok then [r.account] else []
  }

  function ListDir(cfg: Config, dir: Dir): seq<Account> {
    ListFiles(cfg, dir, cfg.dirOrder(dir.files.Keys))
  }

  datatype DirRun = DirRun(ok: bool, dir: Dir)

  ghost function WriteFile(dir: Dir, account: Account): DirRun {
    if account.id == NIL_ID || dir.readOnly then DirRun(false, dir)
    else DirRun(true, dir.(files := dir.files[account.id := Print(account)]))
  }

  function RemoveFile(dir: Dir, id: Uuid): DirRun {
    if dir.readOnly || id !in dir.files then DirRun(false, dir) else DirRun(true, dir.(files := dir.files - {id}))
  }

  // ---------------------------------------------------------------- the keys a service writes

  function KeptKeys(service: Service, keys: seq<string>): seq<string> {
    if keys == [] then []
    else
      var k := keys[|keys| - 1];
      KeptKeys(service, keys[..|keys| - 1]) + if IsProtected(service, k) then [] else [k]
  }

  function KeptPairs(service: Service, keys: seq<string>): seq<Pair>
    requires forall k | k in keys :: k in service.params
  {
    if keys == [] then []
    else
      var k := keys[|keys| - 1];
      KeptPairs(service, keys[..|keys| - 1]) + if IsProtected(service, k) then [] else [Pair(k, service.params[k])]
  }

  lemma {:induction false} KeptKeysAscend(service: Service, keys: seq<string>)
    requires Ascending(keys)
    ensures Ascending(KeptKeys(service, keys))
    ensures forall k :: k in KeptKeys(service, keys) <==> k in keys && !IsProtected(service, k)
  {
    if keys != [] {
      var n := |keys| - 1;
      KeptKeysAscend(service, keys[..n]);
      assert keys == keys[..n] + [keys[n]];
      var front := KeptKeys(service, keys[..n]);
      forall i | 0 <= i < |front| ensures Before(front[i], keys[n]) {
        assert front[i] in keys[..n];
        var j :| 0 <= j < n && keys[j] == front[i];
        assert Before(keys[j], keys[n]);
      }
    }
  }

  lemma {:induction false} KeptPairsOfKeys(service: Service, keys: seq<string>)
    requires forall k | k in keys :: k in service.params
    ensures |KeptPairs(service, keys)| == |KeptKeys(service, keys)|
    ensures forall k | k in KeptKeys(service, keys) :: k in service.params
    ensures forall i | 0 <= i < |KeptKeys(service, keys)| ::
              KeptPairs(service, keys)[i]
                  == Pair(KeptKeys(service, keys)[i], service.params[KeptKeys(service, keys)[i]])
  {
    if keys != [] {
      KeptPairsOfKeys(service, keys[..|keys| - 1]);
    }
  }

  /** Skipping the protected keys on the way writes the unprotected parameters in key order. */
  lemma KeptPairsArePairs(service: Service)
    ensures KeptPairs(service, Sorted(service.params.Keys)) == Pairs(Unprotected(service))
  {
    var keys := Sorted(service.params.Keys);
    var kept := KeptKeys(service, keys);
    KeptKeysAscend(service, keys);
    KeptPairsOfKeys(service, keys);
    AscendingUnique(kept, Sorted(Unprotected(service).Keys));
  }

  ghost function Groups(services: map<string, Service>, names: seq<string>): seq<seq<ServiceNode>>
    requires forall k | k in names :: k in services
  {
    seq(|names|, i requires 0 <= i < |names| => PrintService(names[i], services[names[i]]))
  }

  class AccountParser {
    const readOnly: bool
    var files: map<Uuid, Document>

    function Dir(): Dir
      reads this
    {
      Environment.Dir(readOnly, files)
    }

    constructor (readOnly: bool, files: map<Uuid, Document>)
      ensures Dir() == Environment.Dir(readOnly, files)
    {
      this.readOnly, this.files := readOnly, files;
    }

    method HasAccount(id: Uuid, host: Host) returns (has: bool)
      requires Listable(host.dirOrder)
      ensures has == (id in files)
    {
      var ids := host.dirOrder(files.Keys);
      assert Enumerates(ids, files.Keys);
      for i := 0 to |ids|
        invariant forall j | 0 <= j < i :: ids[j] != id
      {
        if ids[i] == id {
          assert ids[i] in ids;
          return true;
        }
      }
      assert id in files.Keys ==> id in ids;
      return false;
    }

    static method ReadIdAndTitle(account: AccountObject, node: AccountNode) returns (ok: bool)
      modifies account`id, account`title
      ensures ReadResult(ok, account.Value()) == ReadNames(old(account.Value()), node)
    {
      if node.id.None? {
        return false;
      }
      account.id := node.id.value;
      if node.title.None? {
        return false;
      }
      account.title := node.title.value;
      return true;
    }

    static method ReadProviderAndState(account: AccountObject, node: AccountNode) returns (ok: bool)
      modifies account`provider, account`active, account`settings
      ensures ReadResult(ok, account.Value()) == ReadState(old(account.Value()), node)
    {
      if node.provider.None? {
        return false;
      }
      account.provider := node.provider.value;
      if node.active.None? {
        return false;
      }
      account.active := node.active.value;
      account.AddSettings(node.settings);
      return true;
    }

    static method ReadScalars(account: AccountObject, node: AccountNode) returns (ok: bool)
      modifies account`id, account`title, account`provider, account`active, account`settings
      ensures ReadResult(ok, account.Value()) == ReadHeader(old(account.Value()), node)
    {
      ok := ReadIdAndTitle(account, node);
      if ok {
        ok := ReadProviderAndState(account, node);
      }
    }

    static method ReadServiceGroups(account: AccountObject, groups: seq<seq<ServiceNode>>, host: Host)
      returns (ok: bool)
      requires account.Valid(host.plugins.plugins) && host.plugins.Valid()
      modifies account`services, account.services.Values
      ensures account.Valid(host.plugins.plugins)
      ensures fresh(account.services.Values - old(account.services.Values))
      ensures ReadServices(ok, account.Value().services)
           == ReadGroups(old(host.plugins.plugins).Keys, old(account.Value()).services, groups)
      ensures account.Value() == old(account.Value()).(services := account.Value().services)
    {
      ghost var before, registered := account.Value(), host.plugins.plugins.Keys;
      for i := 0 to |groups|
        invariant account.Valid(host.plugins.plugins)
        invariant fresh(account.services.Values - old(account.services.Values))
        invariant ReadServices(true, account.Value().services) == ReadGroups(registered, before.services, groups[..i])
        invariant account.Value() == before.(services := account.Value().services)
      {
        assert groups[..i + 1][..i] == groups[..i];
        var added := account.AddServices(groups[i], host);
        if !added {
          ReadGroupsStops(registered, before.services, groups, i + 1);
          return false;
        }
      }
      assert groups[..|groups|] == groups;
      return true;
    }

    /** Merges a file into the given account. */
    method Read(id: Uuid, account: AccountObject, host: Host) returns (ok: bool)
      requires account.Valid(host.plugins.plugins) && host.plugins.Valid()
      modifies account, account.services.Values
      ensures account.Valid(host.plugins.plugins)
      ensures fresh(account.services.Values - old(account.services.Values))
      ensures ReadResult(ok, account.Value()) == ReadFile(old(host.Configuration()), Dir(), id, old(account.Value()))
    {
      if id !in files {
        return false;
      }
      match files[id]
      case Unreadable =>
        ok := false;
      case Empty =>
        ok := true;
      case Doc(node) =>
        ok := ReadScalars(account, node);
        if ok {
          ok := ReadServiceGroups(account, node.services, host);
        }
    }

    method List(host: Host) returns (accounts: seq<Account>)
      requires host.plugins.Valid()
      ensures accounts == ListDir(old(host.Configuration()), old(Dir()))
    {
      ghost var cfg, dir := host.Configuration(), Dir();
      var ids := host.dirOrder(files.Keys);
      accounts := [];
      for i := 0 to |ids|
        invariant accounts == ListFiles(cfg, dir, ids[..i])
      {
        assert ids[..i + 1][..i] == ids[..i];
        var account := new AccountObject();
        var accepted := Read(ids[i], account, host);
        if accepted {
          accounts := accounts + [account.Value()];
        }
      }
      assert ids[..|ids|] == ids;
    }

    /** Writes the parameters that are not protected. */
    static method PrintParams(service: AccountService) returns (pairs: seq<Pair>)
      ensures pairs == Pairs(Unprotected(old(service.Value())))
    {
      pairs := [];
      ghost var value := service.Value();
      var keys := KeysOf(service.params.Keys);
      for i := 0 to |keys|
        invariant pairs == KeptPairs(value, keys[..i])
      {
        assert keys[i] in keys && keys[..i + 1][..i] == keys[..i];
        var isProtected := service.verified && keys[i] in service.guarded && service.guarded[keys[i]];
        if !isProtected {
          pairs := pairs + [Pair(keys[i], service.params[keys[i]])];
        }
      }
      assert keys[..|keys|] == keys;
      KeptPairsArePairs(value);
    }

    static method PrintServices(account: AccountObject, names: seq<string>) returns (groups: seq<seq<ServiceNode>>)
      requires forall k | k in names :: k in account.services && k in account.Value().services
      ensures groups == Groups(old(account.Value()).services, names)
    {
      ghost var services := account.Value().services;
      groups := [];
      for i := 0 to |names|
        invariant groups == Groups(services, names)[..i]
      {
        assert names[i] in names;
        assert services[names[i]] == account.services[names[i]].Value();
        var pairs := PrintParams(account.services[names[i]]);
        groups := groups + [[ServiceNode(names[i], pairs)]];
      }
    }

    method Write(account: AccountObject) returns (ok: bool)
      modifies this
      ensures DirRun(ok, Dir()) == WriteFile(old(Dir()), old(account.Value()))
      ensures ok == (account.id != NIL_ID && !readOnly)
      ensures files == if ok then old(files)[account.id := Print(old(account.Value()))] else old(files)
    {
      if account.id == NIL_ID {
        return false;
      }
      if readOnly {
        return false;
      }
      ghost var value := account.Value();
      var settings := PairsOf(account.settings);
      var names := account.ServiceNames();
      var groups := PrintServices(account, names);
      var doc := Doc(AccountNode(Some(account.id), Some(account.title), Some(account.provider), Some(account.active),
                                 settings, groups));
      assert doc == Print(value);
      files := files[account.id := doc];
      return true;
    }

    method Remove(id: Uuid) returns (ok: bool)
      modifies this
      ensures DirRun(ok, Dir()) == RemoveFile(old(Dir()), id)
      ensures ok == (id in old(files) && !readOnly)
      ensures files == if ok then old(files) - {id} else old(files)
    {
      if readOnly {
        return false;
      }
      if id !in files {
        return false;
      }
      files := files - {id};
      return true;
    }
  }
}
