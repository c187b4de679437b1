/** The account manager itself: the operations of `Lifecycle`, carried out step by step. */
module AccountManagers {
  import opened Base
  import opened Secrets
  import opened Plugins
  import opened Accounts
  import opened Services
  import opened Environment
  import opened AccountObjects
  import opened AccountParsers
  import opened Lifecycle

  function Dirs(parsers: seq<AccountParser>): (dirs: seq<Dir>)
    reads parsers
    ensures |dirs| == |parsers|
    ensures forall i | 0 <= i < |parsers| :: dirs[i] == parsers[i].Dir()
  {
    if parsers == [] then [] else Dirs(parsers[..|parsers| - 1]) + [parsers[|parsers| - 1].Dir()]
  }

  class AccountManager {
    const parsers: seq<AccountParser>
    const host: Host
    var statDict: map<Uuid, Status>

    ghost predicate Valid()
      reads this, host.plugins
    {
      && (forall i, j | 0 <= i < j < |parsers| :: parsers[i] != parsers[j])
      && host.plugins.Valid()
      && Listable(host.dirOrder)
    }

    ghost function World(): World
      reads this, parsers, host.secrets, host.store, host.events
    {
      Environment.World(Dirs(parsers), host.secrets.items, host.store.entries, statDict, host.events.log)
    }

    /** User directories first, then the read-only ones. */
    constructor (userDirs: seq<map<Uuid, Document>>, readOnlyDirs: seq<map<Uuid, Document>>, host: Host)
      requires host.plugins.Valid() && Listable(host.dirOrder)
      ensures Valid() && this.host == host && statDict == map[]
      ensures Dirs(parsers) == Opened(userDirs, readOnlyDirs)
    {
      var users := OpenAll(false, userDirs);
      var others := OpenAll(true, readOnlyDirs);
      this.host := host;
      statDict := map[];
      parsers := users + others;
    }

    static method OpenAll(readOnly: bool, dirs: seq<map<Uuid, Document>>) returns (parsers: seq<AccountParser>)
      ensures |parsers| == |dirs| && forall i | 0 <= i < |parsers| :: fresh(parsers[i])
      ensures forall i | 0 <= i < |parsers| :: parsers[i].Dir() == Environment.Dir(readOnly, dirs[i])
      ensures forall i, j | 0 <= i < j < |parsers| :: parsers[i] != parsers[j]
    {
      parsers := [];
      for k := 0 to |dirs|
        invariant |parsers| == k && forall i | 0 <= i < k :: fresh(parsers[i])
        invariant forall i | 0 <= i < k :: parsers[i].Dir() == Environment.Dir(readOnly, dirs[i])
        invariant forall i, j | 0 <= i < j < k :: parsers[i] != parsers[j]
      {
        var parser := new AccountParser(readOnly, dirs[k]);
        parsers := parsers + [parser];
      }
    }

    method FindParserFor(id: Uuid, onlyWritable: bool) returns (found: Option<nat>)
      requires Valid()
      ensures found == FindParser(old(Dirs(parsers)), id, onlyWritable)
      ensures found.Some? ==> found.value < |parsers|
      ensures found.Some? ==>
        var parser := parsers[found.value];
        (!onlyWritable || !parser.readOnly) && (id in parser.files || id == NIL_ID)
      ensures forall i | 0 <= i < if found.Some? then found.value else |parsers| ::
                (onlyWritable && parsers[i].readOnly) || (id !in parsers[i].files && id != NIL_ID)
      ensures World() == old(World())
    {
      ghost var dirs := Dirs(parsers);
      for i := 0 to |parsers|
        invariant FindParser(dirs, id, onlyWritable) == FindParser(dirs, id, onlyWritable, i)
        invariant forall j | 0 <= j < i ::
                    (onlyWritable && parsers[j].readOnly) || (id !in parsers[j].files && id != NIL_ID)
      {
        assert dirs[i] == parsers[i].Dir();
        if !onlyWritable || !parsers[i].readOnly {
          var has := parsers[i].HasAccount(id, host);
          if has || id == NIL_ID {
            return Some(i);
          }
        }
      }
      return None;
    }

    /** Looking for a directory leaves an account object alone. */
    method FindParserPast(account: AccountObject, id: Uuid, onlyWritable: bool) returns (found: Option<nat>)
      requires Valid() && account.Valid(host.plugins.plugins)
      ensures found == FindParser(old(Dirs(parsers)), id, onlyWritable)
      ensures found.Some? ==> found.value < |parsers|
      ensures World() == old(World())
      ensures account.Valid(host.plugins.plugins) && account.Value() == old(account.Value())
    {
      found := FindParserFor(id, onlyWritable);
    }

    /** Reads from one directory, then lets the plugins replace their references. */
    method ReadFrom(parser: AccountParser, id: Uuid, account: AccountObject) returns (ok: bool)
      requires Valid() && account.Valid(host.plugins.plugins)
      requires account.Value().services.Keys <= host.plugins.plugins.Keys
      modifies account, account.services.Values
      ensures account.Valid(host.plugins.plugins)
      ensures
        var cfg := old(host.Configuration());
        var r := ReadFile(cfg, old(parser.Dir()), id, old(account.Value()));
        && ok == r.ok
        && account.Value() ==
           if ok then r.account.(services := ReadCustomAll(cfg, old(host.store.entries), r.account.services))
               else r.account
      ensures ok ==> account.Value().services.Keys <= host.plugins.plugins.Keys
      ensures fresh(account.services.Values - old(account.services.Values))
    {
      ghost var before, dir, registered := account.Value(), parser.Dir(), host.plugins.plugins.Keys;
      ok := parser.Read(id, account, host);
      if ok {
        ReadRegistered(registered, before, dir.files[id]);
        account.PerformCustomReads(host);
      }
    }

    method ReadAccountInto(id: Uuid, account: AccountObject) returns (ok: bool)
      requires Valid() && account.Valid(host.plugins.plugins)
      requires account.Value().services.Keys <= host.plugins.plugins.Keys
      modifies account, account.services.Values
      ensures account.Valid(host.plugins.plugins)
      ensures ReadResult(ok, account.Value())
           == ReadAccount(old(host.Configuration()), old(World()), id, old(account.Value()))
      ensures ok ==> account.Value().services.Keys <= host.plugins.plugins.Keys
      ensures fresh(account.services.Values - old(account.services.Values))
    {
      var p := FindParserPast(account, id, false);
      ok := false;
      if p.Some? {
        ok := ReadFrom(parsers[p.value], id, account);
      }
    }

    /** Reads an account into an object of its own. */
    method ReadNewAccount(id: Uuid) returns (ok: bool, account: AccountObject)
      requires Valid()
      ensures fresh(account) && fresh(account.services.Values) && account.Valid(host.plugins.plugins)
      ensures ReadResult(ok, account.Value()) == ReadAccount(old(host.Configuration()), old(World()), id, NEW_ACCOUNT)
      ensures ok ==> account.Value().services.Keys <= host.plugins.plugins.Keys
      ensures World() == old(World())
    {
      account := new AccountObject();
      ok := ReadAccountInto(id, account);
    }

    method SetAccountStatus(id: Uuid, now: Status) returns (ok: bool)
      requires Valid()
      modifies this`statDict, host.events
      ensures Step(ok, World()) == SetStatus(old(host.Configuration()), old(World()), id, now)
    {
      var act;
      ok, act := ReadNewAccount(id);
      if ok {
        RecordStatus(act.id, now);
      }
    }

    method RecordStatus(id: Uuid, now: Status)
      modifies this`statDict, host.events
      ensures statDict == old(statDict)[id := now]
      ensures
        var was := StatusOf(old(statDict), id);
        host.events.log == if was != now then old(host.events.log) + [StatusChanged(id, was, now)]
            else old(host.events.log)
      ensures Dirs(parsers) == old(Dirs(parsers))
    {
      ghost var directories: set<object> := set p | p in parsers;
      assert host.events !in directories;
      var was := if id in statDict then statDict[id] else NONE;
      statDict := statDict[id := now];
      if was != now {
        host.events.Emit(StatusChanged(id, was, now));
      }
    }

    method GetAccountStatus(id: Uuid) returns (status: Status)
      ensures status == StatusOf(statDict, id)
    {
      if id !in statDict {
        return NONE;
      }
      return statDict[id];
    }

    method Accepts(account: Account, providers: seq<string>, services: seq<string>) returns (accepted: bool)
      ensures accepted == Accepted(account, providers, services)
    {
      accepted := providers == [] && services == [];
      for i := 0 to |providers|
        invariant accepted == ((providers == [] && services == []) || account.provider in providers[..i])
      {
        if account.provider == providers[i] {
          accepted := true;
        }
      }
      for i := 0 to |services|
        invariant accepted == ((providers == [] && services == []) || account.provider in providers
                               || exists j | 0 <= j < i :: services[j] in account.services)
      {
        if services[i] in account.services {
          accepted := true;
        }
      }
    }

    method ListAccounts(providers: seq<string>, services: seq<string>) returns (accounts: seq<Account>)
      requires Valid()
      ensures accounts == Filtered(ListAll(old(host.Configuration()), old(Dirs(parsers))), providers, services)
    {
      ghost var cfg, dirs := host.Configuration(), Dirs(parsers);
      accounts := [];
      for i := 0 to |parsers|
        invariant accounts == Filtered(ListAll(cfg, dirs[..i]), providers, services)
      {
        assert dirs[..i + 1][..i] == dirs[..i] && dirs[i] == parsers[i].Dir();
        var found := parsers[i].List(host);
        accounts := AddAccepted(accounts, ListAll(cfg, dirs[..i]), found, providers, services);
      }
      assert dirs[..|parsers|] == dirs;
    }

    method AddAccepted(before: seq<Account>, ghost earlier: seq<Account>, found: seq<Account>,
                       providers: seq<string>, services: seq<string>) returns (accounts: seq<Account>)
      requires before == Filtered(earlier, providers, services)
      ensures accounts == Filtered(earlier + found, providers, services)
    {
      accounts := before;
      assert earlier + found[..0] == earlier;
      for j := 0 to |found|
        invariant accounts == Filtered(earlier + found[..j], providers, services)
      {
        assert (earlier + found[..j + 1])[..|earlier| + j] == earlier + found[..j];
        var accepted := Accepts(found[j], providers, services);
        if accepted {
          accounts := accounts + [found[j]];
        }
      }
      assert found[..|found|] == found;
    }

    method CountWith(accounts: seq<Account>, name: string) returns (count: nat)
      ensures count == CountService(accounts, name)
    {
      count := 0;
      for i := 0 to |accounts|
        invariant count == CountService(accounts[..i], name)
      {
        assert accounts[..i + 1][..i] == accounts[..i];
        if name in accounts[i].services {
          count := count + 1;
        }
      }
      assert accounts[..|accounts|] == accounts;
    }

    method CheckLimits(account: AccountObject, listed: seq<Account>) returns (ok: bool)
      requires account.Valid(host.plugins.plugins)
      requires account.Value().services.Keys <= host.plugins.plugins.Keys
      ensures ok == forall k | k in old(account.Value()).services :: UnderLimit(old(host.Configuration()), listed, k)
    {
      ghost var cfg, services := host.Configuration(), account.Value().services;
      var names := account.ServiceNames();
      for i := 0 to |names|
        invariant forall j | 0 <= j < i :: UnderLimit(cfg, listed, names[j])
      {
        assert names[i] in names;
        var plugin := account.services[names[i]].plugin;
        if plugin.value.maxCount >= 0 {
          var count := CountWith(listed, names[i]);
          if count >= plugin.value.maxCount {
            assert !UnderLimit(cfg, listed, names[i]);
            return false;
          }
        }
      }
      forall k | k in services ensures UnderLimit(cfg, listed, k) {
        assert k in names;
      }
      return true;
    }

    method VerifyAccountCreationLimits(account: AccountObject) returns (ok: bool)
      requires Valid() && account.Valid(host.plugins.plugins)
      requires account.Value().services.Keys <= host.plugins.plugins.Keys
      ensures ok == WithinLimits(old(host.Configuration()), old(Dirs(parsers)), old(account.Value()))
      ensures World() == old(World()) && account.Value() == old(account.Value())
    {
      ghost var cfg, value, dirs := host.Configuration(), account.Value(), Dirs(parsers);
      var listed := ListAccounts([], []);
      FilteredByNothing(ListAll(cfg, dirs));
      assert account.Value() == value;
      ok := CheckLimits(account, listed);
    }

    /** Writes the account file, then resets the status kept under the id. */
    method StoreAccount(p: nat, account: AccountObject, id: Uuid) returns (ok: bool)
      requires Valid() && p < |parsers|
      modifies parsers[p], this`statDict, host.events
      ensures Step(ok, World()) == Store(old(host.Configuration()), old(World()), p, old(account.Value()), id)
    {
      ghost var dirs := Dirs(parsers);
      ok := parsers[p].Write(account);
      assert Dirs(parsers) == dirs[p := parsers[p].Dir()];
      if ok {
        var reset := SetAccountStatus(id, NONE);
      }
    }

    /** Verification leaves directories, statuses and the log alone. */
    method VerifyAccountIn(account: AccountObject) returns (ok: bool)
      requires Valid() && account.Valid(host.plugins.plugins)
      modifies account.services.Values, host.secrets, host.store
      ensures account.Valid(host.plugins.plugins)
      ensures AccountRun(ok, account.Value(), host.secrets.items, host.store.entries)
           == VerifyAccount(old(host.Configuration()), old(account.Value()), old(host.secrets.items),
               old(host.store.entries))
      ensures Dirs(parsers) == old(Dirs(parsers))
    {
      ghost var directories: set<object> := set p | p in parsers;
      assert host.secrets !in directories && host.store !in directories;
      ok := account.Verify(host);
    }

    method StoreAndAnnounce(p: nat, account: AccountObject, id: Uuid, event: Event) returns (ok: bool)
      requires Valid() && p < |parsers|
      modifies parsers[p], this`statDict, host.events
      ensures Step(ok, World())
           == Announce(Store(old(host.Configuration()), old(World()), p, old(account.Value()), id), event)
    {
      ok := StoreAccount(p, account, id);
      if ok {
        Emit(event);
      }
    }

    /** Saving does not touch the account object. */
    method Save(p: nat, account: AccountObject, id: Uuid, event: Event) returns (ok: bool)
      requires Valid() && p < |parsers| && account.Valid(host.plugins.plugins)
      modifies parsers[p], this`statDict, host.events
      ensures Step(ok, World())
           == Announce(Store(old(host.Configuration()), old(World()), p, old(account.Value()), id), event)
      ensures account.Valid(host.plugins.plugins) && account.Value() == old(account.Value())
    {
      ghost var own: set<object> := account.services.Values;
      assert parsers[p] !in own && host.events !in own && this !in own;
      ok := StoreAndAnnounce(p, account, id, event);
    }

    method Emit(event: Event)
      modifies host.events
      ensures World() == old(World()).(log := old(host.events.log) + [event])
    {
      ghost var directories: set<object> := set q | q in parsers;
      assert host.events !in directories;
      host.events.Emit(event);
    }

    method AdmitAccount(p: nat, account: AccountObject, newId: Uuid) returns (ok: bool)
      requires Valid() && account.Valid(host.plugins.plugins) && p < |parsers|
      modifies this`statDict, parsers[p], account.services.Values, host.secrets, host.store, host.events
      ensures account.Valid(host.plugins.plugins)
      ensures Outcome(ok, World(), account.Value())
           == Admit(old(host.Configuration()), old(World()), p, old(account.Value()), newId)
    {
      ok := VerifyAccountIn(account);
      if ok {
        ok := Save(p, account, newId, Created(account.id));
      }
    }

    method WithNewId(account: AccountObject, newId: Uuid)
      requires account.Valid(host.plugins.plugins)
      modifies account`id
      ensures account.Valid(host.plugins.plugins)
      ensures account.Value() == old(account.Value()).(id := newId)
      ensures World() == old(World())
    {
      ghost var directories: set<object> := set q | q in parsers;
      assert account !in directories;
      account.id := newId;
      assert account.Value().services == old(account.Value()).services;
    }

    method CreateAccountIn(p: nat, account: AccountObject, newId: Uuid) returns (ok: bool)
      requires Valid() && account.Valid(host.plugins.plugins) && p < |parsers|
      requires account.Value().services.Keys <= host.plugins.plugins.Keys
      modifies this`statDict, parsers[p], account, account.services.Values, host.secrets, host.store, host.events
      ensures account.Valid(host.plugins.plugins)
      ensures Outcome(ok, World(), account.Value())
           == CreateIn(old(host.Configuration()), old(World()), p, old(account.Value()), newId)
    {
      WithNewId(account, newId);
      ok := VerifyAccountCreationLimits(account);
      if ok {
        ok := AdmitAccount(p, account, newId);
      }
    }

    /** The id is the one the uuid generator answers with. */
    method CreateAccount(account: AccountObject, newId: Uuid) returns (ok: bool)
      requires Valid() && account.Valid(host.plugins.plugins)
      requires account.Value().services.Keys <= host.plugins.plugins.Keys
      modifies this`statDict, parsers, account, account.services.Values, host.secrets, host.store, host.events
      ensures account.Valid(host.plugins.plugins)
      ensures Outcome(ok, World(), account.Value())
           == Create(old(host.Configuration()), old(World()), old(account.Value()), newId)
    {
      var p := FindParserPast(account, NIL_ID, true);
      if p.None? {
        return false;
      }
      ok := CreateAccountIn(p.value, account, newId);
    }

    method ReplaceAccount(p: nat, prior: AccountObject, account: AccountObject) returns (ok: bool)
      requires Valid() && p < |parsers|
      requires prior.Valid(host.plugins.plugins) && account.Valid(host.plugins.plugins)
      modifies this`statDict, parsers[p], host.secrets, host.events
      ensures Step(ok, World())
           == Replace(old(host.Configuration()), old(World()), p, old(prior.Value()), old(account.Value()))
    {
      ok := StoreAccount(p, account, prior.id);
      if ok {
        CleanUp(prior, account);
        Emit(Modified(prior.id));
      }
    }

    /** Replacing does not touch the account objects. */
    method ReplaceWith(p: nat, prior: AccountObject, account: AccountObject) returns (ok: bool)
      requires Valid() && p < |parsers|
      requires prior.Valid(host.plugins.plugins) && account.Valid(host.plugins.plugins)
      modifies this`statDict, parsers[p], host.secrets, host.events
      ensures Step(ok, World())
           == Replace(old(host.Configuration()), old(World()), p, old(prior.Value()), old(account.Value()))
      ensures account.Valid(host.plugins.plugins) && account.Value() == old(account.Value())
    {
      ghost var own: set<object> := account.services.Values;
      assert parsers[p] !in own && host.events !in own && host.secrets !in own && this !in own;
      ok := ReplaceAccount(p, prior, account);
    }

    method CleanUp(prior: AccountObject, account: AccountObject)
      requires prior.Valid(host.plugins.plugins)
      modifies host.secrets
      ensures World() == old(World()).(items :=
        CleanedUp(old(host.secrets.items), old(prior.Value()).id, Sorted(old(prior.Value()).services.Keys),
                  old(account.Value()).services.Keys))
    {
      ghost var directories: set<object> := set q | q in parsers;
      assert host.secrets !in directories;
      prior.Cleanup(account.Value(), host);
    }

    method VerifyUnder(id: Uuid, account: AccountObject) returns (ok: bool)
      requires Valid() && account.Valid(host.plugins.plugins)
      modifies account`id, account.services.Values, host.secrets, host.store
      ensures account.Valid(host.plugins.plugins)
      ensures AccountRun(ok, account.Value(), host.secrets.items, host.store.entries)
           == VerifyAccount(old(host.Configuration()), old(account.Value()).(id := id), old(host.secrets.items),
               old(host.store.entries))
      ensures Dirs(parsers) == old(Dirs(parsers))
    {
      WithNewId(account, id);
      ok := VerifyAccountIn(account);
    }

    /** Verification of one account, under the given id, leaves another one alone. */
    method VerifyPast(prior: AccountObject, id: Uuid, account: AccountObject) returns (ok: bool)
      requires Valid()
      requires prior.Valid(host.plugins.plugins) && account.Valid(host.plugins.plugins)
      requires prior != account && prior.services.Values !! account.services.Values
      modifies account`id, account.services.Values, host.secrets, host.store
      ensures account.Valid(host.plugins.plugins)
      ensures AccountRun(ok, account.Value(), host.secrets.items, host.store.entries)
           == VerifyAccount(old(host.Configuration()), old(account.Value()).(id := id), old(host.secrets.items),
               old(host.store.entries))
      ensures Dirs(parsers) == old(Dirs(parsers))
      ensures prior.Valid(host.plugins.plugins) && prior.Value() == old(prior.Value())
    {
      ok := VerifyUnder(id, account);
    }

    method ModifyAccountIn(p: nat, prior: AccountObject, account: AccountObject, id: Uuid) returns (ok: bool)
      requires Valid() && p < |parsers|
      requires prior.Valid(host.plugins.plugins) && account.Valid(host.plugins.plugins)
      requires prior != account && prior.services.Values !! account.services.Values
      modifies this`statDict, parsers[p], account, account.services.Values, host.secrets, host.store, host.events
      ensures account.Valid(host.plugins.plugins)
      ensures Outcome(ok, World(), account.Value())
           == ModifyIn(old(host.Configuration()), old(World()), p, old(prior.Value()), old(account.Value()), id)
    {
      ok := VerifyPast(prior, id, account);
      if ok {
        ok := ReplaceWith(p, prior, account);
      }
    }

    /** The old account and the directory to write to; None if one of them is missing. */
    method PriorAccount(id: Uuid) returns (p: Option<nat>, prior: AccountObject)
      requires Valid()
      ensures fresh(prior) && fresh(prior.services.Values) && prior.Valid(host.plugins.plugins)
      ensures World() == old(World())
      ensures
        var r := ReadAccount(old(host.Configuration()), old(World()), id, NEW_ACCOUNT);
        if r.ok then prior.Value() == r.account && p == FindParser(old(World()).dirs, r.account.id, true) else p == None
      ensures p.Some? ==> p.value < |parsers|
    {
      var ok;
      ok, prior := ReadNewAccount(id);
      if !ok {
        return None, prior;
      }
      p := FindParserPast(prior, prior.id, true);
    }

    method ModifyAccount(id: Uuid, account: AccountObject) returns (ok: bool)
      requires Valid() && account.Valid(host.plugins.plugins)
      modifies this`statDict, parsers, account, account.services.Values, host.secrets, host.store, host.events
      ensures account.Valid(host.plugins.plugins)
      ensures Outcome(ok, World(), account.Value())
           == Modify(old(host.Configuration()), old(World()), id, old(account.Value()))
    {
      ghost var value := account.Value();
      var p, prior := PriorAccount(id);
      assert account.Value() == value;
      if p.None? {
        return false;
      }
      ok := ModifyAccountIn(p.value, prior, account, id);
    }

    /** Plugin storage and secrets of an account that was read go; the account file stays. */
    method RemoveAssets(account: AccountObject) returns (ok: bool)
      requires Valid() && account.Valid(host.plugins.plugins)
      requires account.Value().services.Keys <= host.plugins.plugins.Keys
      modifies host.secrets, host.store
      ensures RemovalRun(ok, host.store.entries)
           == RemoveCustomUpTo(old(host.Configuration()), old(host.store.entries), old(account.Value()).services,
                               Sorted(old(account.Value()).services.Keys))
      ensures World() == old(World()).(
        vault := host.store.entries,
        items := if ok then Without(old(host.secrets.items), AccountQuery(old(account.id)))
            else old(host.secrets.items))
    {
      ghost var directories: set<object> := set q | q in parsers;
      assert host.secrets !in directories && host.store !in directories;
      ok := account.PerformAccountRemoval(host);
    }

    /** The account file goes, then the status, and the deletion is announced. */
    method RemoveFileAndAnnounce(p: nat, id: Uuid, accountId: Uuid) returns (ok: bool)
      requires Valid() && p < |parsers|
      modifies this`statDict, parsers[p], host.events
      ensures
        var w := old(World());
        var d := RemoveFile(w.dirs[p], id);
        && ok == d.ok
        && World() == if !ok then w else
             w.(dirs := w.dirs[p := d.dir], status := w.status - {accountId}, log := w.log + [Deleted(accountId)])
    {
      ghost var dirs := Dirs(parsers);
      ok := parsers[p].Remove(id);
      assert Dirs(parsers) == dirs[p := parsers[p].Dir()];
      if ok {
        statDict := statDict - {accountId};
        Emit(Deleted(accountId));
      }
    }

    /** Reads the account of one directory into an object of its own, references and all. */
    method ReadStored(p: nat, id: Uuid) returns (ok: bool, account: AccountObject)
      requires Valid() && p < |parsers|
      ensures fresh(account) && account.Valid(host.plugins.plugins)
      ensures ReadResult(ok, account.Value())
           == ReadFile(old(host.Configuration()), old(Dirs(parsers))[p], id, NEW_ACCOUNT)
      ensures ok ==> account.Value().services.Keys <= host.plugins.plugins.Keys
      ensures World() == old(World())
    {
      ghost var dir, registered := parsers[p].Dir(), host.plugins.plugins.Keys;
      account := new AccountObject();
      ok := parsers[p].Read(id, account, host);
      if ok {
        ReadRegistered(registered, NEW_ACCOUNT, dir.files[id]);
      }
    }

    method DeleteAccount(id: Uuid) returns (ok: bool)
      requires Valid()
      modifies this`statDict, parsers, host.secrets, host.store, host.events
      ensures Step(ok, World()) == Delete(old(host.Configuration()), old(World()), id)
    {
      var p := FindParserFor(id, true);
      if p.None? {
        return false;
      }
      var act;
      ok, act := ReadStored(p.value, id);
      if !ok {
        return false;
      }
      var actId := act.id;
      ok := RemoveAssets(act);
      if !ok {
        return false;
      }
      ok := RemoveFileAndAnnounce(p.value, id, actId);
    }

    /** An account object for a plugin, with nothing but a title and the service. */
    method NewDefaultAccount(title: string) returns (ok: bool, account: AccountObject)
      requires Valid()
      ensures fresh(account) && fresh(account.services.Values) && account.Valid(host.plugins.plugins)
      ensures ok == (title in host.plugins.plugins)
      ensures ok ==> account.Value() == DefaultAccount(title)
      ensures World() == old(World())
    {
      account := new AccountObject();
      account.title := "Default - " + title;
      account.active := true;
      ok := account.AddService(ServiceNode(title, []), host);
    }

    method AlreadyInitiated(listed: seq<Account>, title: string) returns (initiated: bool)
      ensures initiated == (CountService(listed, title) > 0)
    {
      initiated := false;
      for i := 0 to |listed|
        invariant initiated == (CountService(listed[..i], title) > 0)
      {
        assert listed[..i + 1][..i] == listed[..i];
        if title in listed[i].services {
          initiated := true;
        }
      }
      assert listed[..|listed|] == listed;
    }

    method AutoInitPlugin(title: string, plugin: Plugin, listed: seq<Account>, newId: Uuid)
      requires Valid() && title in host.plugins.plugins && plugin == host.plugins.plugins[title]
      modifies this`statDict, parsers, host.secrets, host.store, host.events
      ensures World() == AutoInitOne(old(host.Configuration()), old(World()), listed, title, newId)
    {
      if plugin.autoInit {
        var initiated := AlreadyInitiated(listed, title);
        if !initiated {
          var ok, account := NewDefaultAccount(title);
          if ok {
            ok := CreateAccount(account, newId);
          }
        }
      }
    }

    method AutoInitInOrder(titles: seq<string>, listed: seq<Account>, ids: seq<Uuid>)
      requires Valid() && |titles| == |ids|
      requires forall t | t in titles :: t in host.plugins.plugins
      modifies this`statDict, parsers, host.secrets, host.store, host.events
      ensures World() == AutoInitUpTo(old(host.Configuration()), old(World()), listed, titles, ids)
    {
      ghost var cfg, w := host.Configuration(), World();
      var plugins := host.plugins.plugins;
      for i := 0 to |titles|
        invariant World() == AutoInitUpTo(cfg, w, listed, titles[..i], ids[..i])
      {
        assert titles[..i + 1][..i] == titles[..i] && ids[..i + 1][..i] == ids[..i];
        AutoInitPlugin(titles[i], plugins[titles[i]], listed, ids[i]);
      }
      assert titles[..|titles|] == titles && ids[..|titles|] == ids;
    }

    /** The ids are those the uuid generator answers with, one per plugin. */
    method CreateAutoInitializingAccounts(ids: seq<Uuid>)
      requires Valid() && |ids| == |Sorted(host.plugins.plugins.Keys)|
      modifies this`statDict, parsers, host.secrets, host.store, host.events
      ensures World() == AutoInit(old(host.Configuration()), old(World()), ids)
    {
      ghost var cfg, w := host.Configuration(), World();
      var listed := ListAccounts([], []);
      FilteredByNothing(ListAll(cfg, w.dirs));
      assert World() == w;
      var titles := KeysOf(host.plugins.plugins.Keys);
      AutoInitInOrder(titles, listed, ids);
    }
  }

  lemma {:induction false} FilteredByNothing(accounts: seq<Account>)
    ensures Filtered(accounts, [], []) == accounts
  {
    if accounts != [] {
      FilteredByNothing(accounts[..|accounts| - 1]);
    }
  }
}
