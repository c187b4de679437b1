/** The world around the account manager: its singletons, and the values they hold. */
module Environment {
  import opened Base
  import opened Secrets
  import opened Plugins
  import opened Accounts
  import opened Services

  datatype Status = NONE | ONLINE | OFFLINE | ERROR

  /** What the service announces. */
  datatype Event =
    | Created(id: Uuid)
    | Modified(id: Uuid)
    | Deleted(id: Uuid)
    | StatusChanged(id: Uuid, was: Status, now: Status)

  type ProviderTable = map<string, map<string, StrMap>>

  /** Everything that stays fixed while the service runs. */
  datatype Config = Config(
    plugins: map<string, Plugin>,
    providers: ProviderTable,
    dual: DualPassword,
    dirOrder: set<Uuid> -> seq<Uuid>)

  function PluginAt(plugins: map<string, Plugin>, name: string): Option<Plugin> {
    if name in plugins then Some(plugins[name]) else None
  }

  /** A directory of account files. */
  datatype Dir = Dir(readOnly: bool, files: map<Uuid, Document>)

  /** Listing a directory names each of its files once. */
  ghost predicate Listable(dirOrder: set<Uuid> -> seq<Uuid>) {
    forall s :: Enumerates(dirOrder(s), s)
  }

  /** Everything an operation can change. */
  datatype World = World(
    dirs: seq<Dir>,
    items: seq<SecretItem>,
    vault: Vault,
    status: map<Uuid, Status>,
    log: seq<Event>)

  class EventManager {
    var log: seq<Event>

    constructor ()
      ensures log == []
    {
      log := [];
    }

    method Emit(event: Event)
      modifies this
      ensures log == old(log) + [event]
    {
      log := log + [event];
    }
  }

  /** The singletons. */
  class Host {
    const plugins: PluginManager
    const store: PluginStore
    const secrets: SecretManager
    const events: EventManager
    const providers: ProviderTable
    /** The order in which a directory with the given files is listed. */
    const dirOrder: set<Uuid> -> seq<Uuid>

    constructor (plugins: PluginManager, store: PluginStore, secrets: SecretManager, events: EventManager,
                 providers: ProviderTable, dirOrder: set<Uuid> -> seq<Uuid>)
      ensures this.plugins == plugins && this.store == store && this.secrets == secrets && this.events == events
      ensures this.providers == providers && this.dirOrder == dirOrder
    {
      this.plugins, this.store, this.secrets, this.events := plugins, store, secrets, events;
      this.providers, this.dirOrder := providers, dirOrder;
    }

    function Configuration(): Config
      reads plugins
    {
      Config(plugins.plugins, providers, secrets.dualPassword, dirOrder)
    }
  }
}
