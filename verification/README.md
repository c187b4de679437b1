# Verification of the accounts service

This project models the online accounts service and proves what its account life cycle keeps: creating,
modifying, deleting, setting the status of and auto-initialising accounts, over an ordered list of account
directories, a secret store, the plugins' private storage, the in-memory statuses and the announced events.
Each operation is a transaction of several stages with early returns and no rollback. The main results are
about whole runs in which any step may fail at any of its exits.

`dafny verify dfyconfig.toml` checks everything.

## How it is laid out

| files | contents |
|---|---|
| `Base` | strings, maps, and the key order in which a `std::map` is walked |
| `Secrets` | the secret store: client calls, and the remote side as the test simulator defines it |
| `Plugins` | plugins as records of functions, their storage, and the plugin registry |
| `Accounts` | accounts, account documents, printing and reading |
| `Services`, `AccountObjects`, `AccountParsers`, `Environment`, `AccountManagers` | the classes of the service, working in place, each method tied to a function of the state before it |
| `Lifecycle` | the operations as a state machine on values |
| `ServiceLaws`, `TokenLaws`, `ItemLaws`, `AccountLaws` | what verification does to parameters and secrets |
| `Turns`, `VaultLaws`, `Alone` | what it does to plugin storage, entry by entry; removal; when services do not meet |
| `StepLaws`, `Invariants`, `References`, `Garbage`, `Events`, `Overlays`, `Limits` | single operations: closed forms, and the invariants each of them keeps |
| `Undo`, `Frames`, `Foretold`, `AutoInits`, `Listings`, `Witnesses` | undoing, when operations succeed and what failures leave, what can be told beforehand, auto-initialisation, listing, counterexamples |
| `Runs`, `Safety` | runs of operations, and what holds after every one of them |
| `Rpc`, `Paths` | the message conversions and the path helpers |

The classes and the state machine meet in the `ensures` clauses of the methods: `CreateAccount`, for
instance, ends in exactly the state, result and account object that `Lifecycle.Create` gives. What the
service promises is then proved about the state machine.

## Where the code decides

* Modify never checks the instance limits. The limit is therefore proved for runs whose modifications add
  the service to no account (`Safety.InstancesLimited`), with the exact condition for one modification
  (`Limits.ModifyWithinLimitIff`) and an input that passes the limit (`Witnesses.LimitPassed`).
* Modify reads the old account with its references already replaced, so the plugin entry of the old version
  is never removed. `Garbage.ModifyGarbageIff` says exactly when an entry is left that no file refers to,
  and `Witnesses.ModifyLeavesGarbage` is an input. References never dangle because of it.
* A modify whose verification fails removes secrets that were saved before (`Frames.FailedModify`,
  `Witnesses.ModifyDropsSecret`), and a create that fails can leave plugin entries behind
  (`Frames.FailedCreateStorage`, `Witnesses.CreateLeavesEntry`); both effects are stated exactly.
* Attributes of a token are written over the service and the account id of its item
  (`TokenLaws.ItemsOwnedIff`, `Witnesses.TokenSendsElsewhere`).
* A caller can hand in a PLUGIN_ID. If the plugin does not store the service this time, because it has no
  write or its write throws, and gives the parameter back unprotected, it goes to the file as it is.
  `References.CreateKeepsRefsIff` and `Safety.NoDanglingReferencesIff` have the exact condition and
  `Witnesses.CarriedReference` an input.
* A plugin's removal that throws, or is missing, counts as done although the entry stays
  (`Undo.CreateThenDelete` and `Garbage.DeleteGarbageIff` say what becomes of plugin storage,
  `Witnesses.RemovalLeavesEntry` is an input).
* A delete asks the plugins one by one to remove their entries and stops at the first that answers no; the
  file stays, with references to what other plugins have let go by then. `References.DeleteKeepsRefsIff`
  and `References.FailedDelete` say exactly when that happens and what is gone, `Witnesses.HalfRemoved` is an
  input, and `References.StuckForGood` shows that such an account can then never be deleted.
* The delete loop of the secret simulator moves on only when it erases. `DeleteSecret` is the loop that
  erases or advances; `Secrets.EraseOnlyTerminates` says when the loop as written
  ends, and `Witnesses.EraseOnlyForEver` is a store for which it does not.
* A path without a slash is its own base directory, so `mkpath` may call itself for ever:
  `Paths.RecursionEndsIff` says for which paths it ends, and `Paths.RecursionForEver` is one for which it
  does not. For a path with a slash at the end it makes the directory and reports a failure
  (`Paths.TrailingSlash`).
* The repository's README calls the parameters of the status event `from` and `to`; the code sends `old` and
  `new`. The model's event carries both values.

## Assumptions

Except for the last, they are predicates, named in the `requires` of the lemmas that need them.

* `CleanPlugins`: among the tokens of an authentication, the last one of each item has no `account_id`
  attribute, and no `service` attribute but the plugin's own title.
* `FreshWrites`: a plugin's write answers with an id that is not in use. `ReadsBack`: its read of a live id
  gives what was written. `NeverRefuses`: its removal of a live id does not answer no. `RefusesTwice`: its
  removal of an id that it has let go answers no.
* `ReferenceReserved` and `Careful`: plugins that are given no PLUGIN_ID answer without one, providers have
  none, and callers bring none. Only `Safety.CarefulIsHarmless` asks for them, and for `NeverRefuses`.
* `RefsSound`, `RefsLive`, `NoGarbage`, `NoOrphans` and `Replays` are invariants; lemmas that keep them assume
  them of the state before.
* `Fresh`: a generated account id occurs in no store. `Unused`: no account file has it and no status is kept
  for it, which is enough where secrets do not matter.
* `WellKept`: every stored file has an account section, and one that has an id has that of its file name;
  none is named after the nil id. `UserFirst`: read-only directories come last, as `OpenedUserFirst` shows
  of the order they are opened in. `UniqueIds` where the directories are to act as one map.
* `Listable`: listing a directory names each of its files once, in an order that depends only on the files.
* Built into the model: the secret service answers, and files can be written and removed; only a removal that
  reports success takes a plugin's entry away, and a write or a removal that throws leaves the plugin's
  storage as it was; a plugin gives the same answer to the same question.

## Model

| member | source | states |
|---|---|---|
| `Safety.NoOrphanSecrets` | src/Accounts/AccountManager.cpp:65-160 | After every run of create, modify, delete, set status and auto-init, whichever steps fail and at whichever exit, each secret with an account id and a service belongs to an account whose selected file lists that service. Assumes that no token overrides the id or the service. |
| `Safety.LogTellsStatus` | src/Accounts/AccountManager.cpp:227-254 | After every run, folding the log (create and delete reset a status, a status change moves it) gives the status `getStatus` reports for every id; every announced change starts from the value replayed at that point and is a change; the log only grows. |
| `Safety.NoDanglingReferencesIff` | src/Accounts/AccountManager.cpp:65-160 | Along every run, turns of auto-init included, each PLUGIN_ID in a file of the writable directories (or of all directories) names a live entry of its service's plugin and no two files share one, iff no step does harm: none writes a file with a PLUGIN_ID that the plugin has not stored itself and that is not live or is used by another file, and no delete is refused by one plugin after another has let an entry go. Plugins answer writes with fresh ids; nothing else is asked of them. |
| `Safety.NoDanglingReferences` | src/Accounts/AccountManager.cpp:65-160 | So references are live and unshared after every run of harmless steps. |
| `Safety.CarefulIsHarmless` | src/Accounts/AccountManager.cpp:65-160 | If plugins, providers and callers keep PLUGIN_ID out of the parameters and plugins do not refuse to remove live entries, no run does harm. |
| `Safety.IdsStayUnique` | src/Accounts/AccountManager.cpp:65-160 | No run gives an id a second file, so the list of directories remains one map. |
| `Safety.ReadOnlyUntouched` | src/Accounts/AccountManager.cpp:256-267 | No run changes a read-only directory; no assumption on the directories' order or files. |
| `Safety.OrderKept` | src/Accounts/AccountManager.cpp:29-44 | Every run keeps the files named after their accounts and the writable directories in front. |
| `Safety.InstancesLimited` | src/Accounts/AccountManager.cpp:299-322 | For every plugin with a limit, the number of listed accounts with its service never exceeds the larger of the limit and the initial number, over runs whose modifications add the service to no account. |
| `Safety.OpenedUserFirst` | src/Accounts/AccountManager.cpp:29-44 | The directories are the user's and then the read-only ones, each in the given order and with its files; the first user directory is the one new accounts go to, and without a user directory there is none. |
| `Runs.AsBasic` | src/Accounts/AccountManager.cpp:269-297 | Every run ends in the same state as a run of creates, modifies, deletes and status changes only: an auto-init is a sequence of creates. |
| `StepLaws.CreateOutcome` | src/Accounts/AccountManager.cpp:65-91 | Both outcomes of create in closed form: success adds one printed file, the verified secrets and entries, a NONE status and exactly one create event; failure is either no change at all or a change of secrets and plugin storage only. In each case also what has become of the caller's account. |
| `StepLaws.ModifyOutcome` | src/Accounts/AccountManager.cpp:100-130 | Both outcomes of modify in closed form: success rewrites in place the very file a read of the id selects, also when ids are duplicated, resets the status, cleans up and announces; otherwise nothing changes, or only secrets and plugin storage after a failed verification. In each case also what has become of the caller's account. |
| `StepLaws.DeleteOutcome` | src/Accounts/AccountManager.cpp:138-160 | Both outcomes of delete in closed form: success takes away one file, the account's secrets, its entries and its status; failure changes at most plugin storage, after a refusal. |
| `StepLaws.SameDirectory` | src/Accounts/AccountManager.cpp:100-110 | With user directories first, the directory modify writes to is the one a read selects. |
| `StepLaws.ReadAccountMeaning` | src/Accounts/AccountManager.cpp:203-218 | Reading an id succeeds iff the first directory that has it holds a readable file. It gives that file's scalars and exactly the services listed there: with the listed parameters, if they have no PLUGIN_ID or the plugin's read throws, and otherwise with exactly what the plugin reads for it. |
| `StepLaws.StoreOutcome` | src/Accounts/AccountManager.cpp:84-89 | A saved account is readable again at once, so the status reset that follows it takes effect. |
| `StepLaws.SetStatusOutcome` | src/Accounts/AccountManager.cpp:227-240 | Setting a status succeeds iff the account can be read. The status asked for is then the one kept; every other id keeps its own; the log grows by exactly one event, from the old status to the new one, iff they differ. Directories, secrets and plugin storage stay as they are, and a failure changes nothing. |
| `Lifecycle.FindParser` | src/Accounts/AccountManager.cpp:256-267 | The first directory that has the id (or any, for the nil id), writable if asked for; none iff no directory qualifies. |
| `Undo.CreateThenDelete` | src/Accounts/AccountManager.cpp:65-91 | For a successful create with a fresh id and then delete of that id: the delete succeeds iff no plugin refuses an entry the file refers to, and then directories, secret store and statuses are exactly restored, for any mix of services; plugin storage is restored iff, among the entries referred to, the plugins report the removal of exactly the new ones as done. |
| `Undo.NewAreEntries` | src/Accounts/AccountService.cpp:100-104 | Every entry a successful verification has added is one the account's file refers to. |
| `Frames.CreateSucceedsIff` | src/Accounts/AccountManager.cpp:65-91 | A create succeeds iff there is a writable directory, for each service whose plugin has a limit fewer accounts than that list the service, title and provider are in order, and for each service the plugin verifies the given parameters and authenticates its own answer with tokens that can be stored. |
| `Frames.ModifySucceedsIff` | src/Accounts/AccountManager.cpp:100-130 | A modify succeeds iff the account can be read and written, title and provider are in order, and each service, on its own with the saved secrets, verifies. |
| `Frames.FailedCreate` | src/Accounts/AccountManager.cpp:78-82 | A failed create leaves directories, statuses, log and secret store as they were. |
| `Frames.FailedCreateStorage` | src/Accounts/AccountManager.cpp:78-82 | What a failed create leaves in plugin storage, entry by entry: what each plugin would have written for its service alone; nothing iff, for the given parameters, none of the plugins gets past verify and authenticate with tokens that can be stored and then answers its write. |
| `Frames.FailedModify` | src/Accounts/AccountManager.cpp:112-117 | A failed modify leaves directories, statuses and log as they were; if it reached the services, exactly the secrets of the services named in the new account are gone, including those saved before, otherwise none; plugin storage has exactly the entries besides that the plugins wrote for the new version. |
| `Garbage.ModifyGarbageIff` | src/Accounts/AccountManager.cpp:100-130 | From a state in which a file refers to every plugin entry, a successful modify keeps it so iff the new version carries every live reference of the version it replaces; a failed one iff no plugin had stored anything. |
| `Garbage.CreateGarbageIff` | src/Accounts/AccountManager.cpp:65-91 | A successful create always keeps it so; a failed one iff no plugin had stored anything. |
| `Garbage.DeleteGarbageIff` | src/Accounts/AccountManager.cpp:138-160 | A delete keeps it so iff the plugins report the removal of every entry of the account as done. |
| `Garbage.UnchangedIff` | src/Accounts/AccountService.cpp:100-112 | A verification leaves plugin storage unchanged iff no plugin stores anything during it. |
| `Foretold.CreateKeepsRefsTold` | src/Accounts/AccountManager.cpp:65-91 | Whether a create will leave references live and unshared, told from the state, the given parameters and the functions of the plugins, without its outcome. |
| `Foretold.ModifyKeepsRefsTold` | src/Accounts/AccountManager.cpp:100-130 | The same for a modify. |
| `Foretold.CreateGarbageTold` | src/Accounts/AccountManager.cpp:65-91 | Whether a create will leave an entry without a file, told in the same terms. |
| `Foretold.ModifyGarbageTold` | src/Accounts/AccountManager.cpp:100-130 | The same for a modify. |
| `Witnesses.ModifyLeavesGarbage` | src/Accounts/AccountManager.cpp:100-130 | A concrete create, and a modify of that account that leaves an entry without a file. |
| `Witnesses.CreateLeavesEntry` | src/Accounts/AccountManager.cpp:78-82 | A concrete failed create that leaves a plugin entry. |
| `Witnesses.ModifyDropsSecret` | src/Accounts/AccountObject.cpp:47-53 | A concrete create that saves a secret, and a failed modify that drops it. |
| `Witnesses.RemovalLeavesEntry` | src/Accounts/AccountService.cpp:251-262 | A concrete delete that succeeds although the plugin's removal throws, and leaves the entry. |
| `Frames.CreateThenRead` | src/Accounts/AccountManager.cpp:203-218 | A created account reads back with the title, provider, flag and settings given. A service that its plugin stored shows what the plugin reads from the entry it wrote; one that it did not store shows the unprotected parameters of the plugin's answer. |
| `Frames.ModifyThenRead` | src/Accounts/AccountManager.cpp:100-130 | So does a modified account, under the id it had. |
| `Frames.ReferenceShowsEntry` | src/Accounts/AccountService.cpp:234-249 | With plugins that read back what they wrote, a read of an account shows, for a service whose file refers to a live entry, exactly the parameters stored there. |
| `Frames.FileStoresPublic` | src/Accounts/AccountParser.cpp:147-155 | The file of a verified account lists for each service the reference its plugin answered with and nothing else, or, if it answered none, exactly the unprotected parameters of the plugin's answer to what caller and provider gave. |
| `Invariants.CreateKeepsHoused` | src/Accounts/AccountManager.cpp:65-91 | Create, on every exit, leaves no secret without an account that lists its service. |
| `Invariants.ModifyKeepsHoused` | src/Accounts/AccountManager.cpp:100-130 | So does modify: success needs the old-minus-new clean-up, failure the clean-up of the new services. |
| `Invariants.DeleteKeepsHoused` | src/Accounts/AccountManager.cpp:138-160 | So does delete. |
| `Invariants.CreateSecrets` | src/Accounts/AccountObject.cpp:47-53 | A failed create puts the secret store back exactly; a successful one appends secrets of the account's own services. |
| `Invariants.CleanedUpMembers` | src/Accounts/AccountObject.cpp:58-73 | The clean-up keeps exactly the secrets that are of no service dropped by the new version. |
| `Invariants.CleanedUpExact` | src/Accounts/AccountObject.cpp:58-73 | And keeps them in order and in number; without an account id nothing goes. |
| `References.DeleteKeepsRefsIff` | src/Accounts/AccountManager.cpp:138-160 | Delete keeps every stored reference live and unshared iff it does not stop half-way, that is, fail at a plugin that refuses after another plugin has let an entry go. No assumption on plugins. |
| `References.FailedDelete` | src/Accounts/AccountObject.cpp:77-83 | A failed delete takes away exactly the entries let go before the refusal, and so changes nothing iff it did not stop half-way. |
| `References.StuckForGood` | src/Accounts/AccountObject.cpp:77-83 | After a delete that stopped half-way, every further attempt at it fails too, if plugins refuse to remove what they have let go already. |
| `References.WillingPlugins` | src/Accounts/AccountObject.cpp:77-88 | If references are live and no plugin refuses to remove a live entry, no delete stops half-way. |
| `Witnesses.HalfRemoved` | src/Accounts/AccountObject.cpp:77-83 | A concrete account, made by a create, whose delete one plugin refuses after another has let its entry go: a dangling reference, and a delete that never succeeds. |
| `References.CreateKeepsRefsIff` | src/Accounts/AccountManager.cpp:65-91 | Create keeps every stored reference live and unshared iff, where it succeeds, each PLUGIN_ID a service carries without its plugin having stored it names an entry that is live and that no other file refers to. Any plugin whose writes get fresh ids, any caller, any exit. |
| `References.ModifyKeepsRefsIff` | src/Accounts/AccountManager.cpp:100-130 | The same for modify, not counting the file that is replaced. |
| `References.ReferencesSoundIff` | src/Accounts/AccountService.cpp:84-114 | The same for writing any verified account. |
| `References.StoredRef` | src/Accounts/AccountService.cpp:100-112 | The references in a verified account's file are those its plugins wrote and those its services carry. |
| `Witnesses.CarriedReference` | src/Accounts/AccountManager.cpp:65-91 | A concrete create that succeeds and leaves a dangling reference. |
| `Events.SetStatusReplays` | src/Accounts/AccountManager.cpp:227-240 | Setting a status keeps the log telling the statuses; what is kept and announced is `StepLaws.SetStatusOutcome`. |
| `Events.CreateReplays` | src/Accounts/AccountManager.cpp:88-89 | Create keeps the log telling the statuses. |
| `Events.ModifyReplays` | src/Accounts/AccountManager.cpp:122-128 | Modify does, with its reset announced before the modification. |
| `Events.DeleteReplays` | src/Accounts/AccountManager.cpp:157-158 | Delete does. |
| `Overlays.CreateIsInsert` | src/Accounts/AccountManager.cpp:65-91 | On the one map of accounts, create inserts under an absent id or does nothing, and ids stay unique. |
| `Overlays.ModifyIsUpdate` | src/Accounts/AccountManager.cpp:100-130 | Modify updates a present id or does nothing. |
| `Overlays.DeleteIsRemoval` | src/Accounts/AccountManager.cpp:138-160 | Delete removes a present id or does nothing. |
| `Overlays.ReadIsLookup` | src/Accounts/AccountManager.cpp:203-218 | Read succeeds iff the one map has a readable file under the id, and gives the account of that file, each service with the parameters listed there or with what its plugin reads for its PLUGIN_ID. |
| `Overlays.SelectedIsLookup` | src/Accounts/AccountManager.cpp:256-267 | The file the directory scan selects is the one the map holds. |
| `Overlays.CreateReadsOthers` | src/Accounts/AccountManager.cpp:65-91 | Every other id reads the same after a create, on every exit and whatever the account carries, if stored references are live and writes get fresh ids. |
| `Overlays.ModifyReadsOthers` | src/Accounts/AccountManager.cpp:100-130 | The same after a modify. |
| `Overlays.DeleteReadsOthers` | src/Accounts/AccountManager.cpp:138-160 | Every other id reads the same after a delete, on every exit and whatever the plugins answer: deleting one account never breaks another, if references were live and unshared. |
| `Limits.CountAll` | src/Accounts/AccountManager.cpp:299-322 | The loop's count over the unfiltered list is the number of readable files that list the service. |
| `Limits.LimitsAllowIff` | src/Accounts/AccountManager.cpp:299-322 | The limits allow an account iff, for each of its services whose plugin has a limit, strictly fewer readable files than that list the service. |
| `Limits.CreateCount` | src/Accounts/AccountManager.cpp:78-91 | A created account is itself listed and counted, once for each of its services; a failed create changes no count. |
| `Limits.ModifyCount` | src/Accounts/AccountManager.cpp:100-130 | A modified account counts for its new services instead of its old ones. |
| `Limits.DeleteCount` | src/Accounts/AccountManager.cpp:138-160 | A deleted account no longer counts for the services its file listed; a failed delete changes no count. |
| `Limits.ModifyWithinLimitIff` | src/Accounts/AccountManager.cpp:100-130 | Modify checks no limit. Afterwards the count is within it iff there was room for a service that is added, or one that is dropped was at most one too many, or the count was within it and does not change. |
| `Witnesses.LimitPassed` | src/Accounts/AccountManager.cpp:100-130 | A concrete create, and a modify of that account that passes a limit. |
| `Listings.ListAgreesWithRead` | src/Accounts/AccountManager.cpp:169-218 | With unique ids, the ids in the unfiltered list are exactly those that can be read. |
| `Listings.FilteredIsSelection` | src/Accounts/AccountManager.cpp:169-194 | The filtered list is the order-preserving selection, each once, of the accounts wanted: all if there is no filter, otherwise those whose provider is one of the providers or that have one of the services. |
| `Listings.DirectoryListed` | src/Accounts/AccountManager.cpp:169-194 | Directories are listed one after the other, in their order. |
| `Listings.FileListed` | src/Accounts/AccountParser.cpp:80-91 | A file of a directory is listed where its turn comes, once if it can be read and not at all if it cannot. |
| `AutoInits.OneListingSuffices` | src/Accounts/AccountManager.cpp:269-297 | Working from one listing taken before the loop gives the same state as listing again before every plugin, for any plugins. |
| `AutoInits.AutoInitIdempotent` | src/Accounts/AccountManager.cpp:269-297 | A second auto-init changes nothing at all. |
| `AutoInits.SecondRunMakesNone` | src/Accounts/AccountManager.cpp:275-280 | Even if the plugins answer differently by then, a second auto-init makes no account with a service that some account has. |
| `AutoInits.DefaultCreate` | src/Accounts/AccountManager.cpp:280-294 | The first account for a plugin is made iff there is a writable directory, the plugin allows at least one account and its verification accepts an account with a title only; otherwise nothing changes. |
| `AutoInits.TurnWrites` | src/Accounts/AccountManager.cpp:280-294 | A plugin that asks for an account, has none and can have one gets exactly one file, in the first writable directory: title `Default - ` and the plugin's, active, no provider, no settings, and its one service with the reference the plugin answered or the unprotected parameters of its answer to none. For every other plugin nothing changes. |
| `AutoInits.RunCounts` | src/Accounts/AccountManager.cpp:269-297 | After a run the accounts with a service are those there were, and one more exactly for the plugins owed one at the start. |
| `AutoInits.RunSettles` | src/Accounts/AccountManager.cpp:269-297 | After a run every plugin taken in has its account, asks for none, or cannot have one. |
| `TokenLaws.SavingIndependent` | src/Accounts/AccountService.cpp:194-225 | Whether the tokens of an authentication can all be saved depends neither on the account id nor on what is stored. |
| `ServiceLaws.StoredParams` | src/Accounts/AccountService.cpp:33-56 | A key is written iff its last verified parameter is unprotected, and then with that parameter's value. |
| `ServiceLaws.ProtectedStayOut` | src/Accounts/AccountService.cpp:84-161 | After a successful verification what is written is a live PLUGIN_ID alone, or the plugin's own unprotected parameters, which no saved secret has touched. |
| `ServiceLaws.LoadedParams` | src/Accounts/AccountService.cpp:133-151 | The list that goes on to `authenticate`, `write` and the service is the plugin's answer, in order, with its keys and flags. A parameter that is unprotected or has a value is passed on as it is; an empty protected one takes the value in the last saved secret of this account and service with schema dual_password or password, and stays empty if there is none. |
| `ServiceLaws.NothingPassedOn` | src/Accounts/AccountService.cpp:133-151 | For an account without saved secrets the list is the plugin's own. |
| `ServiceLaws.ServiceVerified` | src/Accounts/AccountService.cpp:84-161 | The whole verification of a service: it succeeds iff the plugin verifies the parameters, authenticates its completed answer, and the tokens can be saved; tokens are saved iff it was authenticated; what `write` answers to that list becomes the entry, and the service is then the reference alone; otherwise the service has exactly the completed answer with its flags, the last of a key deciding, once the plugin has verified it, and is untouched before. |
| `ServiceLaws.Endings` | src/Accounts/AccountService.cpp:84-114 | All endings of a verification: failure leaves plugin storage alone, success has written a new entry and left only the reference, or has taken over the verified parameters. |
| `TokenLaws.WinnerIsStored` | src/Accounts/AccountService.cpp:198-211 | The last token for a place (item key, secret key) has its secret stored there. |
| `TokenLaws.StoredHasWinner` | src/Accounts/AccountService.cpp:198-211 | Every stored secret is that of the last token for its place. |
| `TokenLaws.TokensConserved` | src/Accounts/AccountService.cpp:194-225 | As many secrets are stored as there are different places among the tokens with a schema. |
| `ItemLaws.ItemForToken` | src/Accounts/AccountService.cpp:198-211 | There is an item for exactly those places the tokens with a schema go to: one per schema for oauth2 and dual_password, one per caption otherwise. |
| `ItemLaws.LabelOfCloser` | src/Accounts/AccountService.cpp:209-211 | The caption names title, service and the schema of the item's last token; that token's schema is the item's, and service and account id are those asked for unless that token says otherwise. |
| `ItemLaws.AttributeGiven` | src/Secret/SecretManager.cpp:13-26 | Any other attribute is there iff one of the item's tokens has it, with the value of the last such token. |
| `ItemLaws.TokensSaved` | src/Accounts/AccountService.cpp:216-224 | The items go to the end of the store in key order, exactly those before the first that is refused; saving succeeds iff none is. |
| `TokenLaws.ItemsOwnedIff` | src/Secret/SecretManager.cpp:13-26 | Token attributes are written over service and account id; all items carry the right ones iff the last token of each item leaves both as they are. |
| `Witnesses.TokenSendsElsewhere` | src/Secret/SecretManager.cpp:13-26 | A concrete token whose item the store accepts and another service owns. |
| `TokenLaws.TokensAppend` | src/Accounts/AccountService.cpp:216-224 | If the last token of each item keeps to account and service, saving only appends items of that account and service, also when an item is refused half-way. |
| `AccountLaws.VerifiedSecrets` | src/Accounts/AccountObject.cpp:17-56 | The secret store after a verification: grown by items of the account's services on success; without exactly the secrets of those services on a failure that reached them; untouched otherwise. |
| `AccountLaws.VerifiedWithoutId` | src/Accounts/AccountService.cpp:227-230 | Without an account id nothing can be taken back: the secrets saved stay, also after a failure. |
| `AccountLaws.VerifiedAccount` | src/Accounts/AccountObject.cpp:17-56 | A verification changes only the services' contents, and one that succeeds has a plugin for every service. |
| `Turns.Ends` | src/Accounts/AccountObject.cpp:33-46 | Each service ends as it would alone with the secret store of its turn; the account verifies iff all do. No assumptions. |
| `Turns.Contents` | src/Accounts/AccountObject.cpp:33-46 | Plugin storage after the loop, entry by entry: what it held, overwritten by what each plugin wrote in its turn. No assumptions. |
| `VaultLaws.VerifiedEntries` | src/Accounts/AccountObject.cpp:17-56 | The same for the whole verification, succeeding or failing. |
| `VaultLaws.VerifiedGrows` | src/Accounts/AccountObject.cpp:17-56 | With fresh ids a verification never loses or changes an entry. |
| `VaultLaws.VerifiedShown` | src/Accounts/AccountService.cpp:84-114 | What a verified service shows publicly: the reference that was written, or the plugin's answer without its protected parameters. |
| `VaultLaws.ProviderFills` | src/Accounts/AccountObject.cpp:95-119 | Verification is given the account with its provider's parameters; it is refused for exactly the unknown providers. A parameter that the caller gave keeps its value, one that only the provider has for that service takes the provider's, there are no others, and nothing else of the account changes. |
| `Alone.VerifiesIff` | src/Accounts/AccountObject.cpp:17-56 | If tokens keep to their service, an account verifies iff it gets to the services and each would verify as the only one. |
| `Alone.WritesAlone` | src/Accounts/AccountObject.cpp:33-46 | And each plugin writes what it would write for its service alone. |
| `VaultLaws.RemovalExact` | src/Accounts/AccountObject.cpp:77-83 | Removal succeeds or stops at the first refusal, and either way has taken away exactly those entries, among the ones reached by then, whose removal was reported as done. |
| `VaultLaws.NoneRefuses` | src/Accounts/AccountObject.cpp:77-83 | All entries are reached iff no plugin refuses the one it is asked for. |
| `VaultLaws.RemovalSucceeds` | src/Accounts/AccountObject.cpp:77-88 | Live references and plugins that do not refuse are enough for a removal to go through. |
| `Accounts.ReadOfPrint` | src/Accounts/AccountParser.cpp:24-70 | Reading a written account into a new object gives the same id, title, provider, flag and settings, and each service's parameters with exactly the protected keys removed. |
| `Accounts.RoundTripIdempotent` | src/Accounts/AccountParser.cpp:93-178 | Writing what was read back gives the same document again. |
| `Accounts.ReadNew` | src/Accounts/AccountParser.cpp:24-70 | A document reads into a new object iff its scalars are there and every service it lists has a plugin; it then has exactly the services the document lists, merged where listed twice, as unverified services. |
| `Accounts.ReadTakesIn` | src/Accounts/AccountParser.cpp:24-70 | Reading a document into any account: a missing scalar stops it and those before it stay; if none is missing, settings are merged and the services are taken in one by one, and the read succeeds iff all of them can be. |
| `Accounts.StopsAt` | src/Accounts/AccountParser.cpp:45-59 | Taking in services fails at the first one without a plugin: those before it have been taken in, that one is there with the parameters it had, the rest is not looked at. |
| `Accounts.ListingOfPrint` | src/Accounts/AccountParser.cpp:139-160 | A written document lists every service of the account with exactly the unprotected parameters. |
| `Accounts.PrintedIff` | src/Accounts/AccountParser.cpp:139-160 | A parameter is written, with its value, iff its service was not verified or the verification did not mark it as protected. |
| `Accounts.ReadRegistered` | src/Accounts/AccountParser.cpp:45-59 | Every service of an account that was read has a plugin. |
| `AccountParsers.KeptPairsArePairs` | src/Accounts/AccountParser.cpp:148-155 | Skipping protected keys on the way writes the unprotected parameters in key order. |
| `Secrets.WithoutServicesIsRetained` | src/Accounts/AccountObject.cpp:47-53 | Removing service by service keeps, in order, exactly the items of none of the services. |
| `Secrets.RetainedUndoesAppend` | src/Accounts/AccountObject.cpp:47-53 | Items a failed verification appended are taken out again and no others. |
| `Secrets.FoundAfterWithout` | tests/SecretSimulator.cpp:104-170 | After a deletion by some attributes, a search by them finds nothing. |
| `Secrets.WithoutMembers` | tests/SecretSimulator.cpp:146-170 | A deletion keeps exactly the items that do not match. |
| `Secrets.FoundMembers` | tests/SecretSimulator.cpp:104-144 | A search finds exactly the matching items of a known schema. |
| `Secrets.FoundAppend` | tests/SecretSimulator.cpp:104-144 | A search reports in store order: what it finds in a front part of the store, then what it finds in the rest. |
| `Secrets.KnownSchemas` | src/Secret/SecretManager.cpp:237-243 | The three schemas the client keeps. |
| `Secrets.AcceptsIff` | tests/SecretSimulator.cpp:61-102 | The service stores an item iff it has service, username, account_id and schema, and the secrets its schema asks for. |
| `Secrets.EraseOnlyTerminates` | tests/SecretSimulator.cpp:151-166 | The simulator's loop as written, which advances only by erasing, reaches the end of the store iff every stored item matches. |
| `Witnesses.EraseOnlyForEver` | tests/SecretSimulator.cpp:151-166 | A concrete store and query for which the loop as written never ends. |
| `Plugins.RegisteredIsChosen` | src/Plugins/PluginManager.cpp:35-42 | The plugin indexed under a title is the one whose container was read last under its name, and has the greatest name among those with the title. |
| `Plugins.ProvidedIsRegistered` | src/Plugins/PluginManager.cpp:113-130 | Every title some last-read container loads is indexed. |
| `Plugins.PluginManager.Lookup` | src/Plugins/PluginManager.cpp:78-88 | The linear scan by title finds exactly the indexed entry, and nothing iff there is none. |
| `Plugins.PluginManager.constructor` | src/Plugins/PluginManager.cpp:22-43 | Loading any list of paths gives the registry of their containers, keyed by the plugins' own titles. |
| `Base.BeforeIff` | src/Accounts/AccountObject.cpp:33-46 | The key order of the maps that are walked: a key comes before another iff it is a proper prefix of it or has the smaller character where they first differ. |
| `Base.AssignLastWins` | src/Accounts/AccountParser.cpp:45-70 | Taking in pairs one by one: a key is there iff it was or one of the pairs has it, and the last such pair decides. |
| `Rpc.MessageRoundTrip` | src/RPCHandler.cpp:210-266 | Sending any account whose services have plugins, verified or not, and taking it back gives the account with the same parameters in unverified services; for an unverified account that is the identity. |
| `Rpc.NormalFormIdempotent` | src/RPCHandler.cpp:210-266 | Taking in and sending back an accepted message gives a normal form that a further round does not change. |
| `Rpc.AcceptedServices` | src/RPCHandler.cpp:222-233 | Beyond those it had, an account has exactly the services an accepted message names; one named twice takes in the parameters of all places, in order. |
| `Rpc.AcceptedParams` | src/RPCHandler.cpp:228-232 | A parameter is there iff it was before or a pair was sent for it, and has the value of the last such pair. |
| `Rpc.AcceptedIff` | src/RPCHandler.cpp:222-227 | A message is accepted into any account iff every service it names has a plugin. |
| `Rpc.RefusedAt` | src/RPCHandler.cpp:222-227 | A message that is refused has been taken in up to the first service without a plugin. |
| `Rpc.HeaderTaken` | src/RPCHandler.cpp:210-221 | Taking in a message sets title, provider and flag to those sent, the id if one was sent, and each setting to the last one sent for its key; other settings stay. |
| `Rpc.MessageCarries` | src/RPCHandler.cpp:237-266 | A message sent carries id, title, provider and flag of the account, each setting and each service once and in key order, and exactly the parameters of each service, protected ones included. |
| `Paths.FileSystem.MkPath` | src/Accounts/AccountUtils.cpp:171-189 | For any path, absolute or relative, tidy or not, from which the recursion ends: it succeeds iff every missing part ends in a name and is not refused by the system; in any case exactly the parts are made for which all that is missing could be, and every directory keeps its parent. |
| `Paths.AbsoluteIsRooted` | src/Accounts/AccountUtils.cpp:171-180 | From every absolute path the recursion ends. |
| `Paths.WhereStep` | src/Accounts/AccountUtils.cpp:171-189 | What a path names, name by name: empty names and single dots stay, a leading slash starts at the root. |
| `Paths.TrailingSlash` | src/Accounts/AccountUtils.cpp:171-189 | A concrete path with a slash at the end, for which the directory is made but the call fails. |
| `Paths.BaseDirShorterIff` | src/Accounts/AccountUtils.cpp:60-71 | The base directory is strictly shorter iff the path has a slash and is not the root: the measure of the recursion. |
| `Paths.RecursionEndsIff` | src/Accounts/AccountUtils.cpp:171-180 | For any text as the path, the recursion reaches an existing path iff the path or a directory above it exists; otherwise it never ends. |
| `Paths.RecursionForEver` | src/Accounts/AccountUtils.cpp:171-180 | A concrete path from which the recursion never ends. |
| `Paths.ExtractPathStr` | src/Accounts/AccountUtils.cpp:220-230 | The parts contain no colon, joined with colons they are the list, and each is expanded in order. |
| `Paths.SplitUnique` | src/Accounts/AccountUtils.cpp:220-230 | Colon-free parts are determined by their joined text. |
| `AccountManagers.AccountManager.constructor` | src/Accounts/AccountManager.cpp:14-44 | Opens the user directories first and the read-only ones after them, with no status kept. |
| `AccountManagers.AccountManager.CreateAccount` | src/Accounts/AccountManager.cpp:65-91 | The step-by-step create ends in exactly the state, result and account of the create transition. |
| `AccountManagers.AccountManager.ModifyAccount` | src/Accounts/AccountManager.cpp:100-130 | The step-by-step modify, likewise. |
| `AccountManagers.AccountManager.DeleteAccount` | src/Accounts/AccountManager.cpp:138-160 | The step-by-step delete, likewise. |
| `AccountManagers.AccountManager.SetAccountStatus` | src/Accounts/AccountManager.cpp:227-240 | The step-by-step status change, likewise. |
| `AccountManagers.AccountManager.GetAccountStatus` | src/Accounts/AccountManager.cpp:248-254 | The status kept for the id, NONE if there is none. |
| `AccountManagers.AccountManager.ReadNewAccount` | src/Accounts/AccountManager.cpp:203-218 | Reads, in place, the account that `StepLaws.ReadAccountMeaning` describes into an object of its own and changes nothing else. |
| `AccountManagers.AccountManager.FindParserFor` | src/Accounts/AccountManager.cpp:256-267 | The loop over the directories finds the first that has the file, or any for the nil id, and is writable if asked for; none iff there is none. |
| `AccountManagers.AccountManager.ListAccounts` | src/Accounts/AccountManager.cpp:169-194 | The nested loops list the accepted accounts of all directories. |
| `AccountManagers.AccountManager.VerifyAccountCreationLimits` | src/Accounts/AccountManager.cpp:299-322 | The loops accept iff the limits allow the account, as `Limits.LimitsAllowIff` counts it. |
| `AccountManagers.AccountManager.CreateAutoInitializingAccounts` | src/Accounts/AccountManager.cpp:269-297 | The loop over the plugins ends in exactly the state of the auto-init transition. |
| `AccountObjects.AccountObject.Verify` | src/Accounts/AccountObject.cpp:17-56 | Provider defaults, the loop over all services and the clean-up on failure, in place, end in the state of the verification function. |
| `AccountObjects.AccountObject.Cleanup` | src/Accounts/AccountObject.cpp:58-73 | The secrets of exactly the services the new version lacks are removed. |
| `AccountObjects.AccountObject.PerformAccountRemoval` | src/Accounts/AccountObject.cpp:77-88 | Plugin removals in key order up to the first refusal; the account's secrets go only if none refused. |
| `AccountObjects.AccountObject.AppendProviderParams` | src/Accounts/AccountObject.cpp:95-119 | The loops over services and parameters give the account that `VaultLaws.ProviderFills` describes; they fail iff the provider is unknown, changing nothing. |
| `AccountObjects.AccountObject.HasService` | src/Accounts/AccountObject.cpp:121-128 | The scan over the services finds the name iff it is there. |
| `AccountObjects.AccountObject.PerformCustomReads` | src/Accounts/AccountManager.cpp:214-216 | Each service in turn shows what its plugin reads for its reference; `StepLaws.ReadAccountMeaning` says what that is. |
| `Services.AccountService.Init` | src/Accounts/AccountService.cpp:20-26 | Succeeds iff a plugin has the name as its title, and leaves the parameters alone. |
| `Services.AccountService.ApplyVerification` | src/Accounts/AccountService.cpp:33-42 | Takes over the parameters one by one, the last of a key winning. |
| `Services.AccountService.VerifyParams` | src/Accounts/AccountService.cpp:122-161 | The loops over parameters and saved secrets end in the answer of `ServiceLaws.LoadedParams`; the service is changed only if the plugin's answer is positive. |
| `Services.AccountService.GroupTokens` | src/Accounts/AccountService.cpp:198-215 | The loop over the tokens builds the items of the grouping function. |
| `Services.AccountService.SaveProtectedParams` | src/Accounts/AccountService.cpp:194-225 | Items are saved in key order up to the first that is refused. |
| `Services.AccountService.UpdateAttributes` | src/Secret/SecretManager.cpp:13-26 | Service, account id and schema first, then the token's own attributes over them. |
| `Services.AccountService.Verify` | src/Accounts/AccountService.cpp:84-114 | The pipeline ends, on each of its exits, in the state of the verification function: service, secret store and plugin storage. |
| `Services.AccountService.RemoveSecrets` | src/Accounts/AccountService.cpp:227-232 | Refused without an account id; otherwise removes the items of this account and service. |
| `Services.AccountService.PerformCustomRead` | src/Accounts/AccountService.cpp:234-249 | Replaces the parameters by what the plugin reads for the reference; changes nothing if there is no reference or the plugin cannot, and says which. |
| `Services.AccountService.PerformServiceCustomRemoval` | src/Accounts/AccountService.cpp:251-262 | A plugin that throws counts as removed, one that answers no does not. |
| `AccountParsers.AccountParser.Read` | src/Accounts/AccountParser.cpp:24-70 | Merges the file into the given object and keeps what was read up to the first failure. |
| `AccountParsers.AccountParser.Write` | src/Accounts/AccountParser.cpp:93-178 | Refused without an id or on a read-only directory; otherwise the file under the id is the printed account. |
| `AccountParsers.AccountParser.Remove` | src/Accounts/AccountParser.cpp:180-193 | Refused on a read-only directory or without the file; otherwise exactly that file goes. |
| `AccountParsers.AccountParser.List` | src/Accounts/AccountParser.cpp:80-91 | The readable accounts of the directory, in listing order. |
| `AccountParsers.AccountParser.HasAccount` | src/Accounts/AccountParser.cpp:195-205 | The scan over the file names finds the id iff its file exists. |
| `Secrets.SecretManager.SetSecret` | tests/SecretSimulator.cpp:61-102 | Stores the item at the end iff it has the four attributes and the keys of its schema. |
| `Secrets.SecretManager.Search` | tests/SecretSimulator.cpp:104-144 | Reports the matching items of a known schema, in store order. |
| `Secrets.SecretManager.DeleteSecret` | tests/SecretSimulator.cpp:146-170 | The erase-or-advance loop terminates and leaves exactly the items that do not match, in order. |
| `Secrets.SecretManager.GetAccountSecrets` | src/Secret/SecretManager.cpp:307-311 | Searches by account id alone. |
| `Secrets.SecretManager.RemoveService` | src/Secret/SecretManager.cpp:313-319 | Deletes by account id and service. |
| `Secrets.SecretManager.RemoveAccount` | src/Secret/SecretManager.cpp:321-327 | Deletes by account id alone. |
| `Rpc.RpcHandler.AccountFromMessage` | src/RPCHandler.cpp:210-235 | The loops of the conversion into an account: the id only if present, settings and services merged, stopping at the first service without a plugin. |
| `Rpc.RpcHandler.MessageFromAccount` | src/RPCHandler.cpp:237-266 | The loops of the conversion into a message: settings, services and parameters in key order, protected ones included. |

## Left out

* Threads, promises and the RPC transport: requests reach the account manager one at a time, so each operation is one step. Of the RPC handler only the two conversions are modelled.
* YAML text: a document is a tree of pairs, a file that is not YAML is `Unreadable`, a scalar that is missing or of the wrong kind is `None`. Parameter or settings values that are not scalars are not part of this model.
* Parsing and printing of uuids: an id is its canonical lower-case text, and text that is no uuid stands for the nil id, as `uuid_from_string` leaves it. File names that are not the canonical text of an id are not part of this model.
* Sockets, serialisation and failures of the event channel: announcing appends to a log. The `services` text of an event, which joins the names without a separator, is left out.
* Error lists, log messages and the wording of errors.
* The real file system: writing and removing always succeed, and a directory is a map from ids to documents. Files written behind the service's back are not part of this model.
* Plugin code, Python and shared libraries: a plugin is a record of functions, the same answer for the same input; its storage is the part of a `Vault` under its title. A Python answer of the wrong type, which the containers do not catch, is not part of this model.
* Failures of the secret service's transport: `SetSecret` fails exactly when the simulator would refuse the item, and deletions never do.
* The choice between the two values of a dual-password item: `dualPassword` is a function of the item and the parameter, because the code looks up a misspelt key and follows the result.
* `isRequired`, provider file loading, plugin file loading, `package2module`, `mask_string`, command-line handling and build files: they would only add easy members.
* The account pointer kept inside a service: id and title are passed as values, and a copied account therefore never points at the object it was copied from.
* A service object without a plugin where the code would follow a null pointer: limits, custom reads and removals ask for services that have one, which reading and `RPC2ACT` make sure of.
* `is_active` of a new account object is false; the code leaves it unset.
* A directory created by `AccountParser`'s constructor is there already.
- Rpc.RpcHandler.AccountFromMessage: covers a message taken into a valid account object; `add` and `edit` around it are left out, because they only pass its result on.
- Paths.FileSystem.MkPath: asks for a path from which the recursion ends, as it must, because otherwise the code never returns; parts that are `..`, symbolic links and `wordexp` are left out, and a file in the way counts as something the system refuses.
- Paths.ExtractPathStr: expansion of one part is a parameter, because `wordexp` is not part of this model.
- AccountManagers.AccountManager.CreateAutoInitializingAccounts: takes one generated id per plugin as a parameter, of which it uses those of the plugins that need an account.
- Safety.InstancesLimited: excludes runs in which a modification adds the service, because modify checks no limit; `Limits.ModifyWithinLimitIff` has the exact condition.
- Safety.NoDanglingReferences: covers the runs of harmless steps, because the code writes what a plugin hands back and keeps the file when a plugin refuses; `Safety.NoDanglingReferencesIff` shows that along all other runs a reference does dangle or is shared.
- Undo.CreateThenDelete: restored plugin storage depends on what the plugins answer to the removals, because a removal that throws counts as done.
