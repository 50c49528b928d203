# Puppet environment synchronisation, modelled in Dafny

This project models how a Satellite 6 installation's list of Puppet environments is kept
in line with a desired list. The model covers two variants of the reconciliation.

- `PuppetEnvironmentSyncer` (utils/puppet_environment_syncer.rb) does the following:
  - It lists the existing environments.
  - It computes `to_add = desired - current - never_add` and `to_remove = current - desired`
    with Ruby's order-preserving array difference.
  - It aborts with a warning before changing anything if `to_remove` contains a protected
    environment.
  - It creates the names to add.
  - It deletes each name to remove that no host uses. A name that hosts still use is
    recorded with those hosts and reported after the loop.
  - Separately, it can force-delete an environment: every host is first moved to a
    replacement environment.
- The older standalone script (sync_puppet_environments.rb) does the following:
  - It validates its options and picks the desired names from a file or the command line.
  - It keeps `production` out of both the creates and the deletes.
  - It creates the missing names, then deletes the unwanted ones.
  - It stops at the first command that fails.

The external `hammer` tool appears as a fake (module `Hammer`):

- an inventory (environment names and host records);
- a log of every call made to it;
- a fixed set of calls that fail.

A failed call changes nothing and ends the run with `ExternalOperationFailed`. The class
`SatelliteHammerInterface` holds this state in fields, and each of its methods performs one
logged call.

Each looping operation has a specification function that follows the loop from its i-th
iteration:

- `AddRun`, `DeleteRun`, `MigrateRun` and `ForceRun` in `Syncer`;
- `SyncRun` for a whole sync;
- `CreateRun`, `RemoveRun`, `Reconcile` and `ScriptRun` in `Script`.

The methods of `PuppetEnvironmentSyncer`, and `Script.SyncScript`, are proved to leave the
tool, the warnings and the result that these functions give. The lemmas in
`SyncerProperties`, `SyncProperties` and `ScriptProperties` then state what the runs
guarantee:

- which calls are made, in what order, and what is never called;
- that a run stops at its first failure;
- the inventory left behind, and the refusal record.

The predicate `Follows` ties each final inventory to an independent reference semantics:
`Effect` folds the issued calls over the initial inventory.

Files:

- `wrappers.dfy`: `Option` and `Result`.
- `names.dfy`: `SeqMinus`, which is Ruby's `Array#-`.
- `hammer.dfy`: the fake tool.
- `syncer.dfy`: the syncer class and its run functions.
- `syncer_props.dfy`: properties of each syncer operation.
- `sync_props.dfy`: properties of a whole sync.
- `script.dfy`: the script.
- `script_props.dfy`: properties of the script.

## Model

| member | source | states |
|---|---|---|
| Names.SeqMinus | utils/puppet_environment_syncer.rb:26-27 | `a - b` holds exactly the elements of `a` that are not in `b`, and is never longer than `a` |
| Names.SeqMinusCount | utils/puppet_environment_syncer.rb:26-27 | every element that survives `a - b` keeps all of its occurrences; every element of `b` has none |
| Names.SeqMinusTwice | utils/puppet_environment_syncer.rb:26 | `(a - b) - c` equals `a - (b + c)` |
| Names.SeqMinusAppend | utils/puppet_environment_syncer.rb:27 | array difference distributes over concatenation |
| Names.SeqMinusKeepsAll | sync_puppet_environments.rb:102 | subtracting names that do not occur in `a` leaves `a` unchanged |
| Names.SeqMinusEmpty | utils/puppet_environment_syncer.rb:30-31 | `a - b` is empty exactly when every element of `a` is in `b` |
| Hammer.HostsIn | lib/satellite_hammer_interface.rb:48-58 | a host is listed for `environment = env` exactly when it is assigned to `env` |
| Hammer.SatelliteHammerInterface.PuppetEnvironmentList | lib/satellite_hammer_interface.rb:31-40 | logs one listing; returns the environment names, or raises when the listing fails |
| Hammer.SatelliteHammerInterface.PuppetEnvironmentCreate | lib/satellite_hammer_interface.rb:17-23 | logs one create; unless it fails, the name is appended to the inventory; a failure raises |
| Hammer.SatelliteHammerInterface.PuppetEnvironmentDelete | lib/satellite_hammer_interface.rb:25-29 | logs one delete; unless it fails, the name is removed from the inventory; a failure raises |
| Hammer.SatelliteHammerInterface.HostList | lib/satellite_hammer_interface.rb:48-58 | logs one host search; returns the hosts of the environment, or raises |
| Hammer.SatelliteHammerInterface.HostUpdatePuppetEnvironment | lib/satellite_hammer_interface.rb:42-46 | logs one host update; unless it fails, the host is moved to the environment; a failure raises |
| SyncerProperties.ReassignMoves | lib/satellite_hammer_interface.rb:42-46 | after a host update the list keeps its length; every record of that host is on the new environment; every record of another host is kept and no other record appears |
| Syncer.ToAdd | utils/puppet_environment_syncer.rb:26 | `to_add` holds exactly the desired names that neither exist nor are never-add names, in desired order |
| Syncer.ToRemove | utils/puppet_environment_syncer.rb:27 | `to_remove` holds exactly the existing names that are not desired |
| Syncer.AnyProtected | utils/puppet_environment_syncer.rb:35 | true exactly when some name to remove is protected |
| Syncer.Put | utils/puppet_environment_syncer.rb:55 | hash assignment: the key maps to the new hosts and every other key keeps its entry; a new key is appended last, an existing key keeps its place and the record its length; keys stay unique |
| Syncer.PuppetEnvironmentSyncer.constructor | utils/puppet_environment_syncer.rb:9-16 | the protected and never-add lists default to `production` and `gh-pages`; no warning has been issued yet |
| Syncer.PuppetEnvironmentSyncer.SyncPuppetEnvironments | utils/puppet_environment_syncer.rb:24-32 | the tool state, the new warnings and the result are those of `SyncRun` (list, diff, guard, add unless empty, delete unless empty) |
| Syncer.PuppetEnvironmentSyncer.ProtectPuppetEnvironments | utils/puppet_environment_syncer.rb:34-41 | raises exactly when a name to remove is protected, and then warns once, naming the protected list; otherwise warns of nothing |
| Syncer.PuppetEnvironmentSyncer.AddPuppetEnvironments | utils/puppet_environment_syncer.rb:43-48 | the tool state and the result are those of `AddRun` from the first name |
| Syncer.PuppetEnvironmentSyncer.DeletePuppetEnvironments | utils/puppet_environment_syncer.rb:50-62 | the tool state and the result are those of `DeleteRun`; warnings are added only after the whole loop, one per refusal |
| Syncer.PuppetEnvironmentSyncer.DeleteOrRefuse | utils/puppet_environment_syncer.rb:53-58 | one loop iteration equals `DeleteStep`: list the hosts, then either record a refusal or delete |
| Syncer.PuppetEnvironmentSyncer.HandleDeleteRefusals | utils/puppet_environment_syncer.rb:64-69 | adds one warning per record entry, in record order, each naming the environment and its hosts |
| Syncer.PuppetEnvironmentSyncer.ForceDeletePuppetEnvironment | utils/puppet_environment_syncer.rb:71-80 | the tool state and the result are those of `ForceRun` (list hosts, move each host, delete the source) |
| SyncerProperties.AddRunFollows | utils/puppet_environment_syncer.rb:43-48 | the inventory after adding is what the issued creates made of it |
| SyncerProperties.AddRunFacts | utils/puppet_environment_syncer.rb:43-48 | creates are issued in order and the run stops at the first failing one; it succeeds exactly when no create fails, and then all names are appended; hosts are untouched |
| SyncerProperties.DeleteStepFacts | utils/puppet_environment_syncer.rb:52-59 | one iteration lists the hosts, then deletes the name only when no host uses it; it stops at a failing call and leaves hosts untouched |
| SyncerProperties.DeleteStepRecord | utils/puppet_environment_syncer.rb:53-55 | a successful iteration records a used name with exactly its hosts, and leaves the record alone for an unused name |
| SyncerProperties.DeleteStepInventory | utils/puppet_environment_syncer.rb:53-58 | a successful iteration removes the name from the inventory exactly when no host uses it |
| SyncerProperties.DeleteRunFollows | utils/puppet_environment_syncer.rb:50-59 | the inventory after the remover is what its calls made of it |
| SyncerProperties.DeleteRunCalls | utils/puppet_environment_syncer.rb:50-59 | the remover stops at its first failed call, fails only through a failed call, and leaves hosts untouched |
| SyncerProperties.DeleteRunIssues | utils/puppet_environment_syncer.rb:52-58 | the remover lists hosts only for its names, and deletes only those of its names that no host uses |
| SyncerProperties.Unused | utils/puppet_environment_syncer.rb:52-58 | the names the remover may delete are exactly its names that no host uses |
| SyncerProperties.UnusedCount | utils/puppet_environment_syncer.rb:52-58 | an unused name keeps every one of its occurrences; a used name has none |
| SyncerProperties.DeleteRunOrder | utils/puppet_environment_syncer.rb:52-59 | on success the hosts of every name are listed in order, and exactly the unused names are deleted in order; a refusal does not stop later names |
| SyncerProperties.DeleteRunInventory | utils/puppet_environment_syncer.rb:52-59 | on success exactly the unused names are gone from the inventory |
| SyncerProperties.DeleteRunUnique | utils/puppet_environment_syncer.rb:51-55 | on success the record still has each key at most once |
| SyncerProperties.DeleteRunLookup | utils/puppet_environment_syncer.rb:51-55 | on success each refused name maps to exactly its host list |
| SyncerProperties.RefusalWarningsExact | utils/puppet_environment_syncer.rb:64-69 | for a record with distinct keys, there is a warning for an environment and host list exactly when the record maps that environment to those hosts; there is one warning per key |
| SyncerProperties.LookupIn | utils/puppet_environment_syncer.rb:55 | with distinct keys, an entry is in the record exactly when looking up its environment finds its hosts |
| SyncerProperties.KeysLookup | utils/puppet_environment_syncer.rb:55 | a name is a key of the record exactly when looking it up finds an entry |
| SyncerProperties.UniqueKeysCount | utils/puppet_environment_syncer.rb:55 | a record with unique keys has one entry per key |
| SyncerProperties.MigrateRunFollows | utils/puppet_environment_syncer.rb:74-79 | the inventory after migrating is what the issued calls made of it |
| SyncerProperties.MigrateRunFacts | utils/puppet_environment_syncer.rb:74-79 | one update per host in list order, then one delete; the run stops at the first failure, and on success has issued all of them |
| SyncerProperties.MigrateRunDeletesLast | utils/puppet_environment_syncer.rb:74-79 | the delete is issued only as the last call, after every update succeeded |
| SyncerProperties.MigrateRunInventory | utils/puppet_environment_syncer.rb:79 | on success the source environment is gone and nothing else is |
| SyncerProperties.MigrateRunEmptiesSource | utils/puppet_environment_syncer.rb:74-77 | when the replacement is another environment, on success no host is left on the source environment |
| SyncerProperties.ForceRunFacts | utils/puppet_environment_syncer.rb:71-80 | the whole forced deletion: list, one update per host of the source, then one delete after all of them; a failing update prevents the delete; on success the source is gone and, when the replacement is another environment, no host uses it |
| SyncerProperties.MigrateRunKeepsSourceHosts | utils/puppet_environment_syncer.rb:74-77 | migrating hosts onto the source itself moves no host off the source |
| SyncerProperties.ForceRunOntoItself | utils/puppet_environment_syncer.rb:71-80 | forced onto itself, a successful run deletes the source while every host that used it still does |
| SyncProperties.AddPhaseFacts | utils/puppet_environment_syncer.rb:30 | the add phase creates only names to add, stops at its first failure, and on success has appended them |
| SyncProperties.DeletePhaseCalls | utils/puppet_environment_syncer.rb:31 | the delete phase lists hosts and deletes only names to remove, and deletes only those no host uses |
| SyncProperties.DeletePhaseInventory | utils/puppet_environment_syncer.rb:31 | on success the delete phase removes exactly the names to remove that no host uses |
| SyncProperties.DeletePhaseResult | utils/puppet_environment_syncer.rb:31 | on success the record holds each name to remove that hosts still use, once, with exactly its hosts, and nothing else |
| SyncProperties.SyncRunFollows | utils/puppet_environment_syncer.rb:24-32 | a sync lists first and stops at its first failed call; a failed listing ends it at once |
| SyncProperties.SyncRunSameNames | utils/puppet_environment_syncer.rb:26-31 | when desired and existing names agree, the only call is the listing, nothing changes, and nothing is warned |
| SyncProperties.SyncRunGuard | utils/puppet_environment_syncer.rb:29-40 | when the listing succeeds, the protection error arises exactly when an existing, undesired name is protected; nothing is then created or deleted, even with names to add |
| SyncProperties.SyncRunCalls | utils/puppet_environment_syncer.rb:26-58 | never creates a never-add name or an existing one; never deletes a desired, protected or still-used environment |
| SyncProperties.SyncRunOrder | utils/puppet_environment_syncer.rb:30-31 | no create follows a delete |
| SyncProperties.SyncRunInventory | utils/puppet_environment_syncer.rb:24-59 | on success the inventory holds exactly the desired names that existed or are not never-add names, plus the undesired ones that hosts still use |
| SyncProperties.SyncRunRefusals | utils/puppet_environment_syncer.rb:50-62 | on success the returned record maps exactly the undesired, still-used names to their hosts |
| SyncProperties.SyncRunWarnings | utils/puppet_environment_syncer.rb:61-69 | on success there is exactly one warning per refused environment, naming its hosts |
| Script.ValidateOptions | sync_puppet_environments.rb:31-37 | passes exactly when one of file and environments is given; raises "no input" when neither is given and "conflict" when both are |
| Script.SelectDesired | sync_puppet_environments.rb:43-52 | the desired names are the file's contents when a file is given, else the listed names; a missing file raises |
| Script.AdjustDesired | sync_puppet_environments.rb:79-82 | `production` is dropped, every occurrence, when it does not exist yet; other names are kept |
| Script.SyncScript | sync_puppet_environments.rb:40-111 | the tool state, the warnings and the result are those of `ScriptRun` (validate, select, list, adjust, create loop, delete loop) |
| ScriptProperties.CreateRunFollows | sync_puppet_environments.rb:85-99 | the inventory after the create loop is what its creates made of it |
| ScriptProperties.CreateRunFacts | sync_puppet_environments.rb:85-99 | creates exactly `desired - current`, in order and with repetitions, and stops at the first failure; success exactly when none fails |
| ScriptProperties.CreateRunInventory | sync_puppet_environments.rb:85-99 | on success the names of `desired - current` are appended to the inventory, and hosts are untouched |
| ScriptProperties.RemoveRunFollows | sync_puppet_environments.rb:102-111 | the inventory after the delete loop is what its deletes made of it |
| ScriptProperties.RemoveRunFacts | sync_puppet_environments.rb:102-111 | deletes every candidate except `production`, in order, and stops at the first failure; success exactly when none fails |
| ScriptProperties.RemoveRunInventory | sync_puppet_environments.rb:102-111 | on success exactly the candidates other than `production` are gone |
| ScriptProperties.RemoveRunNotices | sync_puppet_environments.rb:103-106 | the loop only adds "production not removed" warnings, and on success adds a "not removed" notice exactly when `production` was a candidate |
| ScriptProperties.ReconcilePlan | sync_puppet_environments.rb:79-111 | after the listing the script follows its plan (creates, then deletes) up to the first failure, which is then its error |
| ScriptProperties.ReconcileSucceeds | sync_puppet_environments.rb:79-111 | after the listing the script succeeds exactly when no planned command fails, and then has issued exactly the plan |
| ScriptProperties.ReconcileFollows | sync_puppet_environments.rb:79-111 | the inventory after the script's work is what its commands made of it |
| ScriptProperties.ScriptPlan | sync_puppet_environments.rb:62-111 | a run on valid input is a prefix of listing, creates and deletes, and stops at its first failed command |
| ScriptProperties.ScriptSucceeds | sync_puppet_environments.rb:62-111 | a run on valid input succeeds exactly when no planned command fails, and then issues exactly the plan |
| ScriptProperties.ScriptFollows | sync_puppet_environments.rb:40-111 | the inventory after any run is what its commands made of it |
| ScriptProperties.ScriptBadInput | sync_puppet_environments.rb:31-52 | bad input issues no command; each input error arises exactly in its own case; "no environments specified" can never arise |
| ScriptProperties.ScriptCalls | sync_puppet_environments.rb:84-111 | creates only desired names that do not exist; deletes only existing undesired names; never touches `production` |
| ScriptProperties.ScriptKeepsProduction | sync_puppet_environments.rb:78-106 | whatever the input, `production` is never created and never deleted |
| ScriptProperties.ScriptOrder | sync_puppet_environments.rb:84-111 | no create follows a delete |
| ScriptProperties.ScriptCreatesEachOccurrence | sync_puppet_environments.rb:85-86 | on success a missing name other than `production` is created once per occurrence in the desired list, so a name listed twice is created twice |
| ScriptProperties.ScriptSameNames | sync_puppet_environments.rb:86-103 | when desired and existing names agree, the listing is the only command, nothing changes, and nothing is warned |
| ScriptProperties.ScriptInventory | sync_puppet_environments.rb:79-111 | on success the inventory holds every desired name other than `production`, holds `production` exactly when it did before, and nothing else |
| ScriptProperties.ScriptNotices | sync_puppet_environments.rb:79-106 | on success it warns "not added" exactly when `production` is desired but absent, and "not removed" exactly when it is present but not desired |

## Left out

- Location and organization ids are left out, and the fake tool holds a single inventory.
  Only some calls carry the ids:
  - In the syncer, the listing, the creates and the host searches pass them
    (utils/puppet_environment_syncer.rb:25, 46, 53-54, 72-73). The deletes and the host
    updates pass none (:58, :76, :79).
  - The syncer passes them as keywords, but lib/satellite_hammer_interface.rb:17, 31, 48
    take positional parameters. The model abstracts over this mismatch.
  - In the script, the listing passes `--organization-id` and `--location-id`
    (sync_puppet_environments.rb:59-60). The create passes `--organization-ids` and
    `--location-ids` (:93-94). The delete passes none (:108).
  - The single inventory therefore assumes that the listing, which is scoped by
    organization and location, sees every environment that the unscoped delete and
    host update can reach.
- Not modelled: hammer command strings, `Open3` subprocesses and YAML parsing of tool
  output. Each call is one logged `Call` on the fake tool.
- Failure is modelled as a fixed set of failing calls. A failure therefore cannot depend on
  the inventory. For example, the model does not make the real tool refuse to create a name
  that already exists.
- Only the fact of each warning is modelled, as a `Warning` or `Notice` value. Its text is
  not: `::warning::` formatting, ERB newline encoding, verbose progress output, exception
  messages and the script's other `puts` output are all left out.
- A raised exception is an `Err` result that ends the run.
- `sync_puppet_environments` returns the refusal hash, or nothing when no name was refused
  or nothing was removed. The model returns `Ok(record)`, with an empty record standing for
  nothing.
- The syncer creates its own tool object. The model passes it to the constructor instead.
- The script's option parsing, its default ids and the YAML file loading are left out.
  - Whether the named file exists, and the list it holds, are parameters of
    `Script.SelectDesired`.
  - The script runs its hammer commands directly. The model routes them through the same
    fake tool as the syncer.
- `Hammer.HostsIn`: the host search `environment = NAME` is modelled as exact equality of
  environment names. Foreman's search-language semantics are not modelled.
- bin/sync_environments.rb and bin/force_delete_environment.rb are not part of this model.
  They only parse options.
- Behaviour of the syncer's code that the model keeps as written:
  - Never-add names are silently dropped from `to_add` by array difference; they are not
    rejected (utils/puppet_environment_syncer.rb:26).
  - The protection error carries no names, and its warning names the whole protected list,
    not only the offending names (utils/puppet_environment_syncer.rb:37-40).
  - Names are kept in ordered arrays with repetitions, not as sets
    (utils/puppet_environment_syncer.rb:26-27).
  - An empty desired list is not rejected. Every existing name then becomes a candidate for
    removal, subject to the guard (utils/puppet_environment_syncer.rb:27-31).
- `force_delete_puppet_environment` does not check that the replacement differs from the
  source (utils/puppet_environment_syncer.rb:71-80). With the two names equal, every host is
  "moved" onto the environment it already uses, and the environment is then deleted with
  those hosts still on it. The model keeps this behaviour: `SyncerProperties.ForceRunOntoItself`
  states it, and the emptiness guarantees of `MigrateRunEmptiesSource` and `ForceRunFacts`
  hold only for a replacement other than the source.
- `ScriptProperties.ScriptCreatesEachOccurrence` counts creates only for a successful run.
  A run that fails part-way has made a prefix of those creates, which `ScriptPlan` states.
