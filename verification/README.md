# Karbor backup bank, server backup contract and restore flow — a Dafny model

Karbor protects cloud resources (servers, volumes) by writing their state into
a key/value *bank*, one *section* per resource of a *checkpoint*, and restores
them by building a linear task flow that creates an orchestration stack and
polls its status. This project models three deterministic pieces of that
engine as pure functions over maps and sequences and proves their properties:

1. **The in-memory bank driver** (`FakeBankPlugin`) and the per-resource
   section naming of a checkpoint (`Checkpoint.get_resource_bank_section`),
   with read-after-write, exact prefix listing and section isolation
   (`bank.dfy`, `section.dfy`, `pytext.dfy`).
2. **The observable `create_backup` contract of the server protection
   plugin**, as its tests assert it over the fake compute, volume and
   network inventories: the `status` key reads `protecting`, and the
   `metadata` record holds `attach_metadata` (child volume id to device of
   its attachment to the server) and `networks` (network ids of the ports
   carrying the server's MAC addresses) (`server_backup.dfy`,
   `backup_scenarios.dfy`).
3. **Restore flow logic** of `create_restoration.py`: one tick of the
   stack-status synchronisation as a function returning
   `Continue | Done(status) | Stopped(error)`, the polling loop over a
   sequence of observations, the credential selection of `get_flow`, and
   the linear task list with its provides/requires ordering
   (`stack_sync.dfy`, `restore_flow.dfy`).

`results.dfy` holds the `Option`/`Result`/`Error` types, and `values.dfy`
the Python values (`None`, strings, lists, dicts) that the bank stores and
the restore record holds.

Modelling decisions:

- The bank is a `map<string, Value>`; every driver call returns the new map
  or a `Failure` carrying the exception the driver raises (`Exception` from
  `get_object`, `KeyError` from `delete_object`).
- `list_objects` is a loop over the stored keys. Its result is a duplicate-free
  sequence holding exactly the admitted keys. Python's dict iteration order is
  not tracked, so the order of the returned names is not specified.
- The prefix test `key.find(prefix) == 0` is modelled with an explicit `find`
  (lowest occurrence index, or -1), and is proved equal to "prefix is a prefix
  of key".
- A section prefix is `"/resource_data/<checkpoint>/<resource>"` with no
  trailing "/"; the "/" is added when a key is composed, as the keys the tests
  read show. Isolation is proved for ids that contain no "/" (`IsSegment`).
  The model also proves the two ways it breaks otherwise: a raw-prefix listing
  of `vm1` sees the keys of `vm10`, and a "/" inside an id makes two resources
  compose the same key.
- The fake driver's `update_object` is an unconditional upsert, identical to
  `create_object`; its `delete_object` raises `KeyError` for a missing key; its
  `list_objects` ignores `limit`, `marker` and `sort_dir`. The model follows
  each of these; it does not fix the order in which `list_objects` returns
  the keys.
- The server protection plugin itself is not part of this model. Its contract
  is stated as the tests assert it. Where the tests are silent (each fixture
  has a single server address, port and attachment), the model makes these
  choices:
  - children that are not volumes, and volumes not attached to the server,
    contribute no `attach_metadata` entry;
  - a volume attached to the server several times contributes the device of
    its first attachment to that server;
  - a child volume or server unknown to the fake clients fails the backup,
    because the fake lookups are dict indexings that raise;
  - `networks` takes the MAC addresses of every address entry of the server,
    fixed or not; it follows the order of the port list and holds one entry
    per matching port, without removing duplicates;
  - `floating_ips` lists the addresses of type `floating`, in address order,
    and is therefore empty for the fixed-only fake servers;
  - a failed backup leaves `status` as `error` and writes no `metadata`.
- The status constants live in `karbor/common/constants.py`, which is not part
  of this model; `create_restoration.py` and the plugin tests only name them. The model assumes the
  strings `protecting`, `error`, `success` and `failed` for
  `RESOURCE_STATUS_PROTECTING`, the error status,
  `OPERATION_EXE_STATE_SUCCESS` and `OPERATION_EXE_STATE_FAILED`.

## Model

| member | source | states |
|---|---|---|
| FakeBank.CreateObject | karbor/tests/unit/protection/test_nova_protection_plugin.py:191-192 | the written key holds the value; the key set grows by that key only; every other key keeps its value |
| FakeBank.UpdateObject | karbor/tests/unit/protection/test_nova_protection_plugin.py:194-195 | update needs no existing key: it is the same upsert as create |
| FakeBank.GetObject | karbor/tests/unit/protection/test_nova_protection_plugin.py:197-201 | succeeds exactly when the key is stored with a non-`None` value, and then returns that value; otherwise fails with not-found |
| FakeBank.AdmitsIffPrefix | karbor/tests/unit/protection/test_nova_protection_plugin.py:206-211 | the listing filter (`find(prefix) == 0`, or no prefix) is exactly "prefix is a prefix of the key" |
| FakeBank.FreshBankHoldsNothing | karbor/tests/unit/protection/test_nova_protection_plugin.py:187-189 | a new driver reads every key as missing, lists nothing and fails every delete |
| FakeBank.Listing | karbor/tests/unit/protection/test_nova_protection_plugin.py:203-212 | the listed set is exactly the stored keys starting with the prefix, or all keys without one |
| FakeBank.ListObjects | karbor/tests/unit/protection/test_nova_protection_plugin.py:203-212 | the loop returns each stored key starting with the prefix exactly once and nothing else |
| FakeBank.DeleteObject | karbor/tests/unit/protection/test_nova_protection_plugin.py:214-215 | succeeds exactly when the key is stored, removing only that key and keeping every other value; a missing key raises `KeyError` |
| FakeBank.ReadAfterWrite | karbor/tests/unit/protection/test_nova_protection_plugin.py:191-201 | get after create or update returns the written value, or not-found when it is `None`; update and create read back alike |
| FakeBank.WriteFrame | karbor/tests/unit/protection/test_nova_protection_plugin.py:191-201 | a write changes no read of any other key |
| FakeBank.NoneReadsAsAbsent | karbor/tests/unit/protection/test_nova_protection_plugin.py:197-201 | a stored `None` reads exactly like an absent key |
| FakeBank.ListingAfterWrite | karbor/tests/unit/protection/test_nova_protection_plugin.py:191-212 | a write adds exactly its key to the listings whose prefix it matches and changes no other listing |
| FakeBank.DeleteRemovesExactly | karbor/tests/unit/protection/test_nova_protection_plugin.py:197-215 | after delete the key reads as missing, drops out of every listing, and deleting it again fails |
| PyText.FindFrom | karbor/tests/unit/protection/test_nova_protection_plugin.py:208 | `find` returns the lowest index where the needle occurs, or -1 when it occurs nowhere |
| PyText.FindZeroIffPrefix | karbor/tests/unit/protection/test_nova_protection_plugin.py:208 | `find` returns 0 exactly when the needle is a prefix |
| BankSections.SectionUpdate | karbor/tests/unit/protection/test_nova_protection_plugin.py:234-238 | a section write is read back under prefix + "/" + key; the key set grows by that key only and every other bank key keeps its value |
| BankSections.SectionGet | karbor/tests/unit/protection/test_nova_protection_plugin.py:234-238 | a section read succeeds exactly when prefix + "/" + key holds a non-`None` value, and returns that value |
| BankSections.SectionDelete | karbor/tests/unit/protection/test_nova_protection_plugin.py:234-238 | a section delete succeeds exactly when prefix + "/" + key is stored, removes only that bank key and keeps every other value |
| BankSections.SectionList | karbor/tests/unit/protection/test_nova_protection_plugin.py:234-238 | a section lists exactly the relative keys whose composed bank key is stored and that start with the sub-prefix |
| BankSections.ResourceKeyInjective | karbor/tests/unit/protection/test_nova_protection_plugin.py:234-238 | with "/"-free ids, a resource key determines its checkpoint, resource and relative key |
| BankSections.WriteIsolation | karbor/tests/unit/protection/test_nova_protection_plugin.py:234-238 | writing through one resource's section never changes a read through another's |
| BankSections.ListIsolation | karbor/tests/unit/protection/test_nova_protection_plugin.py:234-238 | writing through one resource's section never changes another's section listing |
| BankSections.CheckpointListingIsolation | karbor/tests/unit/protection/test_nova_protection_plugin.py:234-238 | a listing under `/resource_data/<cp1>/` contains no key of a resource of another checkpoint |
| BankSections.RawPrefixLeaks | karbor/tests/unit/protection/test_nova_protection_plugin.py:234-238 | the raw prefix of `vm1` lists a key of `vm10`, while `vm1`'s section listing is empty |
| BankSections.SlashInIdCollides | karbor/tests/unit/protection/test_nova_protection_plugin.py:234-238 | a "/" inside a resource id lets two resources compose the same bank key |
| ServerBackup.GetServer | karbor/tests/unit/protection/test_nova_protection_plugin.py:129-130 | the fake compute lookup succeeds exactly for known server ids and returns that server |
| ServerBackup.GetVolume | karbor/tests/unit/protection/test_nova_protection_plugin.py:167-168 | the fake volume lookup succeeds exactly for known volume ids and returns that volume |
| ServerBackup.PortsWithMac | karbor/tests/unit/protection/test_nova_protection_plugin.py:178-183 | the ports kept are exactly the listed ports whose MAC is one of the given MACs |
| ServerBackup.Networks | karbor/tests/unit/protection/test_nova_protection_plugin.py:299-310 | `networks` has at most one entry per port, and every entry is the network of a port carrying one of the server's MACs |
| ServerBackup.FloatingIps | karbor/tests/unit/protection/test_nova_protection_plugin.py:299-310 | `floating_ips` holds exactly the addresses of the server's address entries of type "floating" |
| ServerBackup.ListPorts | karbor/tests/unit/protection/test_nova_protection_plugin.py:177-183 | the port-listing loop returns the in-order filter of ports with that MAC |
| ServerBackup.AttachmentTo | karbor/tests/unit/protection/test_nova_protection_plugin.py:107-117 | the attachment found belongs to the volume and names the server; none is found only when no attachment names it |
| ServerBackup.AttachMetadata | karbor/tests/unit/protection/test_nova_protection_plugin.py:351-353 | fails exactly when a child volume is unknown; otherwise maps exactly the child volumes attached to the server, each to the device of its attachment to that server |
| ServerBackup.BackupMetadata | karbor/tests/unit/protection/test_nova_protection_plugin.py:299-310 | the record is produced exactly when the server and its child volumes are known; it carries the server's id, the attach map of its child volumes, the networks of its MACs, its floating ips, and its availability zone, flavor id, key name and security groups |
| ServerBackup.MetadataRoundTrip | karbor/tests/unit/protection/test_nova_protection_plugin.py:299-310 | the stored dict layout reads back as the record written |
| ServerBackup.MetadataValue | karbor/tests/unit/protection/test_nova_protection_plugin.py:299-310 | the stored record is a dict with exactly the keys `resource_id`, `attach_metadata`, `server_metadata`, the last holding exactly the six server fields the tests compare |
| ServerBackup.CreateBackup | karbor/tests/unit/protection/test_nova_protection_plugin.py:290-315 | after the call, `status` reads `protecting` and `metadata` holds the record (or `status` reads `error` when gathering fails, and the `metadata` key is neither added nor changed); no other bank key changes |
| ServerBackup.NoChildrenNoAttachments | karbor/tests/unit/protection/test_nova_protection_plugin.py:270-301 | a server without child nodes gets `attach_metadata == {}` and the networks of the ports carrying its MACs, and the backup succeeds exactly when the server is known |
| ServerBackup.OneAttachedVolume | karbor/tests/unit/protection/test_nova_protection_plugin.py:317-353 | one attached child volume gives `attach_metadata == {vol_id: device}` |
| ServerBackup.NetworksExact | karbor/tests/unit/protection/test_nova_protection_plugin.py:177-183 | `networks` holds exactly the network ids of ports carrying one of the server's MACs |
| ServerBackup.BackupReadBack | karbor/tests/unit/protection/test_nova_protection_plugin.py:294-315 | after a successful backup, get on the status key returns `protecting` and get on the metadata key returns the record |
| ServerBackup.BackupStaysInSection | karbor/tests/unit/protection/test_nova_protection_plugin.py:234-238 | a backup changes no read in the section of any other resource or checkpoint |
| BackupScenarios.FakeServerNetworks | karbor/tests/unit/protection/test_nova_protection_plugin.py:55-105 | each fake server's MAC matches exactly one fake port, giving one network and no floating ips |
| BackupScenarios.StoredRecord | karbor/tests/unit/protection/test_nova_protection_plugin.py:299-310 | the stored layout of a fake server's record is the dict literal the tests compare with |
| BackupScenarios.VmOneMetadata | karbor/tests/unit/protection/test_nova_protection_plugin.py:270-310 | the first server's record has empty `attach_metadata` and networks `["network_id_1"]` |
| BackupScenarios.VmTwoMetadata | karbor/tests/unit/protection/test_nova_protection_plugin.py:317-362 | the second server's record maps `vol_id_1` to `/dev/vdb` and has networks `["network_id_2"]` |
| BackupScenarios.CreateBackupWithoutVolumes | karbor/tests/unit/protection/test_nova_protection_plugin.py:270-315 | the backup without volumes leaves `protecting` and the expected record under the tested keys |
| BackupScenarios.CreateBackupWithVolumes | karbor/tests/unit/protection/test_nova_protection_plugin.py:317-367 | the backup with one volume leaves `protecting` and the expected record under the tested keys |
| StackSync.StatusName | karbor/services/protection/flows/create_restoration.py:77-80 | the failed state is recorded as "failed" and the success state as "success", and only those |
| StackSync.Recorded | karbor/services/protection/flows/create_restoration.py:82-86 | `update` + `save` set `status` to the state's name, keep every other field, and count one save |
| StackSync.SyncTick | karbor/services/protection/flows/create_restoration.py:70-90 | in progress continues and nothing changes; failed and complete record their status and save once; any other status stops the loop with the unbound-`status` error and a fetch error with the fetch failure, both with the record untouched |
| StackSync.CreateFailedRecordsFailed | karbor/services/protection/flows/create_restoration.py:77-86 | a tick on a failed stack sets `status` to "failed" and saves once |
| StackSync.Poll | karbor/services/protection/flows/create_restoration.py:64-90 | a run never takes more ticks than there are observations, and a run that stopped ends with exactly the outcome of the tick on the observation it stopped at |
| StackSync.PollStopsAtFirstSettled | karbor/services/protection/flows/create_restoration.py:70-90 | the loop stops at the first observation that is not in progress; every earlier tick saw the stack in progress |
| StackSync.PollRecordsAtMostOnce | karbor/services/protection/flows/create_restoration.py:77-87 | across a run the record is updated and saved at most once, only by a terminal tick; otherwise it is unchanged |
| StackSync.InProgressThenComplete | karbor/services/protection/flows/create_restoration.py:70-87 | in progress then complete records success once after two ticks and ignores later observations |
| RestoreFlow.ClientKwargs | karbor/services/protection/flows/create_restoration.py:95-112 | no target gives empty kwargs; a target gives exactly auth_url, username, password: the credentials come from a password-type auth (missing fields raise `KeyError`) and are `None` otherwise |
| RestoreFlow.CredentialsOnlyFromPasswordAuth | karbor/services/protection/flows/create_restoration.py:100-112 | kwargs are empty exactly without a target, and a non-`None` username or password only comes with a target and a password-type auth |
| RestoreFlow.CreateStackTask | karbor/services/protection/flows/create_restoration.py:36-41 | stack creation provides exactly `stack_id` and requires nothing |
| RestoreFlow.SyncStackStatusTask | karbor/services/protection/flows/create_restoration.py:56-59 | status synchronisation requires exactly `stack_id` and provides nothing |
| RestoreFlow.StackName | karbor/services/protection/flows/create_restoration.py:44 | stack names are "restore_" followed by exactly the uuid |
| RestoreFlow.StackNamesDistinct | karbor/services/protection/flows/create_restoration.py:44 | stack names start with `restore_` and differ whenever their uuids differ |
| RestoreFlow.RestorationFlow | karbor/services/protection/flows/create_restoration.py:127-136 | the flow is named `create_restoration_` followed by exactly the checkpoint id, keeps the resource tasks in order at its head and adds exactly two tasks after them |
| RestoreFlow.FlowNameIdentifiesCheckpoint | karbor/services/protection/flows/create_restoration.py:127 | flow names start with `create_restoration_` and identify the checkpoint |
| RestoreFlow.ProvidedBeforeIff | karbor/services/protection/flows/create_restoration.py:127-136 | a name is available before a position exactly when an earlier task provides it |
| RestoreFlow.CheckRequirements | karbor/services/protection/flows/create_restoration.py:127-136 | the walk reports no missing name exactly when every requirement is an input or provided earlier, and otherwise names a genuinely unmet one |
| RestoreFlow.RestorationFlowSatisfied | karbor/services/protection/flows/create_restoration.py:127-136 | if the resource tasks' requirements are met, so are the whole restoration flow's |
| RestoreFlow.StackIdProvidedByCreateStack | karbor/services/protection/flows/create_restoration.py:127-136 | synchronisation is last and stack creation, right before it, provides its `stack_id` with no input needed |
| RestoreFlow.GetFlow | karbor/services/protection/flows/create_restoration.py:93-138 | a flow is produced exactly when the credentials can be chosen, with those kwargs and the restoration flow for the checkpoint |

## Left out

- `get_owner_id` of the fake driver returns `None` and has no logic.
- The `limit`, `marker` and `sort_dir` parameters of `list_objects` are accepted and ignored by the fake driver, so they are not parameters of the model.
- FakeBank.ListObjects: does not state the order of the returned names, because Python dict order is not tracked by a `map`.
- The `Bank` and `BankSection` classes are not part of this model. Sections are modelled only through the prefix + "/" + key composition that the tested keys show.
- The single module-level bank that all tests share is a parameter here, so each test starts from an arbitrary bank.
- The periodic timer (`FixedIntervalLoopingCall` and its 60-second interval) is timing and concurrency. The model keeps one tick and a finite sequence of observations.
- Real orchestration-service calls, `HeatTemplate`, `ClientFactory`, `provider.build_task_flow` and the task-flow engine are opaque. Only the tasks' provides/requires sets and their order are kept.
- `CreateStackTask.execute` is kept only through its stack name. UUID generation is a parameter.
- A failure of `restore.update` or `restore.save` inside a tick is not modelled.
- Image snapshot creation and upload, `delete_backup` (its test asserts nothing), the schema getters and the supported-types test depend on modules that are not part of this model.
- The status after the asynchronous image upload finishes (`available`/`error`) is not modelled. The tests observe only `protecting`.
- `karbor/common/karbor_keystone_plugin.py` is a thin wrapper over the identity library, and `karbor/tests/unit/clients/test_cinder_client.py` tests client construction from configuration and the service catalog, which is library behaviour; neither has logic of this core to model.
