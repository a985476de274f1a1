# Software management of the Cumulocity device agent, in Dafny

This project models the part of the Cumulocity device agent that carries out
software operations sent by the platform, and proves properties of that model.

- The agent's software-management module (`SoftwareManager`) receives SmartREST
  operations on `s/ds`:
  - 528 is a software update without type;
  - 529 is a software update with type;
  - 516 is a software list.
- The module splits the operation's values into fixed-width records.
- It applies the records through the apt backend or through snapd:
  - a batch of records goes through the package manager;
  - a single package file is downloaded and installed with apt-get.
- It publishes on `s/us`:
  - 501 when the operation starts executing;
  - 502 or 503 as the final status;
  - 141 and 142 for each entry installed or removed;
  - after a 516 with the apt backend, the inventory message that the apt
    backend's `getInstalledSoftware(False)` returns; its template is the apt
    backend's.
- The snap branches build the 116 and 140 inventory rows. The agent module
  would publish its 116 only after a call that always raises, so it is never
  published. The snap backend only returns its 140 message to its caller.
- The snap package manager (`SnapDPackageManager`) is the snap backend. It
  installs, refreshes and removes snaps, waits for each snapd change to
  finish, and turns snapd's snap list into inventory rows, records and
  name-keyed maps.

Modules:

- `Text` (text.dfy): substring search, `split`/`join` on a separator, and
  flattening, as Python's `str` operations behave.
- `SmartRest` (smartrest.dfy): the outbound messages, the final verdict of a
  batch, and the exceptions that reach the module's top-level handler. Each
  exception carries its Python message text.
- `Operation` (operation.dfy): `group`, record chunking, and the scan for
  short records and package files.
- `Snapd` (snapd.dfy): snapd as a value.
  - The answers to the next POSTs and change queries are scripts consumed in
    order, and every request is logged.
  - The client object holds the shared busy mark.
  - Change classification and the poll loop are defined here.
- `SnapBatch` (snap_batch.dfy): the reference behaviour of the two batch
  loops over snap records, and its properties.
- `Inventory` (inventory.dfy): the 140 and 116 rows, the software records,
  and the name-keyed maps built from snapd's snap list.
- `SnapPackageManager` (snap_package_manager.dfy): the snap backend as a
  class. Each of its methods is proved against the reference functions.
- `SoftwareManagement` (software_management.dfy): the routing, the branch
  semantics as functions, and their properties. The module class
  `SoftwareManager` holds the published messages and effects; its methods are
  proved against those functions.

Collaborators outside the model are parameters of `HandleOperation` (the
`Environment` value):

- the apt backend's `install_software`, `installSoftware` and
  `getInstalledSoftware`;
- the platform's binary download;
- the standard error of `apt-get -y install`;
- whether the platform token arrives in time.

Calls to the apt backend and to the platform are recorded as `Effect` values.

Where the source raises, the model follows the code. Several branches raise
in every run:

- the typed snap update at software_management.py:234;
- the snap software list at :305 and at :321.

The model reproduces what the top-level handler then publishes.

## Model

| member | source | states |
|---|---|---|
| `Operation.Group` | c8ydm/agentmodules/software_management.py:50-62 | the loop computes exactly the reference grouping `Groups` |
| `Operation.GroupsFlatten` | c8ydm/agentmodules/software_management.py:50-62 | the groups, concatenated, are the input tokens in order, each token containing a line break cut just before it |
| `Operation.GroupsEmpty` | c8ydm/agentmodules/software_management.py:50-62 | there are no groups exactly when there are no tokens (the trailing empty group is dropped) |
| `Operation.GroupsNonEmpty` | c8ydm/agentmodules/software_management.py:50-62 | no group is empty, so popping the device id of the first group never fails |
| `Operation.GroupsCount` | c8ydm/agentmodules/software_management.py:50-62 | one group per token with a line break, plus one for tokens after the last line break |
| `Operation.FirstGroup` | c8ydm/agentmodules/software_management.py:50-62 | the first group runs up to and including the first token with a line break, that token cut |
| `Operation.SingleGroup` | c8ydm/agentmodules/software_management.py:50-62 | tokens without line breaks form a single group |
| `Operation.ChunkFlatten` | c8ydm/agentmodules/software_management.py:88-89 | the records of a chunking, concatenated, give back the values they were cut from |
| `Operation.ChunkShape` | c8ydm/agentmodules/software_management.py:150-151 | every record but the last has the full width; the last has between one and the full width |
| `Operation.ScanRecords` | c8ydm/agentmodules/software_management.py:90-97 | the scan raises (None) exactly when some record is shorter than the width; otherwise it reports a package file exactly when some url contains "binaries" |
| `SmartRest.Verdict` | c8ydm/agentmodules/software_management.py:102-109 | 503 exactly when no error was collected; otherwise 502 with the errors joined by " - " |
| `SmartRest.VerdictSingleError` | c8ydm/agentmodules/software_management.py:175-182 | with a single error, the failure text is that error |
| `Text.FindSpec` | c8ydm/agentmodules/software_management.py:57 | `find` gives the first occurrence, and -1 exactly when the text does not occur |
| `Text.ContainsChar` | c8ydm/agentmodules/software_management.py:54-57 | for the one-character line break, `in` and a successful `find` both mean that the character occurs |
| `Text.SplitLastPiece` | c8ydm/core/snap_package_manager.py:83 | the last piece of a split (`split(sep)[-1]`) holds no separator |
| `Text.SplitLastSuffix` | c8ydm/core/snap_package_manager.py:83 | when the separator occurs, the text ends with the separator followed by the last piece |
| `Text.JoinSplit` | c8ydm/core/snap_package_manager.py:83-84 | splitting on a separator and joining back with it gives the original text |
| `Snapd.Classify` | c8ydm/core/snap_package_manager.py:30-41 | finished exactly for Done and Error; an error exactly for Error, equal to the change's err |
| `Snapd.PollChange` | c8ydm/agentmodules/software_management.py:440-451 | a classified status consumes one reply of the change script |
| `Snapd.AwaitScript` | c8ydm/agentmodules/software_management.py:408-411 | the poll loop consumes the change replies up to its first terminal one and returns its classification, one query per reply; with no terminal reply it fails after the last |
| `Snapd.AwaitFinished` | c8ydm/core/snap_package_manager.py:95-98 | the poll loop never returns an unfinished change |
| `Snapd.SnapdClient.constructor` | c8ydm/utils/snapd_client.py:11-13 | a new client is not busy |
| `Snapd.SnapdClient.GetInstalledSnaps` | c8ydm/utils/snapd_client.py:33-38 | returns the daemon's snaps and logs the list request |
| `Snapd.SnapdClient.InstallSnap` | c8ydm/utils/snapd_client.py:54-68 | sends the install request and returns the next scripted answer, None once the script is exhausted |
| `Snapd.SnapdClient.UpdateSnap` | c8ydm/utils/snapd_client.py:70-85 | sends the refresh request, with the devmode flag, and returns the next scripted answer |
| `Snapd.SnapdClient.DeleteSnap` | c8ydm/utils/snapd_client.py:100-108 | sends the remove request and returns the next scripted answer |
| `Snapd.SnapdClient.GetChangeStatus` | c8ydm/utils/snapd_client.py:120-125 | sends the change query and returns the next scripted change reply |
| `SnapBatch.VersionChannel` | c8ydm/core/snap_package_manager.py:83-84 | with a "##", the version is the text before the first one, and the channel holds no "##" and ends the field right after a "##"; a field without "##" is both version and channel |
| `SnapBatch.VersionChannelRoundTrip` | c8ydm/agentmodules/software_management.py:396-397 | a "version##channel" field as written for the 116 inventory reads back as that version and channel |
| `SnapBatch.Request` | c8ydm/agentmodules/software_management.py:398-437 | a record asks for a request exactly when it has five fields and its action is install or update (or delete, for the package manager); the request names the record's snap |
| `SnapBatch.BatchErrorBound` | c8ydm/core/snap_package_manager.py:80-145 | a finished batch has at most one error per record |
| `SnapBatch.BatchAttemptsEveryItem` | c8ydm/agentmodules/software_management.py:393-438 | a finished batch has sent snapd exactly the requests of all records, in record order, whatever errors earlier records caused |
| `SnapBatch.AbortedFaults` | c8ydm/core/snap_package_manager.py:80-145 | a batch is abandoned only on a short record or on a missing answer from snapd |
| `SnapBatch.IdleBatch` | c8ydm/agentmodules/software_management.py:434-437 | records whose actions ask for nothing leave snapd untouched and add no error |
| `SnapBatch.ItemRejected` | c8ydm/core/snap_package_manager.py:90-92 | a status of 400 or more adds "Snap<name> error: <message>" and starts no change poll |
| `SnapBatch.ItemAwaited` | c8ydm/core/snap_package_manager.py:93-110 | after an accepted request the record's error is present exactly when the first terminal change reply is an Error with a non-empty err, and equals that err |
| `SnapBatch.ItemNotPolled` | c8ydm/agentmodules/software_management.py:403-406 | an accepted status the loop does not poll on (for the module: anything but 202) adds no error and queries no change |
| `Inventory.InstalledSoftwareRows` | c8ydm/core/snap_package_manager.py:43-59 | four fields per snap, in snapd's order: name, "version - channel", "snap", " " |
| `Inventory.InstalledSnapsRows` | c8ydm/agentmodules/software_management.py:371-387 | three fields per snap, in snapd's order: name, "version##channel", "" |
| `Inventory.IndexByNameKeys` | c8ydm/core/snap_package_manager.py:147-158 | the map's keys are exactly the snap names |
| `Inventory.IndexByNameLast` | c8ydm/agentmodules/software_management.py:360-369 | each name maps to the entry of the last snap with that name |
| `SnapPackageManager.SnapDPackageManager.GetChangeStatus` | c8ydm/core/snap_package_manager.py:30-41 | one change query, classified |
| `SnapPackageManager.SnapDPackageManager.GetInstalledSoftware` | c8ydm/core/snap_package_manager.py:43-59 | template 140 with the rows of all snaps, after one list request |
| `SnapPackageManager.SnapDPackageManager.GetInstalledSoftwareJson` | c8ydm/core/snap_package_manager.py:61-73 | one record per snap, in order, with "version - channel", type "snap" and url "test" |
| `SnapPackageManager.SnapDPackageManager.WaitForChange` | c8ydm/core/snap_package_manager.py:95-98 | the poll loop computes the reference poll `Await` |
| `SnapPackageManager.SnapDPackageManager.InstallOne` | c8ydm/core/snap_package_manager.py:81-144 | one record's request, answer handling and change wait, as the reference `ApplyItem` for the package manager |
| `SnapPackageManager.SnapDPackageManager.InstallSoftware` | c8ydm/core/snap_package_manager.py:75-145 | the batch loop computes the reference `ApplyBatch` for the package manager |
| `SnapPackageManager.SnapDPackageManager.GetFormattedSnaps` | c8ydm/core/snap_package_manager.py:147-158 | the name-keyed map of all snaps, with type "snap" and url " " |
| `SoftwareManagement.RouteOf` | c8ydm/agentmodules/software_management.py:78-289 | each branch is taken exactly when its condition holds: "s/ds" in the topic and 528 whatever the package manager, or 529 or 516 with package manager "apt" or "snap"; any other message is ignored |
| `SoftwareManagement.UnknownPackageManager` | c8ydm/agentmodules/software_management.py:138-289 | with a package manager other than "apt" or "snap", only the untyped update is handled |
| `SoftwareManagement.PackageManagerOf` | c8ydm/agentmodules/software_management.py:45-48 | the configured package manager, "apt" when the setting is missing or empty; never empty |
| `SoftwareManagement.SingleOperation` | c8ydm/agentmodules/software_management.py:80-81 | for values without line breaks, the operation is everything after the device id |
| `SoftwareManagement.FirstOperationOnly` | c8ydm/agentmodules/software_management.py:140-143 | only the first operation is carried out: its values end at the first value with a line break |
| `SoftwareManagement.NoticesSpec` | c8ydm/agentmodules/software_management.py:164-173 | at most one notice per processed entry, each a 141 or 142, and none exactly when no entry was installed, updated or deleted |
| `SoftwareManagement.HandleIgnored` | c8ydm/agentmodules/software_management.py:75-78 | a message no branch takes publishes nothing and changes nothing |
| `SoftwareManagement.HandleEmptyPayload` | c8ydm/agentmodules/software_management.py:80-81 | a routed message without values raises before 501: only the failure pair is published |
| `SoftwareManagement.HandleAnnounces` | c8ydm/agentmodules/software_management.py:85-87 | a routed message with values first publishes 501 for its operation |
| `SoftwareManagement.AptRoutesLeaveSnapd` | c8ydm/agentmodules/software_management.py:258-287 | the apt branches and the untyped update neither call snapd nor touch the busy mark |
| `SoftwareManagement.FailureConcludes` | c8ydm/agentmodules/software_management.py:329-336 | the handler's failure pair ends both the list and the update operation |
| `SoftwareManagement.UntypedConcluded` | c8ydm/agentmodules/software_management.py:115-135 | the untyped update publishes a final 502/503 unless it downloads a package file for an action other than install or update, in which case it publishes only 501 |
| `SoftwareManagement.TypedAptConcluded` | c8ydm/agentmodules/software_management.py:186-203 | the same for the typed apt update |
| `SoftwareManagement.OperationConcluded` | c8ydm/agentmodules/software_management.py:75-336 | every routed message whose run returns ends its operation with 502 or 503, exactly unless it is an update left executing after a package-file download |
| `SoftwareManagement.TypedSnapNeverSucceeds` | c8ydm/agentmodules/software_management.py:207-253 | the typed snap update always raises and never publishes 503 |
| `SoftwareManagement.TypedSnapAttemptsEveryRecord` | c8ydm/agentmodules/software_management.py:230-234 | before raising at the debug line, the typed snap update has listed the snaps and sent the request of every record, in order |
| `SoftwareManagement.SecondListReportsBusy` | c8ydm/agentmodules/software_management.py:302-321 | after a snap software list the busy mark stays set, so the next one only reports "Snapd is busy" and leaves snapd alone |
| `SoftwareManagement.ListSnapGate` | c8ydm/agentmodules/software_management.py:302-319 | busy: report busy and call nothing; free: set the mark, list the snaps, and raise with the mark still set |
| `SoftwareManagement.UntypedBatch` | c8ydm/agentmodules/software_management.py:98-110 | without a package file, the apt backend receives all records, which concatenate to the operation's values, and the final status is 503 exactly when it reports no error |
| `SoftwareManagement.TypedAptBatch` | c8ydm/agentmodules/software_management.py:161-183 | without a package file, all 141/142 notices come after 501 and before the verdict, which is the only message ending the operation |
| `SoftwareManagement.BinaryFromLastRecord` | c8ydm/agentmodules/software_management.py:115-118 | with a package file, the url fetched is the last record's, whichever record named "binaries" |
| `SoftwareManagement.SoftwareManager.constructor` | c8ydm/agentmodules/software_management.py:40-48 | the module starts with nothing published and the configured package manager |
| `SoftwareManagement.SoftwareManager.GetFormattedSnaps` | c8ydm/agentmodules/software_management.py:360-369 | the name-keyed map of version and channel of all snaps, after one list request |
| `SoftwareManagement.SoftwareManager.GetInstalledSnaps` | c8ydm/agentmodules/software_management.py:371-387 | template 116 with the rows of all snaps, after one list request |
| `SoftwareManagement.SoftwareManager.GetChangeStatus` | c8ydm/agentmodules/software_management.py:440-451 | one change query, classified |
| `SoftwareManagement.SoftwareManager.WaitForChange` | c8ydm/agentmodules/software_management.py:407-411 | the poll loop computes the reference poll `Await` |
| `SoftwareManagement.SoftwareManager.InstallSnapItem` | c8ydm/agentmodules/software_management.py:394-437 | one record as the reference `ApplyItem` for the module: install, refresh (devmode for c8ycc), others skipped |
| `SoftwareManagement.SoftwareManager.InstallSnap` | c8ydm/agentmodules/software_management.py:389-438 | the batch loop computes the reference `ApplyBatch` for the module |
| `SoftwareManagement.SoftwareManager.TakeOperation` | c8ydm/agentmodules/software_management.py:80-81 | the first group without its device id, None exactly for empty values |
| `SoftwareManagement.SoftwareManager.UpdateUntyped` | c8ydm/agentmodules/software_management.py:78-135 | publishes and records exactly what `UntypedUpdate` gives |
| `SoftwareManagement.SoftwareManager.UpdateTypedApt` | c8ydm/agentmodules/software_management.py:138-205 | publishes and records exactly what `TypedUpdateApt` gives |
| `SoftwareManagement.SoftwareManager.PublishNotices` | c8ydm/agentmodules/software_management.py:164-173 | appends the notices of all processed entries, in order |
| `SoftwareManagement.SoftwareManager.UpdateTypedSnap` | c8ydm/agentmodules/software_management.py:207-253 | publishes 501, moves snapd and raises exactly as `TypedUpdateSnap` gives |
| `SoftwareManagement.SoftwareManager.ListApt` | c8ydm/agentmodules/software_management.py:258-287 | publishes and records exactly what `ListAptRun` gives |
| `SoftwareManagement.SoftwareManager.ListSnap` | c8ydm/agentmodules/software_management.py:289-328 | publishes, moves snapd, sets the busy mark and raises exactly as `ListSnapRun` gives |
| `SoftwareManagement.SoftwareManager.HandleOperation` | c8ydm/agentmodules/software_management.py:75-336 | the published messages, effects, snapd state and busy mark are those of `Handle`, with the failure pair after an exception |

## Left out

- The apt backend (`AptPackageManager`) is not part of this model. Its
  `install_software`, `installSoftware` and `getInstalledSoftware` are
  uninterpreted functions in `Environment`. Whatever they do to the system,
  and any exception they raise, is not modelled.
- Platform REST calls are recorded only as `Effect` values: the binary
  download, `get_internal_id`, `update_managed_object`, and the apt inventory
  they send. The file name returned by the download is a function of the url.
- The wait for the platform token is a boolean of the environment.
- `apt-get -y install` is reduced to its standard error, as a function of the
  file.
- The published messages and the effects are two separate sequences. The
  model does not capture their interleaving, for example that the 516 apt
  branch updates the managed object before it publishes its verdict.
- The snapd transport is not modelled: sockets, request bodies and headers,
  and the reconnect loop of the client constructor. The channel is carried as
  given, including the empty channel the client leaves out of the body.
- A failed `GET snaps` (the client returning None) is not modelled: listing
  always answers.
- Malformed snapd answers (missing keys) are not modelled.
- The unbounded poll loops run over a finite script of change replies. A
  change that never finishes appears as an exhausted script, that is as the
  client returning None, so the poll then raises instead of spinning forever.
- OperationConcluded: holds for every run that returns. A typed snap update
  whose change never reaches Done or Error spins forever in the source and
  ends nothing; in the model the finite script turns it into the raise above.
- `time.sleep`, logging, `json.dumps` and reading `~/.cumulocity` are left
  out. The configured package manager is a parameter of the constructor.
- The `software_installed` and `wantedSnaps` lists are left out. The package
  manager's `install_software` builds them but never uses them.
- Helpers not used by the modelled core are left out:
  - `get_filename_from_cd` is not called by the handler;
  - `getSupportedOperations` waits for the token, writes
    `c8y_SupportedSoftwareTypes` (`['snap']`) to the managed object, and
    returns the names of the two operations;
  - `getSupportedTemplates` returns the empty list;
  - `getMessages` sends the apt or snap inventory to the managed object and
    returns None.
- Other snapd client requests are left out because no modelled code calls
  them: system info, restart, refresh-all and revert.
- Exception texts are CPython 3.10's wording, for example "local variable
  'type' referenced before assignment". The wrong-arity call names the method
  by its qualified name, "SoftwareManager.installSnap()".
- The module's snapd client and the package manager's class-level client are
  separate objects. The model does not capture their sharing of the single
  snapd daemon.
