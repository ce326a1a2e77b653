# A verified model of the Google Drive sync client

The repository is a background daemon that keeps local folders in step with
Google Drive, and a window that talks to it over D-Bus. This project models the
parts whose correctness spans several functions and many interleavings, and
proves what they promise.

* **Session and token refresh.** Any number of Drive requests share one session
  in memory, one token cache on disk and one refresh mutex. Sign-in, sign-out and
  restored sessions replace the session underneath them. `Auth.dfy` and
  `DriveClient.dfy` hold the critical sections; `RefreshProtocol.dfy` is a state
  machine over every point where a request can be interleaved with others,
  cancelled or timed out, and `RequestOutcomes.dfy` says what becomes of a request
  and that it gets through. `SignInGate.dfy` and `SignInProtocol.dfy` add the
  daemon's sign-in attempts and overlapping sign-outs, `SignInOutcomes.dfy` that
  they too get through.
* **The sync engine.** A remote tree, local files and the state table
  (`Paths.dfy`, `SyncState.dfy`). `Pull.dfy` specifies the initial recursive pull,
  `PullMoments.dfy` the states in which it may fail, and `PullRun.dfy` proves the
  loop against both; `Poll.dfy`, `Listing.dfy` and `PollRun.dfy` do the same for
  remote changes and their replay after a failure. `PollTree.dfy` joins pull and
  poll, and `Times.dfy` shows that neither depends on modification times.
  `LocalChanges.dfy` covers uploads and where uploaded items end up, and
  `SiblingNames.dfy` whether their names stay distinct.
* **Status.** `Status.dfy` is the status table and its workers, `StatusLog.dfy`
  the log it refines, `StatusDelivery.dfy` the way of a snapshot to the display.
* **Configuration, tasks and status.** `Engine.dfy`, `Service.dfy` and
  `Alignment.dfy` keep the live configuration, the engine's task table and the
  status table together.
* **The window.** `Ui.dfy`, `UiProtocol.dfy` and `UiOutcomes.dfy`: outstanding
  requests, completions that arrive late, the indicators, and what is shown.

Where the program updates fields in place there is a class whose methods are
proved equal to a function on values; the theorems are about those functions,
over every run. Any call that may fail in the program (file system, database,
network, dispatching a request) may fail in the model at every occurrence.
Failures are counted, and methods state that without one they succeed unless
something named in their contract stands in the way.

## What the environment is assumed to do

* Names of remote siblings are distinct, non-empty, contain no slash and are not
  `.` or `..`; Drive ids within a folder are distinct, and ids that the server
  issues are new. Files carry checksums, and equal checksums mean equal content.
* The remote tree does not change during a pull, nor the content of a file
  between the retries of a poll; nobody edits local files in between. A change
  list has one entry for each file and pages end.
* For a poll, no two rows of a folder carry the same Drive id, and no row is for
  the root itself.
* Folder ids in the configuration are unique.
* Generations and revisions are natural numbers: the 64-bit counters are assumed
  not to wrap.

A database query by Drive id may return any matching row; nothing is assumed
about which.

## Where the code differs from its comments

* `crates/gdrive-sync/src/engine.rs:7-9` promises that the last writer wins by
  modification time. Modification times are recorded but decide nothing:
  `Times.PullIgnoresTimes` and `Times.PollIgnoresTimes` prove that pull and poll do
  the same whatever they are, and an upload looks at none.
* `crates/gdrive-sync/src/engine.rs:451-453` promises that a missing parent folder
  is created lazily. The code uploads into the root instead.
  `LocalChanges.CreatedIsAtIffPlaced` and `LocalChanges.CreationMirrors` give the
  exact condition under which the item lands where its path says, and
  `LocalChanges.UntrackedParentBreaksMirror` an input for which it does not.
* `crates/gdrive-sync/src/engine.rs:274-276` promises that files are skipped by
  modification time or checksum. Only path and checksum count, and a matching row
  is trusted without looking at the local file; `Pull.PullAgreesIffReady` says
  exactly when that is safe, and `Pull.MatchingRowHidesMissingFile` gives an input
  for which it is not.
* The same trust makes a second row with a file's id harmful:
  `PullMoments.StrayRowHidesBrokenFile` gives the input and
  `PullMoments.AlwaysReadyIffGuarded` the exact condition.
* A row's folder flag decides how an item is removed (`crates/gdrive-sync/src/engine.rs:501`).
  `PullMoments.KindChangeMisleads` and `Poll.FolderRenewalMisleads` give inputs for
  which it ends up wrong, and `PullMoments.AlwaysTellingIffGuarded`,
  `Poll.PollStaysTelling` and `LocalChanges.EventStaysTelling` the exact conditions.
* `crates/gdrive-sync/src/state_db.rs:67-70` turns an error while the page token is
  fetched into a missing page token, so a poll may report success without having
  done anything. `PollRun.PollRemoteChanges` allows for this outcome.
* `crates/gdrive-sync/src/drive_client.rs:216` gives up a rotated refresh token
  together with the rest of the reply when writing the cache fails.
  `RefreshProtocol.ExchangeUsesLastGrant` says exactly when a later exchange still
  presents the token granted last, and `RefreshProtocol.DroppedRotationIsLost` is a
  run in which it does not.

## Model

| member | source | states |
|---|---|---|
| `QueryLiteral.EscapeIsCharacterwise` | crates/gdrive-sync/src/drive_client.rs:494-496 | the two replacement passes never escape each other's output: together they escape each character on its own |
| `QueryLiteral.EscapeRoundTrip` | crates/gdrive-sync/src/drive_client.rs:494-496 | for every string, reading the quoted literal back yields the string and leaves the rest of the query alone, so no unescaped quote is inside |
| `QueryLiteral.EscapeInjective` | crates/gdrive-sync/src/drive_client.rs:494-496 | different ids have different escaped forms |
| `Auth.RefreshedToken` | crates/gdrive-sync/src/auth.rs:163-181 | an error exactly when the reply holds an empty token; otherwise the token carries the reply's access token, its refresh token or the previous one, stays renewable when its predecessor was, and is fresh for exactly its announced lifetime less 30 seconds |
| `Auth.TokenDisk.SaveToken` | crates/gdrive-sync/src/auth.rs:194-221 | whatever call fails, a reader of the cache sees the old file or the complete new one at every moment; an error leaves the cache unchanged, and without a failed call there is none |
| `Auth.TokenDisk.RemoveFile` | crates/gdrived/src/dbus_service.rs:385-391 | only the token cache goes, and a missing one counts as removed |
| `DriveClient.TokenState.Replace` | crates/gdrive-sync/src/drive_client.rs:48-52 | every new session has a new generation |
| `DriveClient.DriveClient.SetAccessToken` | crates/gdrive-sync/src/drive_client.rs:138-141 | a bare token begins a session without refresh data and leaves the cache alone |
| `DriveClient.DriveClient.RestoreToken` | crates/gdrive-sync/src/drive_client.rs:144-146 | restoring begins a session without rewriting the cache |
| `DriveClient.DriveClient.SaveToken` | crates/gdrive-sync/src/drive_client.rs:149-154 | given token and path become the session, under a new generation, if and only if the cache was written, which fails only when a call does |
| `DriveClient.DriveClient.FinishRefresh` | crates/gdrive-sync/src/drive_client.rs:211-219 | a refresh installs its token in memory and cache together, or, when the session is newer or the write fails, in neither |
| `RefreshProtocol.BoundedReplay` | crates/gdrive-sync/src/drive_client.rs:222-241 | in every interleaving a request transmits at most twice and exchanges at most twice, never with an empty token; a replay stays in the first transmission's session, with another token or one obtained by an exchange made for it |
| `RequestOutcomes.ReplayTakesRenewedToken` | crates/gdrive-sync/src/drive_client.rs:229-241 | a request whose token was rejected while another one renewed the session transmits the renewed token at its next read |
| `RequestOutcomes.ReplayRenews` | crates/gdrive-sync/src/drive_client.rs:229-241 | from every reachable state in which the session still holds the rejected token and the mutex is free, there is a run in which the request exchanges it, stores the reply and transmits again; it has then sent exactly the rejected and the renewed session |
| `RequestOutcomes.AnswerEnds` | crates/gdrive-sync/src/drive_client.rs:225-235 | every other answer ends the request: no rejection, one that cannot be replayed, or the second |
| `RequestOutcomes.ExpiredSessionIsRenewed` | crates/gdrive-sync/src/drive_client.rs:165-241 | a new request in an expired session renews it in memory and cache and transmits the renewed token |
| `RequestOutcomes.FirstReadOutcome` | crates/gdrive-sync/src/drive_client.rs:169-181 | the first read transmits if and only if the request is still in the session of its rejected token, and the token is another one and more than 30 seconds from expiry; signed out or in another session it gives up; otherwise it waits |
| `RequestOutcomes.SecondReadOutcome` | crates/gdrive-sync/src/drive_client.rs:183-202 | under the mutex the same, and an exchange starts if and only if there are a non-empty refresh token, a cache path and a configured client |
| `RequestOutcomes.CancelEnds` | crates/gdrive-sync/src/drive_client.rs:156-163 | a deadline at any await point ends the request without a transmission or a change, and frees the mutex |
| `RequestOutcomes.FailedExchangeEnds` | crates/gdrive-sync/src/drive_client.rs:204-216 | so does an exchange that fails, cannot be stored or is too late for the session |
| `RequestOutcomes.SessionCarriesLastReply` | crates/gdrive-sync/src/drive_client.rs:204-219 | in every reachable state the session has the token it began with or the access token of the reply installed last |
| `RequestOutcomes.TransmissionsAreSourced` | crates/gdrive-sync/src/drive_client.rs:223-240 | in every reachable state whatever was transmitted has been a session's token, and what a request transmits after its own exchange carries the access token of an installed reply |
| `RequestOutcomes.SessionsBeginAsGiven` | crates/gdrive-sync/src/drive_client.rs:138-154 | saved and restored sessions have the given token and path, bare ones neither refresh token nor path |
| `RefreshProtocol.MemoryAndDiskAgree` | crates/gdrive-sync/src/drive_client.rs:149-219 | in every reachable state the cache at the session's path holds exactly the in-memory token |
| `RefreshProtocol.OnlyACurrentRenewalChanges` | crates/gdrive-sync/src/drive_client.rs:204-219 | a request changes session or cache only at the end of an exchange whose whole snapshot still is the session; failed writes, cancellations and newer sessions leave both unchanged |
| `RefreshProtocol.SnapshotIsStable` | crates/gdrive-sync/src/drive_client.rs:182-215 | while a request exchanges and the generation is unchanged, token and path are still what it read under the mutex, in every reachable state |
| `RefreshProtocol.ExchangeUsesLastGrant` | crates/gdrive-sync/src/drive_client.rs:187-217 | in every reachable state, an exchange presents the refresh token that the session's replies granted last if and only if that grant was installed or only repeated the refresh token the session has |
| `RefreshProtocol.DroppedRotationIsLost` | crates/gdrive-sync/src/drive_client.rs:204-219 | a run in which that fails: the reply to one exchange rotates the refresh token, writing it fails, and the next exchange presents the token that was replaced |
| `RefreshProtocol.ChainKeepsLastGrant` | crates/gdrive-sync/src/auth.rs:172-178 | over any number of renewals and dropped replies the session keeps the refresh token of its last grant, or the one before it exactly when that grant was dropped and differed; replies that omit a refresh token change nothing |
| `RefreshProtocol.OneExchangeAtATime` | crates/gdrive-sync/src/drive_client.rs:182-210 | at most one exchange is in flight |
| `RefreshProtocol.ExchangeHasCause` | crates/gdrive-sync/src/drive_client.rs:169-186 | an exchange begins only from a token near expiry or from the very token that was rejected |
| `RefreshProtocol.QuietReuse` | crates/gdrive-sync/src/drive_client.rs:178-186 | while the token is fresh and accepted, no run of any number of requests makes an exchange, and all transmit the session's token |
| `RefreshProtocol.OneRenewalServesAll` | crates/gdrive-sync/src/drive_client.rs:178-219 | one successful exchange serves every request that saw the stale token: none of them makes another one |
| `SignInProtocol.OneAttemptAtATime` | crates/gdrived/src/dbus_service.rs:51-68 | at most one sign-in attempt runs, also while sign-outs overlap, wait or time out |
| `SignInProtocol.BusyIffRunning` | crates/gdrived/src/dbus_service.rs:51-57 | sign-in is refused exactly while an attempt runs or a sign-out waits for one |
| `SignInProtocol.StaleForever` | crates/gdrived/src/dbus_service.rs:347-350 | an attempt that was overtaken can never become current again |
| `SignInProtocol.SignOutMakesStale` | crates/gdrived/src/dbus_service.rs:59-68 | every sign-out and every sign-in overtakes all earlier attempts, even a sign-out that leaves the generation alone because another one is waiting |
| `SignInProtocol.SuccessMeansUndisturbed` | crates/gdrived/src/dbus_service.rs:33-49 | an attempt that saves its token saw no sign-out and no other sign-in since it began |
| `SignInProtocol.SignOutWins` | crates/gdrived/src/dbus_service.rs:381-400 | after sign-out's critical section has removed the cache, cache and session stay gone through every run in which no later sign-in completes |
| `SignInProtocol.StaysSignedOut` | crates/gdrived/src/dbus_service.rs:377-407 | the same from any signed-out state, for any set of attempts that may still succeed |
| `SignInProtocol.ClearedCallCanRemove` | crates/gdrived/src/dbus_service.rs:383-391 | between clearing the session and removing the cache, nothing can install a session |
| `SignInProtocol.SessionIsCached` | crates/gdrived/src/dbus_service.rs:306-407 | memory and cache agree across sign-ins and sign-outs too |
| `SignInOutcomes.SignInWorks` | crates/gdrived/src/dbus_service.rs:317-373 | whenever the gate is not busy a sign-in can run to its end, and the session and its cache then are its token |
| `SignInOutcomes.SucceedsIffUndisturbed` | crates/gdrived/src/dbus_service.rs:347-364 | a sign-in with a token and a writable cache succeeds if and only if no sign-out and no other sign-in came between |
| `SignInOutcomes.CompletionOutcome` | crates/gdrived/src/dbus_service.rs:33-49 | a current attempt with a token replaces session and cache when the cache can be written; every other completion changes neither |
| `SignInOutcomes.SignInIsNewest` | crates/gdrived/src/dbus_service.rs:323-324 | the generation of a new attempt is above all others |
| `SignInOutcomes.RequestsRunBeside` | crates/gdrived/src/dbus_service.rs:306-407 | every step a Drive request can take, it can take during sign-in and sign-out, without touching their state |
| `SignInOutcomes.SignOutSectionWorks` | crates/gdrived/src/dbus_service.rs:381-400 | a sign-out can always run through its critical section; session and cache are then gone and every attempt still running is aborted |
| `SignInOutcomes.WaitingSignOutEnds` | crates/gdrived/src/dbus_service.rs:133-145 | a sign-out that waits for an attempt can come to its end and leaves the gate open |
| `SignInOutcomes.LateAttemptKeepsGateShut` | crates/gdrived/src/dbus_service.rs:148-153 | the wait can also run out; the attempt is put back and keeps the gate shut exactly until it is over |
| `Paths.JoinInjective` | crates/gdrive-sync/src/engine.rs:290-294 | a joined path determines its parent and its name |
| `Paths.ChildIsUnique` | crates/gdrive-sync/src/engine.rs:290-294 | a path lies below at most one child of a directory |
| `SyncState.StateDb.Upsert` | crates/gdrive-sync/src/state_db.rs:82-104 | exactly one row of one folder is written, or none |
| `SyncState.StateDb.Remove` | crates/gdrive-sync/src/state_db.rs:106-116 | exactly one row of one folder goes, or none; descendants keep theirs |
| `SyncState.StateDb.FindByDriveId` | crates/gdrive-sync/src/state_db.rs:118-134 | any matching row of this folder, or none exactly when there is none |
| `SyncState.StateDb.FindByLocalPath` | crates/gdrive-sync/src/state_db.rs:136-152 | the folder's row at that path, if any |
| `SyncState.StateDb.GetPageToken` | crates/gdrive-sync/src/state_db.rs:62-71 | the stored token, or none, also when the query fails once prepared; an error when it cannot be prepared |
| `SyncState.StateDb.SetPageToken` | crates/gdrive-sync/src/state_db.rs:73-80 | the folder's token and no other, or nothing |
| `SyncState.UpdatedTables` | crates/gdrive-sync/src/state_db.rs:82-104 | rows of other paths and other folders survive an upsert |
| `SyncState.RemovedTables` | crates/gdrive-sync/src/state_db.rs:106-116 | rows of other paths and other folders survive a removal |
| `Pull.PullAgrees` | crates/gdrive-sync/src/engine.rs:277-349 | whatever matching rows the table returns, a successful pull leaves each remote file with a row of its id and checksum and a local file of its content, at every depth |
| `Pull.PullAgreesIffReady` | crates/gdrive-sync/src/engine.rs:320-331 | every pull that succeeds ends in agreement if and only if rows that match a remote file describe the local file beforehand, or something local is in the way so that none can succeed |
| `Pull.CanFinishIffWritable` | crates/gdrive-sync/src/engine.rs:297-310 | some pull can run to its end if and only if no local file is where a folder belongs and no directory where a file must be written |
| `Pull.MatchingRowHidesMissingFile` | crates/gdrive-sync/src/engine.rs:326-328 | a file with a matching row but no local content: the pull succeeds without downloading it, and local and remote do not agree |
| `Pull.DescribedRowsAreReady` | crates/gdrive-sync/src/engine.rs:320-331 | that condition follows when all recorded checksums describe the local files |
| `Pull.PullAccounts` | crates/gdrive-sync/src/engine.rs:297-313 | after a pull each folder and each downloaded file is on disk and has a row with its id, kind, modification time and checksum |
| `Pull.PullStaysTelling` | crates/gdrive-sync/src/engine.rs:300-312 | a pull keeps true that a row says folder exactly where a directory is on disk |
| `Pull.PullFrame` | crates/gdrive-sync/src/engine.rs:289-315 | no row and no file outside the tree's paths is touched |
| `Pull.SiblingsApart` | crates/gdrive-sync/src/engine.rs:290-295 | different nodes of the tree never share a path |
| `Pull.SoleDownloadsAreRequired` | crates/gdrive-sync/src/engine.rs:320-331 | without rows of a file's id elsewhere, exactly the files without a matching row are downloaded |
| `Pull.SettledPullIsQuiet` | crates/gdrive-sync/src/engine.rs:306-308 | a pull of an unchanged tree onto an agreeing state downloads nothing and changes nothing |
| `Pull.SecondPullIsQuiet` | crates/gdrive-sync/src/engine.rs:277-318 | from a table without rows of the tree the first pull agrees and the second is quiet |
| `PullRun.InitialPull` | crates/gdrive-sync/src/engine.rs:277-318 | a successful run is a pull as specified and its result is the number of files downloaded in the whole recursion; a run fails only when a call does or something of the wrong kind is on disk, and leaves the state of some moment of such a pull |
| `PullRun.PullFile` | crates/gdrive-sync/src/engine.rs:305-314 | downloads exactly when the row found calls for it, and writes the row only after the file is complete |
| `PullRun.EnterFolder` | crates/gdrive-sync/src/engine.rs:297-300 | directory first, row second, whichever of the calls fails; it fails only when a call does or a file is in the way |
| `PullMoments.MomentChanges` | crates/gdrive-sync/src/engine.rs:289-315 | at every moment of a pull only the tree's own paths have changed and every new row carries an id of the tree |
| `PullMoments.AlwaysReadyIffGuarded` | crates/gdrive-sync/src/engine.rs:309-312 | matching rows tell the truth at every moment of every pull, broken writes included, if and only if they do so beforehand and no file whose own row matches has another row with its id that the pull does not overwrite first |
| `PullMoments.RepeatedPullAgrees` | crates/gdrive-sync/src/engine.rs:277-318 | from such a state a pull may fail at any moment, and a repeated one that succeeds ends in agreement |
| `PullMoments.StrayRowHidesBrokenFile` | crates/gdrive-sync/src/engine.rs:326-329 | without that condition: a second row with the file's id starts a needless download, and when its write breaks off, the file's own row hides the damage from the next pull |
| `PullMoments.AlwaysTellingIffGuarded` | crates/gdrive-sync/src/engine.rs:297-312 | rows tell files from folders at every moment of every pull if and only if they do so beforehand and no row of the other kind waits where a folder is made or a file written with nothing on disk |
| `PullMoments.KindChangeMisleads` | crates/gdrive-sync/src/engine.rs:298-300 | without that condition: a folder is made where a row speaks of a file, the new row cannot be written, and the old one misleads |
| `PullMoments.AlwaysSoundIffGuarded` | crates/gdrive-sync/src/engine.rs:289-315 | the two conditions as one theorem over all trees and states |
| `PullMoments.SafeStays` | crates/gdrive-sync/src/engine.rs:289-315 | when no row away from a file's path carries its id and matching rows tell the truth, both stay so at every moment, hence through any number of failed pulls |
| `PullMoments.MomentAt` | crates/gdrive-sync/src/engine.rs:289-315 | children pulled so far and a failure inside the next one are together a moment of the whole pull |
| `PullRun.ExtendPull` | crates/gdrive-sync/src/engine.rs:301-313 | decisions for one child join with those for its earlier siblings and are counted once |
| `Listing.ListFiles` | crates/gdrive-sync/src/drive_client.rs:257-309 | the whole listing, or an error if and only if a request failed |
| `Listing.ListedIsAllPages` | crates/gdrive-sync/src/drive_client.rs:292-305 | a listing is as long as all pages together, and item j of page i stands behind all items of the pages before; pages are described on their own, each named by its predecessor |
| `Listing.NextStartIsLastPages` | crates/gdrive-sync/src/drive_client.rs:372-381 | the next start is the one that the last of those pages names, else the token that asked for it |
| `Listing.ListChanges` | crates/gdrive-sync/src/drive_client.rs:357-382 | the whole list of changes with that next start, or an error if and only if a request failed |
| `Listing.EndIsUnique` | crates/gdrive-sync/src/drive_client.rs:372-377 | the listing is determined by the server and the first token |
| `PollRun.ApplyChange` | crates/gdrive-sync/src/engine.rs:487-530 | one change is applied as specified, or fails in one of the listed broken states with its row unchanged; it fails only when a call does or the file system does not allow it |
| `PollRun.ApplyChanges` | crates/gdrive-sync/src/engine.rs:487-531 | the loop applies the list in order, or stops in the state of a failed attempt |
| `PollRun.PollRemoteChanges` | crates/gdrive-sync/src/engine.rs:472-535 | the page token moves if and only if every change has been applied; every error on the way leaves the token and the state of a failed attempt; with a token a poll starts and succeeds unless a call fails or a change cannot be applied |
| `Poll.BrokenConverges` | crates/gdrive-sync/src/engine.rs:496-526 | redoing a change from whatever its failure left gives what one uninterrupted execution gives |
| `Poll.ReplayConverges` | crates/gdrive-sync/src/engine.rs:481-534 | a retry from the same token after a failure at any point can run through and ends in the table and files of one uninterrupted run |
| `Poll.RetriesConverge` | crates/gdrive-sync/src/engine.rs:481-534 | the same after any number of failed attempts in a row |
| `Poll.TableSettles` | crates/gdrive-sync/src/engine.rs:487-530 | after a poll, rows of removed files are gone, rows of changed files carry the remote data, and all others are as before, whatever the order of the list |
| `Poll.FilesSettle` | crates/gdrive-sync/src/engine.rs:498-526 | the files after a poll, exactly: a file is there if and only if it was there or was downloaded, and neither it nor a folder above it was removed; a downloaded one has the remote content, every other the content it had |
| `Poll.RemovalIsDone` | crates/gdrive-sync/src/engine.rs:498-508 | after a poll, for every entry that is removed, has no metadata or is in the trash: no row has its id, and neither its file nor anything below its folder is left |
| `Poll.UpdateIsDone` | crates/gdrive-sync/src/engine.rs:511-525 | for every other entry the row is still there, of the same kind and with the entry's checksum; if that is new, so are time and content |
| `Poll.RemovalCanBeDone` | crates/gdrive-sync/src/engine.rs:500-506 | where rows tell files from folders, every removal can be carried out |
| `PollTree.PulledItemCanBeRemoved` | crates/gdrive-sync/src/engine.rs:300-507 | whatever a pull has put in place can be removed by id, and then nothing of it is left |
| `Poll.PollStaysTelling` | crates/gdrive-sync/src/engine.rs:516-525 | a poll keeps rows telling files from folders if and only if every folder's row that was given content is gone from disk again |
| `Poll.FailedAttemptStaysTelling` | crates/gdrive-sync/src/engine.rs:496-526 | when folders carry no checksums, every failed attempt keeps it too |
| `Poll.FolderRenewalMisleads` | crates/gdrive-sync/src/engine.rs:511-525 | a checksum for a folder missing on disk: a file is written under a row that says folder |
| `PollTree.PollFollowsTree` | crates/gdrive-sync/src/engine.rs:487-530 | rows and files that agreed with a remote tree agree, after the poll, with the tree that the changes make of it, at every depth |
| `PollTree.PullAfterPollIsQuiet` | crates/gdrive-sync/src/engine.rs:277-535 | a pull after such a poll downloads and changes nothing |
| `Times.PullIgnoresTimes` | crates/gdrive-sync/src/engine.rs:320-331 | which pulls can happen, what they download and where they end is the same whatever the remote and recorded modification times are |
| `Times.PollIgnoresTimes` | crates/gdrive-sync/src/engine.rs:511-514 | and so are the outcomes of polls |
| `LocalChanges.HandleLocalChange` | crates/gdrive-sync/src/engine.rs:351-437 | every outcome, failures included, is one of the specified transitions; it fails only when a call does or Drive no longer has what the event needs; a reported upload is what Drive now holds for the path, a reported removal has no row left, and an old error is cleared exactly for a vanished path unknown to Drive |
| `LocalChanges.ServedWhileItemsExist` | crates/gdrive-sync/src/engine.rs:371-433 | Drive has what every event needs while the items with rows exist |
| `LocalChanges.KeyCharacters` | crates/gdrive-sync/src/engine.rs:366 | a path's key differs from it only in backslashes, which become slashes |
| `LocalChanges.EventStaysTelling` | crates/gdrive-sync/src/engine.rs:378-432 | an event keeps rows telling files from folders if and only if what it has recorded is what is on disk under the key |
| `LocalChanges.SeenEventStaysTelling` | crates/gdrive-sync/src/engine.rs:378-432 | in particular when it saw what is there |
| `LocalChanges.ParentDriveFolderId` | crates/gdrive-sync/src/engine.rs:454-470 | the tracked parent, or the root when the parent is the root or not tracked |
| `LocalChanges.MirrorsNext` | crates/gdrive-sync/src/engine.rs:371-433 | every row whose item still exists keeps naming that item's remote path, provided that what the event creates has the root or a tracked folder as parent |
| `LocalChanges.MirrorsRun` | crates/gdrive-sync/src/engine.rs:371-433 | the same over any run of creations, modifications and removals, with failures |
| `LocalChanges.CreatedIsAtIffPlaced` | crates/gdrive-sync/src/engine.rs:454-470 | a new item is at its path if and only if the parent is the root or tracked and the name needs no backslash rewriting |
| `LocalChanges.CreationMirrors` | crates/gdrive-sync/src/engine.rs:396-432 | recording a creation keeps rows true if and only if it was placed so |
| `LocalChanges.UntrackedParentBreaksMirror` | crates/gdrive-sync/src/engine.rs:464-467 | a file in an untracked directory goes to the root, and its row then names the wrong place |
| `SiblingNames.DistinctIffFree` | crates/gdrive-sync/src/engine.rs:396-432 | an event keeps the names of remote siblings distinct if and only if it makes no item or the name is free in the folder that receives it |
| `SiblingNames.UntrackedNameIsFree` | crates/gdrive-sync/src/engine.rs:399-400 | when every item has a row at its place, a path without one has a free name |
| `SiblingNames.NeatRun` | crates/gdrive-sync/src/engine.rs:371-433 | over any run in which what is created is placed and its row written, rows mirror items, every item has a row and sibling names stay distinct |
| `SiblingNames.UnrecordedUploadDuplicates` | crates/gdrive-sync/src/engine.rs:423-432 | an upload whose row is not written is made again at the next event, and the folder has two items of one name |
| `Status.StatusTracker.Start` | crates/gdrive-sync/src/sync_status.rs:46-63 | a new run replaces whatever the folder showed, errors included, as a new revision that subscribers see |
| `Status.StatusTracker.Stop` | crates/gdrive-sync/src/sync_status.rs:65-67 | the folder's entry goes; without one nothing changes, the revision included |
| `Status.FolderRun.Active` | crates/gdrive-sync/src/sync_status.rs:114-116 | only the current run shows activity, and only a change makes a revision |
| `Status.FolderRun.ClearError` | crates/gdrive-sync/src/sync_status.rs:118-120 | only the current run removes an error, of that work item alone |
| `Status.FolderRun.Finish` | crates/gdrive-sync/src/sync_status.rs:122-138 | only the current run ends activity and sets or removes the error of that work item alone |
| `Status.FolderRun.Drop` | crates/gdrive-sync/src/sync_status.rs:141-153 | a dropped run ends its activity, a panicking one with an error, a superseded one without effect |
| `StatusLog.ErrorsAreLastReports` | crates/gdrive-sync/src/sync_status.rs:101-138 | the error shown for a work item is exactly what the current run reported about it last, and none if it reported nothing |
| `StatusLog.ObsoleteRunsAreIgnored` | crates/gdrive-sync/src/sync_status.rs:101-112 | a call or drop of a stopped or superseded run changes nothing, not even the revision |
| `StatusLog.EntryIsCurrentRun` | crates/gdrive-sync/src/sync_status.rs:46-63 | a folder's entry belongs to its last start, whatever was reported since |
| `StatusLog.AbsentHasNoEntry` | crates/gdrive-sync/src/sync_status.rs:65-67 | a stopped folder has no entry until it is started again, late reports notwithstanding |
| `StatusLog.SyncingIffBusy` | crates/gdrive-sync/src/sync_status.rs:114-138 | activity is shown exactly while the current run has begun something and neither finished nor been dropped |
| `StatusLog.SyncingHasLiveRun` | crates/gdrive-sync/src/sync_status.rs:141-152 | no stuck activity: a folder shown as syncing has a current run that was not dropped |
| `StatusLog.RevisionIdentifies` | crates/gdrive-sync/src/sync_status.rs:38-44 | revisions never fall, an unchanged revision means an unchanged table, and only a start makes a revision without a change |
| `StatusDelivery.StatusSession.Receive` | crates/gdrive-ui/src/dbus_client.rs:101-104 | a session passes on its first snapshot and every later one with a higher revision |
| `StatusDelivery.ShownIsLastAnswer` | crates/gdrive-ui/src/dbus_client.rs:93-104 | after each answer the display shows exactly that answer, passed on or skipped, across reconnects and daemon restarts |
| `StatusDelivery.RoundTripShowsPresent` | crates/gdrive-ui/src/dbus_client.rs:94-115 | one undisturbed round trip makes the display show the daemon's present state |
| `StatusDelivery.ConnectingShowsPresent` | crates/gdrive-ui/src/dbus_client.rs:63-104 | a display without a session can connect, read and receive, and then shows the present state |
| `StatusDelivery.ConnectedCanRead` | crates/gdrive-ui/src/dbus_client.rs:94-104 | a session with the living daemon can always go on reading |
| `StatusDelivery.TableIsReplay` | crates/gdrive-sync/src/sync_status.rs:38-87 | the table that is read is what the reports since the last start of the daemon make of it |
| `StatusDelivery.LossIsShown` | crates/gdrive-ui/src/dbus_client.rs:53-58 | a lost session is shown as unavailable |
| `StatusDelivery.RevisionsGrow` | crates/gdrive-ui/src/dbus_client.rs:101-104 | within a session delivered revisions only grow, and the display changes only with them |
| `Engine.SyncEngine.StartFolder` | crates/gdrive-sync/src/engine.rs:133-167 | a previous task of the folder is aborted, and task and status entry carry the same fresh generation |
| `Engine.SyncEngine.StopFolder` | crates/gdrive-sync/src/engine.rs:171-177 | task and status entry of the folder go together |
| `Engine.SyncEngine.StartAll` | crates/gdrive-sync/src/engine.rs:193-197 | exactly the enabled folders are started, in order |
| `Service.ServiceState.AddSyncFolder` | crates/gdrived/src/dbus_service.rs:242-252 | the folder is added and, if enabled, started, or after a failed save nothing changes |
| `Service.ServiceState.RemoveSyncFolder` | crates/gdrived/src/dbus_service.rs:256-265 | every entry with the id goes and its task stops, or after a failed save nothing changes |
| `Service.ServiceState.SetFolderEnabled` | crates/gdrived/src/dbus_service.rs:269-290 | an unknown id is an error; otherwise flag, file and task follow each other, or after a failed save nothing changes |
| `Service.ServiceState.CompleteSignIn` | crates/gdrived/src/dbus_service.rs:33-49 | only the current generation saves its token, and only after saving it are folders started, from the live configuration |
| `Service.ServiceState.SignInBusy` | crates/gdrived/src/dbus_service.rs:51-57 | the busy test the protocol is proved for |
| `Service.ServiceState.CancelSignIn` | crates/gdrived/src/dbus_service.rs:59-68 | one sign-out takes and aborts the attempt; another one meanwhile takes nothing and leaves the generation |
| `Service.ServiceState.FinishSignInCancellation` | crates/gdrived/src/dbus_service.rs:133-155 | the wait ends in every case, and an attempt that is still running is put back |
| `Service.ServiceState.SignOutSection` | crates/gdrived/src/dbus_service.rs:381-400 | gate, session, cache and folders all change in one section, and folders stop even when the cache cannot be removed |
| `Alignment.TablesStayAligned` | crates/gdrived/src/dbus_service.rs:242-289 | over every run, tasks and status have the same folders, all enabled in the live configuration, and the saved configuration is the live one |
| `Alignment.SignOutStopsEverything` | crates/gdrived/src/dbus_service.rs:393-395 | sign-out empties task table and status table |
| `Alignment.CompletionRunsLiveConfig` | crates/gdrived/src/dbus_service.rs:44-48 | a completed sign-in runs exactly the folders enabled by then, and they stay exactly the running ones until a sign-out |
| `Alignment.BootRunsEnabled` | crates/gdrived/src/main.rs:60-62 | a start-up with a cached token runs exactly the enabled folders |
| `Alignment.AddingAddsOne` | crates/gdrived/src/dbus_service.rs:242-252 | after adding, the configuration holds the folder and all it held, and the folder runs if enabled; after a failed save all is as before |
| `Alignment.RemovingRemovesOne` | crates/gdrived/src/dbus_service.rs:256-265 | after removing, exactly the folder's entries are gone and it does not run; after a failed save all is as before |
| `Alignment.SwitchingSwitchesOne` | crates/gdrived/src/dbus_service.rs:269-290 | after switching, exactly that folder's flag is the given one and it runs or not accordingly; after a failed save all is as before |
| `Alignment.OneWorkerPerFolder` | crates/gdrive-sync/src/engine.rs:128-137 | of all workers ever started for a folder at most one was not aborted |
| `Alignment.SyncingFolderHasTask` | crates/gdrive-sync/src/engine.rs:144-166 | a folder shown as syncing has a task, and that task's run was not dropped |
| `Ui.PendingRequest.Cancel` | crates/gdrive-ui/src/dbus_client.rs:186-191 | the attached task goes, and completions of all earlier generations are disowned |
| `Ui.PendingRequest.Finish` | crates/gdrive-ui/src/dbus_client.rs:202-208 | a completion is accepted exactly if it is of the current generation; others change nothing |
| `Ui.SyncManager.OnAuthentication` | crates/gdrive-ui/src/cxxqt_object.rs:308-322 | an authentication event disowns the snapshot under way before it asks for another one |
| `Ui.SyncManager.Refresh` | crates/gdrive-ui/src/cxxqt_object.rs:340-433 | nothing happens while busy or refreshing; a request that cannot be dispatched leaves no indicator up |
| `Ui.SyncManager.OnSnapshot` | crates/gdrive-ui/src/cxxqt_object.rs:347-426 | an outdated completion changes nothing; an accepted one updates the window as specified |
| `Ui.SyncManager.Mutate` | crates/gdrive-ui/src/cxxqt_object.rs:435-481 | an operation is refused while another runs; otherwise it disowns the snapshot under way |
| `Ui.SyncManager.OnMutation` | crates/gdrive-ui/src/cxxqt_object.rs:452-474 | an outdated completion changes nothing; an accepted one sets the message as specified and asks for a snapshot |
| `Ui.SyncManager.ListDriveFolders` | crates/gdrive-ui/src/cxxqt_object.rs:527-565 | a new listing disowns the one before it |
| `Ui.SyncManager.OnBrowse` | crates/gdrive-ui/src/cxxqt_object.rs:534-557 | an outdated listing changes nothing; an accepted one ends loading, with folders or with an error |
| `Ui.SyncManager.CancelDriveFolders` | crates/gdrive-ui/src/cxxqt_object.rs:567-570 | the listing is disowned and its indicator goes out |
| `UiProtocol.FlagsTellOutstanding` | crates/gdrive-ui/src/cxxqt_object.rs:340-481 | each indicator is up exactly while one request of its current generation is outstanding, whatever stale completions are queued |
| `UiProtocol.FlagsExclude` | crates/gdrive-ui/src/cxxqt_object.rs:435-474 | operation and refresh indicators are never both up, and waiting for sign-in implies its message is still held |
| `UiProtocol.AppliedSnapshotsAreFresh` | crates/gdrive-ui/src/cxxqt_object.rs:308-351 | no snapshot requested before an accepted operation or an authentication event is ever applied |
| `UiProtocol.ActionErrorStays` | crates/gdrive-ui/src/cxxqt_object.rs:409-419 | an operation's error outlives every refresh and every authentication event until the next operation |
| `UiProtocol.PollShowsActionError` | crates/gdrive-ui/src/cxxqt_object.rs:409-419 | every successful refresh meanwhile shows that error again |
| `UiOutcomes.AcceptedSnapshotShows` | crates/gdrive-ui/src/cxxqt_object.rs:389-420 | an accepted snapshot shows its folders as connected; signed-in state and the message of a waiting sign-in follow it only if no authentication event came between |
| `UiOutcomes.FailedSnapshotShows` | crates/gdrive-ui/src/cxxqt_object.rs:421-424 | a failed one shows its error as disconnected and keeps the rest |
| `UiOutcomes.AcceptedMutationShows` | crates/gdrive-ui/src/cxxqt_object.rs:456-472 | a finished operation leaves its error or success message, an overtaken sign-in none, and only a sign-in goes on waiting |
| `UiOutcomes.AcceptedBrowseShows` | crates/gdrive-ui/src/cxxqt_object.rs:538-556 | a finished listing shows its folders or its error and nothing else changes |
| `UiOutcomes.UnexpectedResponseShows` | crates/gdrive-ui/src/cxxqt_object.rs:387-424 | a response of another kind is shown as an error |
| `UiOutcomes.IdleRefreshSends` | crates/gdrive-ui/src/cxxqt_object.rs:340-347 | an idle window that refreshes has a request under way that nothing has overtaken |
| `UiOutcomes.IdleMutateSends` | crates/gdrive-ui/src/cxxqt_object.rs:435-452 | an operation is sent unless one is running, which is then said |
| `UiOutcomes.FinishedMutationRefreshes` | crates/gdrive-ui/src/cxxqt_object.rs:452-474 | a finished operation is followed by a new snapshot |
| `UiOutcomes.AuthenticationEventShows` | crates/gdrive-ui/src/cxxqt_object.rs:308-322 | an authentication event shows the new state at once, drops the message of a waiting sign-in and, unless an operation runs, has a new snapshot under way |
| `UiOutcomes.BrowseSends` | crates/gdrive-ui/src/cxxqt_object.rs:527-536 | a listing is always sent and clears what was shown |
| `UiOutcomes.UnsentRequestShowsWhy` | crates/gdrive-ui/src/cxxqt_object.rs:427-431 | a request that cannot be dispatched shows why and leaves no indicator up |
| `UiOutcomes.HeldWhileShown` | crates/gdrive-ui/src/dbus_client.rs:178-208 | in every reachable state a task is held for a request exactly while its indicator is up |

## Left out

- HTTP, TLS, JSON, the OAuth wire format and PKCE: an exchange, listing, transfer or authorization is a step that returns a value or an error.
- Clocks and deadlines: time is an argument of the expiry test, and a deadline is a cancellation that may happen at any await point.
- SQLite: the state table is a map, and a statement either takes effect or fails.
- The local modification time of a row: written but never read, so the tables compared in theorems do not have it.
- Owner and group of files, `notify` and its classification of events, and XDG paths: operating-system plumbing; a failing ownership change is one more point where a step may fail.
- The select loop of `run_folder`, the first page token, and changes made remotely between the pull and that token: the code does not promise to see them.
- Remote moves, renames, duplicate names, exports of Google documents and conflicts: declared limits of the client.
- Files without a checksum in the initial pull: assumed away as described above.
- Other D-Bus methods, zbus, QML, tray and dark-mode request: transport and display.
- The text form of status errors and `summarize_sync_status`: one branch each.
- TOML encoding of the configuration: a save either happens or fails.
- Replies of the token server that never arrive, and those that arrive for a session that has ended: they are not recorded as grants.
- Fairness of the refresh mutex: no theorem says that a waiting request ever gets it.
- `Service.ServiceState.SignOutSection`: the signal sent before the lock is released is not modelled, because clients take it only as a hint to read again.
- `Status.StatusTracker.Start`: map update and notification are one step, because the tracker's lock covers both.
- `Listing.ListFiles`: the server's pages are a function of the page token, so a listing that changes between pages is not covered.
