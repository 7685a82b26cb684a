# Win16Sync: the synchroniser's logic, modelled and proved

Win16Sync keeps the files of a Linux server and of a Win16 client equal. The server, in Rust, compares three
things for every path: what it has, what the client says it has, and what the last completed session saved. From
that it plans downloads, uploads, deletions and conflicts, and the client, in C, carries them out over one TCP
connection. This project is a Dafny model of both programs with proofs about it; `dafny verify dfyconfig.toml` checks
the whole of it.

## How the model is built

A world is the server's files, the client's files and the saved state; a file is its content and its DOS stamp.
Paths are protocol paths: upper-case 8.3 components joined by `/`, which are also the keys of both disks.

* `Manifests`, `Planner`, `Rounds`: the comparisons between revisions, the plan, and what one round does. The loops
  of the server are methods, each proved to compute a function; the theorems are about those functions.
* `Agreement`, `Quiescence`, `Resume`: what rounds achieve. A round acts on every path by itself
  (`Rounds.RoundIsPathwise`), so each theorem is proved for one path, as a `Cell` of two files and an entry, and
  lifted to worlds.
* `LocalPaths`, `Delivery`, `SyncServer`: a session that plans from a manifest which may be older than the disk, and
  from CRCs which may be older than the client's files. What can stop it is a buffer of the client, or a file that is no
  longer what its side listed. `SyncServer` is the server as an object whose disk, cached manifest and saved state a
  session updates. `Standstill`: sessions that are stopped again and again.
* `CrcCache`, `ClientScan`: the client's CRC cache, and what a scan reports from it. `Manifests.Crcs` stands for a
  report: CRCs off, or on with the cache's answers; the files' own CRCs are the case without answers.
* `History`, `SoloRuns`, `Losses`, `Recovery`: runs of edits, scans, sessions, lost connections and client restarts, what
  such a run can lose, and how it recovers.
* `StoredStamps`: the round once more, with the stamps as the server's file system gives them back.
* `Session`, `Lockstep`, `LockstepProof`, `Sessions`: both programs as automata over two FIFO channels, under every
  interleaving. `Lockstep` lists the phases of a session, `LockstepProof` shows that every step leads from phase to
  phase, and `Sessions` draws the conclusions.
* `Numerals`, `HexText`, `Lines`, `Wire`: the text of the messages, printed in one language and parsed in the other.
* `RecvBuffer`, `Transfer`, `Versions`: the client's buffers, the file transfers and its version comparison.
* `Crc32`, `Calendar`, `DosStamp`, `Names`, `Ordering`: arithmetic, names and the order of paths.

`same_revision` compares CRCs when both are known and stamps otherwise. With the client's CRCs switched off it is not
transitive, and several theorems have to hold in that mode too. They rest on what every saved entry keeps: both sides
are recorded, the server's CRC is known, the sizes are equal, and so are the CRCs when both are known.

By default the client reports a CRC from its cache whenever size and stamp match. `Delivery`, `SyncServer`, `Session`
and its followers, `History`, `Losses` and `StoredStamps` take whatever is reported. `Quiescence`, `Resume` and
`Standstill` are about scans that report the files' own CRCs, and the theorems of `Agreement` say for which path they
need that. `ClientScan.TrueReportIsScan` carries the former over to every true report, and
`History.DistinguishedRunsScanTruly` says when a run has only true ones.

## What turned out otherwise than the program promises

The program's README promises conflict detection instead of silent overwriting (README.md:10). It also ignores names
and sizes it cannot handle (README.md:14-15). The proofs give the exact conditions under which the code keeps this.

* When a session replaces or removes a file, the saved state records exactly that revision if and only if the plan was
  made with the file in view - the client's scan sees it, or the manifest shows this revision of the server's file - and
  a client file that was compared by CRC was reported with its own (`History.NoSilentOverwrite`). So a server file edited
  since the last scan is replaced by an upload without a conflict, and a client file whose CRC came stale from the cache
  by a download. Even from a fresh scan and with true CRCs (`History.NoSilentOverwriteFresh`) a server file above 2 GiB
  is replaced by an upload, and a client file under a reserved name, its own settings for instance, by a download
  (`Losses.OversizedFileOverwritten`, `Losses.HiddenClientFileOverwritten`).
* A server file in a directory whose name has an extension, or with a reserved file name, is listed by the server but
  never by the client. The first session sends it down; the second takes its absence in the client's list for a
  deletion and removes it from the server. A file that only the server has is still there after two sessions if and only
  if the client can report its path, or the server's scan does not see it, or the client cannot take the download, as it
  cannot take one called `SYNC.$$$` (`Losses.UnreportableFileIsDestroyed`). The cause is that the directory clause of
  the server's name check never fires, because an earlier branch has already accepted the name (`Names.ServerNames`).
* A client file is replaced or removed exactly if it looks as recorded, whatever its bytes, and the server's does not
  (`Losses.HiddenEditIsLost`). With CRCs off or not recorded that takes the same size and stamp, with CRCs on the same
  size and the CRC that the cache answers, which again is a matter of size and stamp. So in both modes there are runs in
  which an edit that keeps both is lost without a conflict (`Losses.EditIsLostInRun`).
* A conflict is reported again exactly if both files are there and, with CRCs off, differ in size
  (`Agreement.ConflictReportedAgain`); otherwise it is recorded as settled (`Losses.ConflictForgottenInRun`), or one
  side gives way in silence.
* A session from a fresh scan completes exactly if every planned action has a path of fewer than 144 characters, every
  download and every deletion on the client a local path of fewer than 144 characters, root included, every download
  as much room for the temporary file beside it, no download is called `SYNC.$$$`, the client's temporary name, and the
  CRC reported for every planned upload is the file's own (`Sessions.FreshOutcome`, `LocalPaths.TempPathFits`). One file
  that fails this stops every later session: an upload with a stale CRC as long as the cache answers for it
  (`Losses.UploadRefusedForEver`), the others for good (`Standstill.StoppedSessionRests`).
* A session from an older manifest completes exactly if, besides, the server still holds every file it is to send as
  the manifest shows it (`Delivery.SessionIsRound`). A file that has become shorter leaves both sides waiting. Of one
  that has grown the client keeps the announced beginning and answers OK, and the bytes left over stand before the
  server's next line (`Delivery.GrownFileIsCut`); if it was the last action, the server saves its state as after a success.
* A root directory that is a single backslash is lost: the client's local paths become relative
  (`LocalPaths.LocalPathIs`).
* A stored stamp is what the next scan reports exactly if it names a real date and time
  (`DosStamp.StoredStampReturns`); 30 February comes back as 1 March. After a round the server's manifest is what a
  scan would give exactly if all uploaded stamps are real (`StoredStamps.ManifestTracksStored`).
* The CRC cache can report an old CRC although every edit changes size or stamp: two edits between scans can restore
  both (`CrcCache.TwoShowingEditsHideAChange`). It is right in every run exactly if no two files that ever stand at a
  path agree in size and stamp but not in CRC (`CrcCache.AlwaysTrueIffDistinguishing`).
* The counts in DONE reach the client's 16-bit `int` unchanged exactly if both are below 32768
  (`Wire.DoneCrosses`).
* The version comparison is a total preorder on the strings in which every number is read to its end, dotted decimals
  among them. A string takes its place in the order of the dotted decimals if and only if it is one of these
  (`Versions.OrderlyIffClean`).

## Where the modelling functions come from

The rows below name contracts. The functions those contracts are about follow these parts of the program:

- `Manifests.SameRevision`, `SameStateItem`, `SameLiveItems`, `SameWithoutCrcBootstrap`: server/src/main.rs:1796-1850.
  `ScanServer` and `ScanClient`: server/src/main.rs:975-1048 and client/proto.c:1145-1245.
- `Planner.PlanPath`: server/src/main.rs:674-753. `Rounds.Perform`: server/src/main.rs:504-571. `Rounds.Predict` and
  `EntryAfter`: server/src/main.rs:758-830.
- `LocalPaths.LocalPath` and `TempPath`: client/proto.c:184-257. `Delivery.ResultOf` and `EffectOf`:
  server/src/main.rs:504-571, 832-864 and 893-958, client/proto.c:1339-1473 and 1845-1936. `Delivery.SessionFrom`:
  server/src/main.rs:398-594. `ClientScan.ScanOne` and `ActionCache`: client/proto.c:1104-1138, 1464-1468 and 1928.
- `Session.ServerStep`: server/src/main.rs:411-594 and 606-656. `Session.ClientStep`: client/proto.c:1682-1971, with
  1339-1532 for the transfers.
- `Crc32.ServerByte` and `ClientByte`: server/src/main.rs:1519-1531 and client/proto.c:941-960.
- `Calendar.DaysFromCivil` and `CivilFromDays`: server/src/main.rs:1577-1620. `DosStamp.SystemTimeToDos`,
  `DosTimeToUnix` and `StoredThenScanned`: server/src/main.rs:1533-1599.
- `Names.IsValidFatComponent` and `NormalizeProtocolPath`: server/src/main.rs:1622-1700.
- `Wire.ReadMeta`: server/src/main.rs:620-635 and 893-912. `Wire.ClientReads`: client/proto.c:1845-1936. The `Print`
  functions: client/proto.c:1482-1490 and 1822-1830, server/src/main.rs:517-563, 575-581, 838-847 and 872-886.

## Model

| member | source | states |
|---|---|---|
| Manifests.SameRevisionChains | server/src/main.rs:1842-1850 | For given CRCs known or not, two equal comparisons can always be chained if and only if the outer CRCs are both known or both unknown where the middle one is known, and not both known where it is not. |
| Manifests.SameRevisionNotTransitive | server/src/main.rs:1842-1850 | There are three fingerprints with one stamp for which chaining fails. |
| Planner.DecidePath | server/src/main.rs:674-753 | The nested branches of the planning loop decide each path as the three-way comparison does. |
| Planner.BuildSyncActions | server/src/main.rs:658-756 | The plan is the list of decisions over all known paths, in ascending order. |
| Planner.DecisionWithoutEntry | server/src/main.rs:695-712 | For a path never saved, a file on one side is copied, and two files are a conflict if and only if they differ in size or have different known CRCs. |
| Planner.DecisionWithEntry | server/src/main.rs:714-752 | For a saved path, there is each kind of action exactly if the one side that is no longer as recorded calls for it, and a conflict exactly if neither is, unless both files are gone or alike. |
| Planner.PlannedItems | server/src/main.rs:698-752 | Every action carries exactly what the planner was shown for its path, a conflict both items in their places. |
| Planner.PlanIsSorted | server/src/main.rs:664-676 | Of two planned paths the one with the smaller character at the first difference, or that ends there, comes first. |
| Planner.PlanExact | server/src/main.rs:658-756 | No path has two actions, every action is the decision for its path, and every decision is in the plan. |
| Planner.RoleDuality | server/src/main.rs:658-756 | Swapping the two sides in all three inputs gives the same plan in the same order, with the roles of all actions swapped. |
| Rounds.ApplyActionsToClientManifest | server/src/main.rs:758-785 | The loop over the mutated manifest computes the predicted client manifest. |
| Rounds.BuildStateAfterSync | server/src/main.rs:787-830 | The loop saves exactly the pairs present on both sides that agree, or agree in size with a CRC unknown. |
| Rounds.SavedPairs | server/src/main.rs:801-827 | A path is saved if and only if it is on both sides, with equal sizes and no two different known CRCs; the entry holds both fingerprints and both stamps. |
| Rounds.ConflictCountIs | server/src/main.rs:541-565 | The conflicts counted are the conflict actions of the plan. |
| Rounds.PerformTouchesOnePath | server/src/main.rs:504-573 | Carrying out an action changes its own path, as its kind says, and no other. |
| Rounds.RoundIsPathwise | server/src/main.rs:504-578 | After a whole round, the files and the saved entry of a path depend on that path's files and entry alone. |
| Agreement.RoundSavesGoodState | server/src/main.rs:787-830 | Whatever state a round started from, every entry it saves has both sides, a known server CRC, equal sizes, and equal CRCs when both are known. |
| Agreement.ManifestTracksDisk | server/src/main.rs:504-573 | The server manifest updated action by action equals a fresh scan of the server's disk, where stamps stay as they were sent. |
| StoredStamps.ManifestTracksStored | server/src/main.rs:1591-1599 | With stamps as the file system gives them back, whenever the uploads were written, it does if and only if every uploaded stamp names a real date and time. |
| StoredStamps.RealWorldStays | server/src/main.rs:1591-1599 | Where all stamps are real, a round stores every stamp as it was sent and leaves such a world again. |
| Agreement.BeliefMatchesReality | server/src/main.rs:758-785 | Where two scans report a path truly, the predicted client manifest matches the second scan, CRCs on or off in either, if the path is reportable, and at any other path exactly if nothing was downloaded there. |
| Agreement.OneRoundAgreement | server/src/main.rs:684-753 | Where the scans before and after a round report a reportable path truly, both sides then agree there if and only if it had no latent divergence and no conflict, other than, with CRCs off, one between two present files of equal size; a latent divergence leaves the state and is the next round's conflict. |
| Agreement.ConflictReportedAgain | server/src/main.rs:801-827 | Where the scans report a path truly, its conflict is reported again by the next round if and only if both scans show the file and, with CRCs off, the two differ in size. |
| Quiescence.SecondRoundExplained | server/src/main.rs:658-830 | Without edits and with true scans the second round acts only where the first reported a conflict, met a latent divergence, or downloaded to a path the client cannot report. |
| Quiescence.StandingPlan | server/src/main.rs:658-830 | With true scans, from the fourth completed round on the plan is exactly the conflicts between two present files that differ; from the third if the client can report every path the server lists. |
| Quiescence.QuiescentFixpoint | server/src/main.rs:658-830 | From any world, after three completed rounds with true scans the whole world, saved state included, no longer changes. |
| Quiescence.FilesAtRest | server/src/main.rs:658-830 | After three completed rounds with true scans no file changes on either side; after two if the client can report every path the server lists. |
| Quiescence.TwoRoundsDestroy | client/proto.c:1175-1206 | After two completed rounds, which takes that the client can take the download, a new server file is still on the server if and only if the client can report its path. |
| Resume.ResumedPlan | server/src/main.rs:504-573 | If a session dies after k actions and both sides are rescanned truly, the new plan is, in this order, the conflicts and the downloads to unreportable paths among those k, and the actions not yet carried out. |
| Resume.ResumedRound | server/src/main.rs:504-578 | The resumed round leaves both disks as the uninterrupted one would, and the saved state too if and only if CRCs are on or none of those k actions was a download to a reportable path. |
| Resume.ResumedFromStaleManifest | server/src/main.rs:398-409 | So does a round planned from the server manifest cached before the session died. |
| Standstill.StoppedSessionRests | server/src/main.rs:504-578 | A session with true, fresh scans that an action stops, other than a remote deletion, leaves a world in which the next stops at the same action and changes nothing, and so every later one. |
| Recovery.CutThenCompleted | server/src/main.rs:398-409 | After a lost connection the next session, planned from the manifest of the first, completes to what one uninterrupted round leaves: both disks, and the saved state too if and only if CRCs are on or the first session fetched nothing reportable. |
| ClientScan.ReportIsCached | client/proto.c:1119-1129 | The CRC a scan reports for a file is the one the cache gives at that moment of the scan, or the file's own. |
| ClientScan.DistinguishedScanIsTrue | client/proto.c:1119-1129 | If every cached CRC is that of a file that once stood at its path, and size and stamp tell apart the CRCs of these, every scan reports the files' own CRCs. |
| ClientScan.TrueReportIsScan | client/proto.c:1119-1129 | From a true report plan, round and session are those of a client without cache. |
| ClientScan.TryLeavesDownloads | client/proto.c:1464-1468 | Every download answered with OK stands on the client's disk with the size and stamp, and with CRCs on the CRC, that the cache remembers. |
| History.RunKeepsSound | server/src/main.rs:398-409 | In every run the saved entries stay good, and the cached manifest, however old, shows only revisions the server held at some time. |
| History.UnsavedKeepsManifest | server/src/main.rs:504-568 | A session that does not save, and one cut off, leave the manifest they were planned from for the next. |
| History.SavedUpdatesManifest | server/src/main.rs:568 | One that saves leaves it as its uploads and remote deletions have changed it, path by path. |
| History.OneManifestTillNextScan | server/src/main.rs:398-409 | Once a manifest is cached, all sessions up to the next scan or saved session plan from it. |
| History.LastAnswerCached | client/proto.c:1464-1468 | After a session the cache goes by the last action answered: a download, cut short or not, is remembered as announced, or with CRCs off forgotten, as a deleted file is. |
| History.RunRemembers | client/proto.c:1027-1079 | In every run each CRC in the client's cache is that of a file that once stood at its path. |
| History.DistinguishedRunsScanTruly | client/proto.c:989-1025 | In a run in which size and stamp tell apart the CRCs of the files that ever stood at a path, every scan reports the files' own CRCs. |
| History.RunKeepsStateShared | server/src/main.rs:787-830 | In every run whose sessions have CRCs on and scan truly, from whatever manifests, each saved entry names one revision that the client held at the end of a saved session and the server then or before. |
| History.RunKeepsStateBacked | server/src/main.rs:787-830 | If every session scanned truly and was planned from a fresh scan of the server, CRCs on or off, each saved entry with a known client CRC names a revision both sides held at once. |
| History.NoSilentOverwrite | server/src/main.rs:714-752 | In every run, from whatever manifest and cached CRCs, a file about to be replaced or removed is the revision recorded for its side if and only if the client's scan sees it or the manifest shows this revision of it, and a client file compared by CRC was reported with its own; with CRCs on and true scans throughout, both sides have held it. |
| History.NoSilentOverwriteFresh | server/src/main.rs:714-752 | From a fresh scan, where size and stamp distinguish the client's files, the condition is that the file's own side's scan sees it; where all sessions were fresh, with CRCs on, both sides held it at once. |
| Losses.HiddenEditIsLost | server/src/main.rs:1842-1850 | From any manifest and any reported CRCs, a visible client file is replaced or removed if and only if, as reported, it looks as recorded and the manifest shows something else than was recorded for the server and than is reported. |
| Losses.EditIsLostInRun | client/proto.c:1119-1129 | A run in which an edit that keeps size and stamp is lost that way, and no conflict is reported: with CRCs off, and with CRCs on while the cache answers for the file. |
| Losses.ConflictForgottenInRun | server/src/main.rs:801-827 | A run whose session reports a conflict and leaves both files as they are, and whose next session has nothing to do. |
| Losses.UploadRefusedForEver | server/src/main.rs:937-943 | A run after which every session that scans without rechecking is refused over an upload with a stale CRC, though the client can take its whole plan. |
| Losses.UnseenFileOverwritten | server/src/main.rs:695-712 | If two files meet in a first session and one of the scans does not see its own, there is no conflict, and the other file, if its scan sees it, replaces it. |
| Losses.SeenFilesMeet | server/src/main.rs:695-712 | If both scans see their files in a first session, both stay; there is a conflict, with both items, if and only if they differ in length or, with CRCs on, in CRC, and otherwise the pair is saved. |
| Losses.UnreportableFileIsDestroyed | client/proto.c:1175-1206 | A file that only the server has is still there after two sessions if and only if the client can report its path, the server's scan does not see it, or the client cannot take the download. |
| Losses.OversizedFileOverwritten | server/src/main.rs:1012-1022 | A server file above the size limit is replaced in the first session by an unrelated upload. |
| Losses.HiddenClientFileOverwritten | client/proto.c:1202-1206 | The client's W16SYNC.INI is replaced in the first session by the server's. |
| LocalPaths.ProtoProtocolToLocal | client/proto.c:202-237 | The buffer gets the root, a separator and the path with its slashes turned, and the call fails exactly if that does not fit. |
| LocalPaths.LocalPathIs | client/proto.c:202-237 | The path stands behind the root and one separator if the root does not end in a backslash with nothing, or another separator, before it; otherwise the root loses that backslash. |
| LocalPaths.LocalComponents | client/proto.c:231 | No slash of the path is left, and between the backslashes stand its components. |
| LocalPaths.ProtoBuildTempPath | client/proto.c:239-257 | The buffer gets the local path with its file name exchanged for the temporary one, and the call fails exactly if that does not fit or the path is empty. |
| LocalPaths.TempPathIs | client/proto.c:239-257 | The temporary file stands in the target's directory under the temporary name. |
| LocalPaths.LocalPathFits | client/proto.c:1360-1363 | A download has a local path exactly if the root with its separator and the path have fewer than 144 characters. |
| LocalPaths.TempPathFits | client/proto.c:1364-1367 | It has a temporary path exactly if the root, the path's directory and the temporary name have fewer than 144 characters. |
| LocalPaths.TempIsTarget | client/proto.c:1370 | The temporary file is the target itself exactly if the file bears the temporary name. |
| Delivery.FitsExactly | client/proto.c:1360-1367 | Whether the client's buffers hold an action's paths is what its path functions say for its root. |
| Delivery.SessionIsRound | server/src/main.rs:498-578 | Planned from any manifest and any reported CRCs, a session carries out its whole plan if and only if the client can take every action and the side that is to send a file still holds it as it was listed; it is then the atomic round from that manifest and report. |
| Delivery.SessionStops | server/src/main.rs:504-571 | Otherwise it carries out the actions before the first that meets an obstacle, which the two disks and the client's limits at the start decide; after a surplus the server has also begun the action behind it. |
| Delivery.UploadHeld | server/src/main.rs:937-943 | A planned upload's file is on the client's disk, and held as listed if and only if its CRC was reported truly. |
| Delivery.FreshIsHeld | server/src/main.rs:504-573 | From a fresh scan every file to be sent is held as listed if and only if the CRCs of the planned uploads are reported truly. |
| Delivery.GrownFileIsCut | server/src/main.rs:857-862 | Of a file that has grown since the scan the client stores the announced beginning; the rest stands before the server's next line. |
| Delivery.DownloadBlocks | server/src/main.rs:857-862 | A download leaves both sides waiting if and only if the client can take it and the file is shorter than announced. |
| Delivery.DownloadSurplus | client/proto.c:1404-1438 | It leaves a surplus if and only if the client can take it, the file is longer, and its announced beginning passes the check. |
| Delivery.AfterSurplus | server/src/main.rs:504-578 | After a surplus the server saves and caches as after a success if that was the last action; otherwise it does neither, and has carried out a remote deletion that comes next. |
| Delivery.SavedSessionAt | server/src/main.rs:504-578 | After any session the server saves, every path is as its action leaves it, with downloads as far as the client takes them. |
| SyncServer.Server.SendActionDownload | server/src/main.rs:832-864 | The whole file is sent: shorter than announced, both sides wait; longer, the client stores the beginning and the rest stays in the stream; refused if it is gone, does not fit, bears the temporary name or, with CRCs on, the beginning has another CRC. |
| SyncServer.Server.ReceiveUpload | server/src/main.rs:866-958 | An upload succeeds exactly if its path fits and the client's file has the announced length and, if known, CRC; the manifest item it returns describes the stored file. |
| SyncServer.Server.CarryOut | server/src/main.rs:504-571 | One turn of the action loop has the effect of its action, or of the obstacle it meets. |
| SyncServer.Server.CarryOutAll | server/src/main.rs:504-571 | The loop carries out actions up to the first obstacle, after a surplus also the beginning of the next one, and counts the conflicts of those carried out. |
| SyncServer.Server.HandleSyncClient | server/src/main.rs:398-591 | A session, from the cached manifest or a first scan and from whatever the client reports, is the one Delivery.SessionFrom determines: both disks, the saved state, the manifest cached for the next and the counts for DONE; if it does not save, state and cached manifest are those it started from. |
| Session.ServerTakesExactly | server/src/main.rs:411-656 | In every state the server goes on with exactly the messages the protocol calls for there, a PUT only if it repeats what was asked for, data only of the announced length and CRC; any other ends the session and changes nothing else. |
| Session.ItemIsListed | server/src/main.rs:606-656 | An item is listed under its normalised path, and passed over if it is larger than 2 GiB. |
| Session.ClientTakesExactly | client/proto.c:1843-1947 | In every state the client goes on with exactly the messages and orders it can take; any other ends the session and changes nothing else. |
| LockstepProof.ServerMoves | server/src/main.rs:411-594 | From every phase of a session, a step of the server leads to the state of its next phase. |
| LockstepProof.ClientMoves | client/proto.c:1682-1971 | From every phase of a session, a step of the client leads to the state of its next phase. |
| Sessions.NoProtocolError | client/proto.c:1843-1947 | Under every interleaving neither side meets an unexpected message; the client gives up only over a plan holding an action it cannot take, its local and temporary paths included, the server only over an upload that is not as listed, and then the saved state is the old one. |
| Sessions.SessionOutcome | client/proto.c:1843-1971 | When nobody can move any more the client has closed, exactly if it can take every action of the plan and the files to be sent are as listed, or one side has given up: there is no deadlock. |
| Sessions.FreshOutcome | client/proto.c:1843-1971 | From a fresh scan the client closes exactly if it can take every action and has reported the CRCs of the planned uploads truly. |
| Sessions.SessionEndsAsDelivered | server/src/main.rs:498-591 | When nobody can move any more, both disks and the saved state are those of Delivery.SessionFrom. |
| Sessions.SessionTerminates | client/proto.c:1843-1971 | Under every schedule the number of steps that either automaton takes is bounded by the sizes of plan and manifest. |
| Sessions.SessionCanFinish | client/proto.c:1843-1971 | From wherever a session has got to, some schedule brings it to a state where nobody can move, so every run that goes on while somebody can ends as SessionOutcome says. |
| Sessions.SessionRefinesRound | server/src/main.rs:498-591 | A completed session equals one atomic round from the same manifest and report: files, saved state, and the action and conflict counts the client reports. |
| Sessions.SessionCutShort | server/src/main.rs:504-578 | Cut off anywhere, a session is complete and saved, or has carried out a prefix of its plan and saved nothing; on the way to a download onto its temporary name the client has besides deleted that file. |
| Crc32.ProtoCrc32Step | client/proto.c:941-960 | The client's loop, byte into a side register and folded, takes the register where the server's update takes it. |
| Crc32.Crc32Update | server/src/main.rs:1519-1531 | The server's loop computes the register update byte by byte. |
| Crc32.ProtoFileCrc32 | client/proto.c:962-987 | The client's file CRC is the CRC of the content however the reads cut it. |
| Crc32.Crc32File | server/src/main.rs:1503-1517 | The server's file CRC is the CRC of the content however the reads cut it. |
| Crc32.CrcIsRfc1952 | server/src/main.rs:1503-1531 | Both programs compute, for every byte sequence, the CRC of section 8 of RFC 1952. |
| Crc32.UpdateConcat | server/src/main.rs:1519-1531 | Updating over two stretches in turn is updating over their concatenation. |
| Crc32.ShiftsInjective | server/src/main.rs:1522-1528 | Turns of the register never merge two values. |
| Crc32.WindowInjective | server/src/main.rs:1519-1531 | Two inputs that differ only in a window of four bytes and leave the same register are equal. |
| Crc32.BurstDetected | server/src/main.rs:1519-1531 | Two different inputs of equal length that differ only within four consecutive bytes have different CRCs. |
| Transfer.ReceiveDownload | client/proto.c:1399-1439 | A download keeps exactly the announced number of bytes next in the stream, with CRCs on only if they have the announced CRC; it is refused only for another CRC or for missing bytes. |
| Transfer.CopyExact | server/src/main.rs:1490-1501 | The copy succeeds exactly if enough bytes come, and takes exactly that many. |
| Transfer.ReceiveUploadBody | server/src/main.rs:927-940 | An upload's content is stored exactly if it is all there and, if its CRC is known, has that CRC. |
| Transfer.DamageIsCaught | client/proto.c:1433-1438 | Content that passes the check and differs from what was sent at most within four consecutive bytes is what was sent. |
| Calendar.YearOfEraInverts | server/src/main.rs:1607-1611 | The closed formula finds the year of every day of every year of a 400-year era. |
| Calendar.CivilCounts | server/src/main.rs:1601-1620 | The date computed from a day number is the one reached by counting Gregorian days from 1 January 1970. |
| Calendar.DayRoundTrip | server/src/main.rs:1577-1620 | Every day number gives a valid date that converts back to it. |
| Calendar.DateRoundTrip | server/src/main.rs:1577-1620 | Every valid date from 1970 on converts to a day number and back. |
| Calendar.DatesAscend | server/src/main.rs:1601-1620 | Later days have later dates. |
| DosStamp.FieldsDoNotOverlap | server/src/main.rs:1533-1549 | The shifted fields of a stamp share no bit, so joining them is addition. |
| DosStamp.UnpackPack | server/src/main.rs:1533-1560 | The fields packed into a stamp are the fields read from it. |
| DosStamp.StampRoundTrip | server/src/main.rs:1533-1575 | From 1980 to the end of 2107, packing and unpacking a time rounds it down to an even second. |
| DosStamp.RealStampSurvives | server/src/main.rs:1533-1575 | A stamp that names a real date and time survives unpacking and packing. |
| DosStamp.StampsAscend | server/src/main.rs:1533-1549 | Packing keeps the order of times. |
| DosStamp.StoredStampReturns | server/src/main.rs:1591-1599 | A stored stamp is what the next scan reports, whenever it is stored, if and only if it names a real date and time. |
| DosStamp.AcceptedStamps | server/src/main.rs:1551-1575 | A stamp is accepted exactly if its fields are in range one by one, the day up to 31 whatever the month. |
| DosStamp.UnacceptedLeavesTime | server/src/main.rs:1591-1599 | A stamp that is not leaves the file the time it was written at. |
| DosStamp.YearsOutOfRange | server/src/main.rs:1533-1549 | Times before 1980 have the stamp 0, and years come round after 128. |
| DosStamp.ThirtiethOfFebruary | server/src/main.rs:1551-1575 | 30 February 2024 is accepted and comes back as 1 March. |
| Names.ServerNames | server/src/main.rs:1649-1700 | The server accepts exactly the 8.3 names, with an extension also where the name is a directory's. |
| Names.ProtoIsValidComponent | client/proto.c:307-375 | The client's walk over its 16-byte copy accepts exactly the 8.3 names, an extension only for files. |
| Names.SameFileNames | client/proto.c:307-375 | Both programs accept the same NUL-free file names, of whatever length. |
| Names.NormalizePath | server/src/main.rs:1622-1647 | The loop over the components gives the normalised path, or the first component's error. |
| Names.NormalizesExactly | server/src/main.rs:1622-1700 | A path is accepted if and only if it is not empty and its components, between single slashes, have one to eight and possibly one to three more printing characters of ASCII without the forbidden ones; it is then turned into capitals and otherwise left as it is. |
| Names.FatAlphabet | client/proto.c:278-305 | The characters of a name, in capitals, are the printing ones of ASCII but small letters and the sixteen forbidden ones. |
| Names.ReservedNames | client/proto.c:1202-1206 | The five names the client's scan leaves out. |
| Names.NormalizeKeepsListed | server/src/main.rs:1622-1647 | A path whose components are short and upper-case is left as it is. |
| Names.NormalizeIdempotent | server/src/main.rs:1622-1647 | Whatever normalising accepts becomes such a path, so doing it again changes nothing. |
| Names.ReportableIsListed | client/proto.c:1175-1206 | Every path the client's scan can report is one the server's scan would list. |
| Numerals.StrtoulOfDigits | client/proto.c:814-832 | On a row of digits strtoul reads all of it, and stops at the largest 32-bit value. |
| Numerals.StrtoulReads | client/proto.c:814-832 | Behind blanks and a sign strtoul reads a number up to what stops it, cut off at the largest, negated modulo 2^32 behind a minus sign, and reads nothing where no digit follows. |
| Numerals.ParsesExactly | server/src/main.rs:1760-1774 | The server's parsers accept digits that name a number in range, with or without a plus sign, and nothing else. |
| Numerals.HexTable | client/proto.c:897-909 | Hex digits are printed as capitals and read in either case. |
| Numerals.HexCrosses | server/src/main.rs:1767-1774 | Eight printed hex digits are read back by either side. |
| Numerals.DecCrosses | server/src/main.rs:1760-1765 | Printed decimals are read back by either side, by the client up to 32 bits. |
| HexText.ProtoEncodeHex | client/proto.c:873-895 | The encoder succeeds exactly if the text and two more characters fit, and leaves the hex text with its terminator in the buffer. |
| HexText.ProtoDecodeHex | client/proto.c:911-939 | The decoder succeeds exactly on even rows of hex digits whose bytes and a terminator fit, and leaves those bytes in the buffer. |
| HexText.EncodeHex | server/src/main.rs:1852-1866 | The server's encoder gives the same text. |
| HexText.HexIs | server/src/main.rs:1852-1866 | Every byte is two capital digits, the high half first. |
| HexText.DecodeHex | server/src/main.rs:1874-1894 | The server's decoder accepts the same texts and gives the same bytes. |
| HexText.HexRoundTrip | client/proto.c:873-939 | Decoding undoes encoding. |
| Lines.ParseLine | server/src/main.rs:1413-1426 | The loop over the words gives the first word and the map of all key=value words, the last value winning. |
| Lines.LastValueWins | server/src/main.rs:1413-1426 | Of several words with one key the last decides for the server. |
| Lines.ProtoExtractParam | client/proto.c:777-812 | The walk along the line leaves in the buffer the value of the first word with that key, cut to fit, and fails if there is none or it is empty. |
| Lines.ProtoLineKind | client/proto.c:763-775 | The buffer gets the text before the first blank, cut to fit. |
| Lines.ServerReadsFields | server/src/main.rs:1413-1426 | From a printed line the server reads its command and exactly its fields. |
| Lines.ClientReadsField | client/proto.c:777-812 | From a printed line the client reads each field's value, also where one key begins like another. |
| Wire.ReadManifest | server/src/main.rs:606-656 | The loop reads exactly the items before END, and fails if one is malformed or END is missing. |
| Wire.MetaReads | server/src/main.rs:620-635 | An item is accepted exactly if its path decodes and normalises, size and stamp are numbers of 64 and 32 bits, crc_known is 0, 1 or missing, which counts as 1, and the CRC is a number of 32 bits, or missing where it is not known. |
| Wire.LastItemWins | server/src/main.rs:637-653 | Of several items of one path the last that is not above 2 GiB counts. |
| Wire.NoOversizedItem | server/src/main.rs:637-639 | No item above 2 GiB is listed. |
| Wire.ItemLine | client/proto.c:1482-1490 | The text of ITEM and PUT lines, field by field. |
| Wire.DownloadLine | server/src/main.rs:838-847 | The text of a download's ACTION line, field by field. |
| Wire.UploadLine | server/src/main.rs:872-886 | The text of an upload's. |
| Wire.SimpleLine | server/src/main.rs:517-563 | The text of the other actions'. |
| Wire.DoneLine | server/src/main.rs:575-581 | The text of the DONE line. |
| Wire.ItemCrosses | server/src/main.rs:866-915 | The server reads every ITEM and PUT line back as the item the client printed. |
| Wire.ManifestCrosses | client/proto.c:1815-1842 | The manifest the server reads from the client's lines is what the client's scan reports, in whatever order they come. |
| Wire.PathArrives | client/proto.c:1862-1868 | The client recovers a path exactly if it has fewer than 144 characters; a longer one is refused, never cut. |
| Wire.ActionCrosses | client/proto.c:1845-1936 | The client carries out the order the server's ACTION line stands for, if and only if its path fits. |
| Wire.DoneCrosses | client/proto.c:1852-1855 | The final counts arrive exactly if they fit a 16-bit int. |
| Wire.ItemLineFits | client/proto.c:1823-1830 | ITEM and PUT lines fit the client's line buffer. |
| Wire.ActionLineFits | client/proto.c:1845-1851 | ACTION lines for paths that fit do as well. |
| RecvBuffer.ProtoClient.ReadLine | client/proto.c:664-721 | A line read returns what reading the whole stream directly would, and reports a lost connection otherwise only if it was lost; the unread bytes are what that reply leaves. |
| RecvBuffer.SentLine | client/proto.c:677-701 | A line that was sent, with CR LF or a bare LF, is read without its line end exactly if it fits the buffer and the target; then only what follows is left, and otherwise everything. |
| RecvBuffer.LinesReadBack | client/proto.c:664-721 | A stream of such lines is read back line by line. |
| RecvBuffer.ProtoClient.ReadExact | client/proto.c:723-761 | The bytes delivered and the unread bytes together are the stream as it was; while the connection holds the read succeeds exactly if enough bytes were sent. |
| RecvBuffer.ProtoClient.Fill | client/proto.c:707-719 | One recv appends to the buffer and keeps the unread stream. |
| RecvBuffer.ReadMix | client/proto.c:664-761 | Any mix of line and raw reads gives the replies of the undivided stream, however it arrives, as far as it gets, and all of them while the connection holds. |
| RecvBuffer.NoLineFeedIn | client/proto.c:702-705 | A full buffer without a line feed means that no line of the stream ends within the buffer's capacity. |
| CrcCache.CrcCacheArray.LookupCachedCrc | client/proto.c:989-1025 | A hit needs the same size and stamp and, with rechecking on, an age below 300000 ticks modulo 2^32. |
| CrcCache.AnswersExactly | client/proto.c:1008-1022 | An entry answers, with its CRC, if and only if size and stamp are its own and, with rechecking on, less than 300000 ticks of a 32-bit clock have passed since it was checked. |
| CrcCache.OldEntryIsRehashed | client/proto.c:1015-1017 | With rechecking on an older entry is not believed: the file's own CRC is reported and remembered. |
| CrcCache.RecheckedReportIsRecent | client/proto.c:1119-1129 | With rechecking on, in every run, a report is the file's own CRC or that of a file of the same size and stamp hashed or downloaded at the path within those 300000 ticks. |
| CrcCache.CrcCacheArray.RememberCachedCrc | client/proto.c:1027-1079 | The array, updated in place or shifted and appended to, becomes the map with the entry set and, if full, without its first inserted entry. |
| CrcCache.RememberSets | client/proto.c:1027-1079 | Remembering sets the entry, leaves the others as they are, and costs one its place only if 128 are there and the path is new. |
| CrcCache.ForgottenAfter | client/proto.c:1081-1102 | With CRCs off a listed or downloaded file leaves the cache, a deleted one always. |
| CrcCache.CrcCacheArray.ForgetCachedCrc | client/proto.c:1081-1102 | The array shifted down becomes the map without the path. |
| CrcCache.CrcCacheArray.CrcOfItem | client/proto.c:1119-1129 | A listed file gets 0 with CRCs off, the cached CRC on a hit, and otherwise its own CRC, which is remembered. |
| CrcCache.OldestIsFirst | client/proto.c:1063-1070 | The entry that leaves a full cache is the one inserted first, and only that one. |
| CrcCache.CacheStaysBounded | client/proto.c:989-1138 | After any run the cache is an array of at most 128 items with distinct paths, oldest first. |
| CrcCache.ReportIsTrue | client/proto.c:1104-1129 | In any run, a path whose files have always differed in size or stamp when their CRCs differ is reported with its true CRC. |
| CrcCache.AlwaysTrueIffDistinguishing | client/proto.c:1104-1129 | For a set of files, no run over them is reported wrongly if and only if size and stamp tell their CRCs apart. |
| CrcCache.TwoShowingEditsHideAChange | client/proto.c:1012-1014 | A run in which every edit changes size or stamp, and yet the reported CRC is wrong. |
| Versions.ProtoCompareVersions | client/proto.c:834-871 | The loop terminates on all strings and computes the comparison. |
| Versions.CompareAntisymmetric | client/proto.c:834-871 | Swapping any two strings swaps the sign. |
| Versions.CompareIsLexicographic | client/proto.c:834-871 | On dotted decimals the sign is that of the zero-padded lexicographic order of the strtoul values, in all three cases. |
| Versions.VersionsTransitive | client/proto.c:834-871 | The strings in which every number is read to its end, dotted decimals among them, are totally preordered. |
| Versions.OnlyDotsFollow | client/proto.c:851-862 | In such a string every number is followed by a dot, which is passed over with it, or by nothing. |
| Versions.OrderlyIffClean | client/proto.c:864-867 | A string takes its place in the order of the dotted decimals if and only if every number in it is read to its end; otherwise two that differ tie with it. |
| Versions.StrayCharacterBreaksTransitivity | client/proto.c:864-867 | A stray character ties with 0.1 and with 0.2, which differ. |

## Left out

- Winsock loading, sockets, listeners, threads, mutexes, the HTTP interface, logs, progress text and configuration:
  they decide nothing modelled here. A lost connection is a session cut short; a socket is a stream delivered in
  pieces of any size.
- The update handshake beyond "no newer version": a session that delivers an update ends before any manifest is sent.
- JSON persistence: the saved state is saved whole or stays as it was.
- Real file systems. A disk is a map from paths to files. A directory and a file of the same name, two names that
  differ only in case, read errors, full disks and unreported write errors are outside it.
- The client's temporary file: a download replaces its target in one step, except where the target bears the
  temporary name, which is deleted first. The window between deleting and renaming, and a client file called
  `SYNC.$$$` that any download beside it removes, are not modelled.
- ManifestTracksDisk: keeps stamps as they were sent, as the theorems about repeated rounds and runs do; by
  `StoredStamps.RealWorldStays` they hold of the server's file system as it is wherever all stamps are real. Years
  beyond the range of a 32-bit integer are not considered.
- The client's scan errors: more than 128 files, or a local path too long to be scanned, end the session before
  anything is planned.
- What follows when a file has grown since the scan: the client takes the bytes left over for the server's next line.
  The model stops when the server has sent its next request, or saved its state after the last action; how the client
  reads these bytes, and what they make it answer, is not modelled.
- Files that change while a session runs. The automata of `Session` start from a manifest whose planned downloads the
  server still holds as shown, such as a fresh scan; other manifests are the subject of `Delivery`, `SyncServer` and
  `History`.
- RememberCachedCrc: takes paths that fit a path buffer, as does CrcOfItem. The functions are private to the client, and
  the scan and the download, which call them, pass such buffers.
- ReadLine: a line that holds a NUL byte is not treated apart, as the client's C strings would.
- NoSilentOverwrite: revisions are compared by size and CRC, so two contents with equal CRCs count as one.
- SessionTerminates: bounds steps, not time; one step is a read or an uninterrupted burst of writes, and a file's
  content is one message there. `RecvBuffer` and `Transfer` cover how its bytes arrive.
- DecodeHexToString: bytes from 128 on are refused at once. The program decodes them as UTF-8 and refuses the result
  as no 8.3 name.
- The texts of error messages and summaries: failures carry short labels instead.
