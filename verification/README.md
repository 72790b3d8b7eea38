# Verification of the file platform's core

A Dafny model of the backend's file store, its notification fan-out and HLS ladder, and of the two
stateful pieces of the browser client, with proofs of what they keep over every run. `dafny verify
dfyconfig.toml` checks the whole project.

## What is modelled

**The file store** (`Schema` to `Browse`). The Postgres tables, the job queue and the object store are the
fields of one class, `Schema.Backend`. Each HTTP handler and each worker callback is a method on it
(`ApiFolders`, `ApiFiles`, `ApiVersions`, `UploadSvc`, `Shares`, `Workers`), written with the original's
branches, loops and error replies, and proved equal to a function on `Schema.Store`, a snapshot of the tables.
`Runs` turns those functions into the steps of a machine with seventeen kinds of event; `Serve` proves that the
methods are its implementation. A worker attempt is several such steps: `Attempts` proves that each of the two
worker handlers, however it ends, is a valid run, and that its success is valid when other steps ran in between.
The main theorem, `Runs.RunKeepsInv`, says that four structures that share
the same rows stay intact over every run:

- the folders form a forest (`Forest`), although folders move and subtrees are deleted recursively while the
  tables shrink;
- every file is a lineage of versions 1..n around one root, with exactly one current row (`Lineage`);
- statuses, jobs and stored objects agree (`Invariants`);
- share links die with their files (`Shares`).

On top of it: what a delete removes (`Deletion`) and what is left in the object store afterwards (`Leftovers`),
the history of statuses and jobs (`JobHistory`), quota over whole runs (`Quota`), what several resumable uploads
at once do to it (`ResumableQuota`), whether the sizes it adds up are those of the stored objects
(`StoredSizes`), and whether every file can be found by browsing (`Browse`).

What the requests themselves promise is stated apart from how they are carried out, request by request and over
runs: which edits change which columns of a row and which listings (`RowHistory`), what becomes of an upload from its
request to its task (`UploadHistory`, `TusHistory`), what a link serves and counts (`ShareHistory`), and that
no request touches what is another user's (`Isolation`). `ShareLimit` takes the
download of a link apart into its separate database steps, because there the interleaving is the point.

**Notifications** (`NotifyHub`, `Fanout`). One replica's connection table, with real socket objects; then any
number of replicas that read one ordered channel and come and go, with registering, leaving, breaking, taking a
message and writing to one socket as separate steps.

**HLS** (`Ladder`, `Decimal`, `MasterPlaylist`). The rendition ladder, `evenWidth` in exact and in
floating-point arithmetic, the playlist writer, and a reader written from RFC 8216, sections 4.1, 4.2,
4.3.1.1 and 4.3.4.2, that reads the writer's output back.

**The browser client** (`TokenRefresh`, `RequestHistory`, `NotificationSocket`). The single-flight token refresh with
its one-retry interceptor, what requests carry and how they end, and the reconnecting socket, as event loops in
which every callback is a step and callers may make any call at any time.

## Assumptions

- A handler is one atomic step; worker attempts are not (each object write is a step of its own). The
  forest, lineage and quota results are about serialized requests, the share limit is not.
- New UUIDs are fresh. `First` without an order picks the lowest primary key.
- The queue archives a task on exactly the condition that `handleTaskError` takes as terminal.
- The shared notification channel is ordered and loses nothing while a replica is subscribed; a replica reads it
  from the moment it joins.
- A task comes back from the queue with the payload it was enqueued with. What the handlers do when a payload
  does not decode is modelled beside the machine (`Attempts.UnreadableStrands`).
- tusd reports an accepted upload at most once, with the metadata kept for it. Its final size may differ from
  the size it was accepted for.
- Storage keys are kept by their parts. `ObjectKeys.SpellInjective` shows that nothing is lost: different
  parts never give the same text.
- An upload URL is not taken to expire: a client may put to it at any time. In the repository it lasts 15 minutes
  (backend/cmd/upload-svc/handlers.go:24), and results about later puts speak of that time.
- axios keeps the unknown property `_retried` when a request is sent again.

## What the proofs turned up

- **A restore can hide a file.** Moving a file moves only its current row, so an older version still names the
  old folder. If that folder is deleted and the version restored, no folder listing shows the file any more.
  `Browse.RestoreCanHide` is such a run. `Browse.StepKeepsPlacedIff` gives the exact condition: placement
  survives a step if and only if a restored version's folder, and the folder of a resumable upload that
  finishes, is still there.
- **Resumable uploads are checked when they start and counted when they finish.** Whatever could be accepted one
  by one can be accepted together, and once all have finished the user is within quota exactly when there was
  room for the sum (`ResumableQuota.AcceptedTusIff`). A user whose resumable uploads never overlap
  with other landings, who sends no more than declared and declares no size beyond the 64-bit sum, stays within
  quota over every run (`Quota.HonestRunWithinQuota`).
- **The quota sum can wrap.** `used + incoming` is a 64-bit addition; `UploadSvc.QuotaVerdictExact` says
  that uploads whose sum overflows are admitted too, and no others beyond those that fit. Whoever stores
  anything is admitted with the largest size (`UploadSvc.LargestSizeAdmitted`), and after that every quota check
  of that user fails with a server error (`UploadSvc.OverflowBlocksUser`).
- **An upload URL can be used again.** A put after completion changes the object and not the row, so over every
  run a completed row records the size of its object exactly when no client has put to its URL since, or last
  with the same size (`StoredSizes.SizeMatchesIff`).
- **Six attempts, not five.** The comment at backend/internal/queue/tasks.go:20 and the repository's own
  documentation speak of 5 attempts; `MaxRetry(5)` with the condition `retried >= maxRetry` gives six, and three
  for videos. `JobHistory.SixAttemptsHappen` is a run with a sixth attempt, and by
  `JobHistory.WithinRetryLimitIff` a settled job took at most five exactly when one of its first five attempts
  succeeded or was told not to retry.
- **A task that cannot be enqueued leaves its row processing for ever** (`JobHistory.StrandedForever`). Every
  other accepted row is ready or failed once its attempts are used up.
- **Deleting a file can leave objects behind, for two reasons.** The clean-up removes what the row names, and
  only a ready row names its previews and playlist: with storage working, nothing is left at that moment exactly
  when the row was ready or nothing but its upload was stored (`Deletion.NothingLeftIff`). And a worker that is
  busy with the file goes on writing, because it does not look at the row
  (backend/cmd/video-worker/handlers.go:114-131). Until a client uses the old upload URL again, nothing is ever left
  exactly when neither applies: the clean-up left nothing and no live job carried the id
  (`Leftovers.StaysEmptyIff`). `Leftovers.DeleteCanLeaveObjects` and `Leftovers.LateWorkerCanLeaveObjects` are runs
  for the two reasons. The comment at backend/cmd/api-svc/handlers_file.go:183 promises every object.
- The repository's documentation calls file deletion metadata-only; the code also removes the stored objects,
  and the model follows the code.
- **A fixed overshoot on share limits.** Between the check and the increment, k concurrent downloads can
  exceed the limit by k - 1 and no more; `ShareLimit.LimitIsTight` shows for every limit and every k that a fresh
  link gets there.
- **A late refresh signs a client in again.** A client whose tokens were cleared stays without an access token
  exactly when no refresh was on the wire at that moment (`TokenRefresh.SignedOutStaysIff`). In the same way a
  client that was given another account's tokens uses only that account's exactly when no refresh of the former
  ones was on the wire (`TokenRefresh.OwnTokensIff`). `TokenRefresh.ReplacedWhileFetching` reaches both failing cases.
- **One connect per socket instance matters.** A further `connect` keeps to one connection exactly when no socket
  is alive at that moment (`NotificationSocket.ConnectKeepsOneIff`).

## Model

| member | source | states |
|---|---|---|
| Schema.Backend.constructor | backend/internal/models/file.go:18-47 | a new backend has the given quotas and empty tables |
| ApiFolders.IsDescendant | backend/cmd/api-svc/handlers_folder.go:46-65 | the walk up the parents terminates and answers yes exactly when the folder is the candidate or one of its ancestors among the user's folders |
| ApiFolders.CreateFolder | backend/cmd/api-svc/handlers_folder.go:67-102 | every reply, and the whole state after creating at the root or in an owned folder |
| ApiFolders.CreateKeepsForest | backend/cmd/api-svc/handlers_folder.go:67-102 | creating keeps the folders a forest with owners agreeing along each chain |
| ApiFolders.UpdateFolder | backend/cmd/api-svc/handlers_folder.go:159-218 | every reply, and the whole state after a rename, a move into a folder and a move to the root |
| ApiFolders.UpdateKeepsForest | backend/cmd/api-svc/handlers_folder.go:159-218 | any update keeps the folders a forest |
| ApiFolders.MoveRefusedIffCyclic | backend/cmd/api-svc/handlers_folder.go:197-206 | between two owned folders a move is refused if and only if carrying it out would destroy the forest |
| Forest.MoveKeepsForestIff | backend/cmd/api-svc/handlers_folder.go:197-207 | re-parenting keeps a forest if and only if the new parent is not below the moved folder |
| Forest.SiblingsDisjoint | backend/cmd/api-svc/handlers_folder.go:270-276 | subtrees of different children share no folder, so the recursive deletes do not overlap |
| Forest.PrunedSubtree | backend/cmd/api-svc/handlers_folder.go:270-276 | after deleting one child's subtree the remaining part of the parent's subtree is what it was |
| Forest.PruneForest | backend/cmd/api-svc/handlers_folder.go:304-307 | removing a whole subtree leaves a forest |
| ApiFolders.DeleteFolderTree | backend/cmd/api-svc/handlers_folder.go:263-308 | the recursion terminates, removes the subtree, all versions of the files currently in it and their links, and lists each removed row exactly once |
| ApiFolders.DeletedTwice | backend/cmd/api-svc/handlers_folder.go:270-276 | deleting one set of rows and then another adds up to deleting both, with the lists appended |
| ApiFolders.DeleteFilesIn | backend/cmd/api-svc/handlers_folder.go:278-302 | one folder's files go with all their versions and links, each listed once |
| ApiFolders.DeleteFolder | backend/cmd/api-svc/handlers_folder.go:220-261 | every reply, the rows it returned, and the whole state including the objects swept afterwards |
| ApiFolders.DeleteKeepsForest | backend/cmd/api-svc/handlers_folder.go:220-261 | folder deletion keeps the folders a forest |
| ApiFolders.DeleteKeepsLineages | backend/cmd/api-svc/handlers_folder.go:278-302 | folder deletion never splits a lineage |
| Deletion.FolderDeleteExact | backend/cmd/api-svc/handlers_folder.go:253-308 | exactly the folders below go, exactly the versions of files that currently lie there, exactly their links, and nothing else changes |
| Deletion.FileDeleteExact | backend/cmd/api-svc/handlers_file.go:137-181 | exactly the versions of the file and the links to them go, and nothing else changes but swept objects |
| Deletion.DeleteAnswers | backend/cmd/api-svc/handlers_file.go:137-152 | both deletes are granted to the owner and to nobody else, and a refused one does nothing |
| Deletion.DoomedByCurrent | backend/cmd/api-svc/handlers_folder.go:278-294 | a row is removed exactly when its file's current row lies in a removed folder, whatever folder the row itself names |
| Deletion.CleanupConfined | backend/cmd/api-svc/handlers_file.go:176-205 | no delete, with or without storage faults, removes an object of a row that survives |
| Deletion.NothingLeftIff | backend/cmd/api-svc/handlers_file.go:176-205 | with storage calls succeeding, at the moment of the delete nothing is left of a row if and only if it was ready or nothing but its upload had been stored for it |
| Deletion.ReadyRowsLeaveNothing | backend/cmd/api-svc/handlers_file.go:176-205 | deleting ready rows leaves none of their objects when storage calls succeed |
| Leftovers.FailedTranscodeLeavesSegment | backend/cmd/api-svc/handlers_file.go:183-205 | from any reachable state with a live transcode there is a run in which the file is deleted without storage faults and a segment stays |
| Leftovers.DeleteCanLeaveObjects | backend/cmd/api-svc/handlers_file.go:183-205 | such a run from empty tables |
| Leftovers.LateWorkerLeavesSegment | backend/cmd/video-worker/handlers.go:114-131 | from any reachable state with a live transcode there is a run in which the file is deleted without storage faults, and a segment is stored afterwards and stays |
| Leftovers.LateWorkerCanLeaveObjects | backend/cmd/video-worker/handlers.go:114-131 | such a run from empty tables, in which nothing but the upload is stored when the file is deleted |
| Leftovers.GoneObjectsIff | backend/cmd/api-svc/handlers_file.go:176-205 | over every run, there are objects under the id of a row that is gone exactly when there were some before or a client or a worker has put one |
| Leftovers.WorkerCanWriteIff | backend/cmd/video-worker/handlers.go:114-131 | a worker can still write under the id of a row that is gone exactly when a live job carries the id |
| Leftovers.DeleteIsDeletion | backend/cmd/api-svc/handlers_file.go:137-181 | either delete sweeps the objects of exactly the rows that it removes |
| Leftovers.AfterDeleteIff | backend/cmd/api-svc/handlers_file.go:176-205 | after either delete and any run, for rows of every status: objects exist under a removed id exactly when the clean-up left some or a client or a worker has put one since |
| Leftovers.StaysEmptyIff | backend/cmd/api-svc/handlers_file.go:183-205 | but for clients, nothing is ever stored under a removed id again, now or later, exactly when the clean-up left nothing and no live job carried the id |
| Leftovers.StaysGoneIff | backend/cmd/api-svc/handlers_file.go:137-205 | over any run after either delete of a ready row, objects under its id exist again exactly when a client has put to its old upload URL |
| ObjectKeys.UuidTextParses | backend/cmd/upload-svc/tus.go:122-139 | an id written out and parsed again is the same id |
| ObjectKeys.UuidTextInjective | backend/cmd/upload-svc/handlers.go:111-112 | the hexadecimal text of two different ids differs |
| ObjectKeys.SpellInjective | backend/cmd/upload-svc/handlers.go:111-112 | uploads, previews and HLS files of different rows never share an object key |
| ObjectKeys.PrefixListsExactly | backend/cmd/api-svc/handlers_file.go:194-204 | listing by one video's prefix finds that video's objects and no others |
| ApiFiles.UpdateFile | backend/cmd/api-svc/handlers_file.go:75-128 | every reply, and the whole state: only the named row's name and folder can change |
| ApiFiles.MoveMovesListing | backend/cmd/api-svc/handlers_file.go:104-121 | a successful move takes the file out of its old listing and into the new one, and leaves every other listing alone |
| ApiFiles.ListObjects | backend/cmd/api-svc/handlers_file.go:194-204 | the listing of a prefix is the set of stored keys under it |
| ApiFiles.CleanupFileObjects | backend/cmd/api-svc/handlers_file.go:186-205 | the objects left are those that were not this row's, or whose removal the storage refused |
| ApiFiles.CleanupRows | backend/cmd/api-svc/handlers_file.go:176-205 | sweeping row by row equals sweeping all rows at once |
| ApiFiles.DeleteFile | backend/cmd/api-svc/handlers_file.go:137-181 | every reply, and the whole state: all versions, their links and their objects |
| ApiFiles.DeleteRemovesLineage | backend/cmd/api-svc/handlers_file.go:154-170 | deleting any version removes exactly that file's lineage |
| RowHistory.StepKeepsColumns | backend/cmd/api-svc/handlers_file.go:89-128 | no step changes a row's owner, key, type, version number or root, and only a granted edit its name or folder |
| RowHistory.RunKeepsColumns | backend/internal/models/file.go:18-47 | so over any run a surviving row is the row it was created as, under the name and in the folder of the last granted edits |
| RowHistory.UpdateFileAnswers | backend/cmd/api-svc/handlers_file.go:75-128 | an edit is granted exactly to the owner, with a non-empty name if any and one of the owner's folders if any |
| RowHistory.UpdateFileEdits | backend/cmd/api-svc/handlers_file.go:89-121 | a granted edit sets the given name and the named folder, the empty one being the root, on that row alone |
| RowHistory.CreateFolderAnswers | backend/cmd/api-svc/handlers_folder.go:67-102 | a folder is created exactly with a name and in the root or one of the caller's folders |
| RowHistory.CreateFolderLists | backend/cmd/api-svc/handlers_folder.go:86-102 | the new folder is listed in the place asked for, under its name, and in no other |
| RowHistory.UpdateFolderAnswers | backend/cmd/api-svc/handlers_folder.go:159-218 | a folder update is granted exactly to the owner, for a place of the owner's that is not below the folder itself |
| RowHistory.UpdateFolderLists | backend/cmd/api-svc/handlers_folder.go:176-218 | a moved folder leaves its old listing for the new one, a renamed one stays, and no other entry changes |
| ApiVersions.Newest | backend/cmd/api-svc/handlers_versions.go:29-34 | picks a row with the highest version |
| ApiVersions.LineageFiles | backend/cmd/api-svc/handlers_versions.go:29-34 | lists every row of the lineage once, versions descending |
| ApiVersions.HistoryCountsDown | backend/cmd/api-svc/handlers_versions.go:29-60 | in a sound store any such history is n, n - 1, .., 1 |
| ApiVersions.RestoreFileVersion | backend/cmd/api-svc/handlers_versions.go:65-116 | every reply, and the whole state: only the current flags of one lineage move |
| ApiVersions.RestoreKeepsLineages | backend/cmd/api-svc/handlers_versions.go:96-112 | a restore keeps every lineage, with exactly one current row |
| ApiVersions.RestoreUndoes | backend/cmd/api-svc/handlers_versions.go:62-112 | restoring another version and then the former one gives back the very same rows |
| RowHistory.RestoreAnswers | backend/cmd/api-svc/handlers_versions.go:65-116 | a restore is granted exactly for a version of the caller's own file, which then is the only current one |
| Lineage.InsertVersion | backend/cmd/upload-svc/handlers_versions.go:86-122 | superseding and inserting highest-plus-one keeps versions 1..n and one current row |
| Lineage.InsertRoot | backend/cmd/upload-svc/handlers.go:114-124 | a new upload is a lineage of its own |
| Lineage.RemoveLineages | backend/cmd/api-svc/handlers_file.go:154-170 | removing whole lineages keeps the others sound |
| Lineage.FlaggedInv | backend/cmd/api-svc/handlers_versions.go:101-107 | clearing a lineage's flags and setting one keeps every lineage sound |
| UploadSvc.SumSizes | backend/cmd/upload-svc/handlers.go:47-51 | adds up the sizes of all versions of all the user's files |
| UploadSvc.CheckQuota | backend/cmd/upload-svc/handlers.go:41-58 | the verdict, with a missing user, a total beyond 64 bits and a wrapping addition |
| UploadSvc.QuotaVerdictExact | backend/cmd/upload-svc/handlers.go:53-57 | an upload is admitted exactly when it fits the quota or its sum overflows 64 bits |
| UploadSvc.AdmittedWithinQuotaIff | backend/cmd/upload-svc/handlers.go:53-57 | an admitted upload leaves the user within quota exactly when the addition did not overflow |
| UploadSvc.LargestSizeAdmitted | backend/cmd/upload-svc/handlers.go:53-57 | any user who stores something is admitted with the largest 64-bit size, which exceeds every quota |
| UploadSvc.OverflowBlocksUser | backend/cmd/upload-svc/handlers.go:47-57 | after a presign whose sum overflowed, every later check of that user is a server error |
| UploadHistory.PresignAnswers | backend/cmd/upload-svc/handlers.go:73-109 | a presign is granted exactly to a complete request that the quota admits for an allowed folder |
| UploadHistory.PresignOpens | backend/cmd/upload-svc/handlers.go:111-129 | it adds a pending first version with the name, type, size and folder asked for, shown in that one place |
| UploadHistory.VersionAnswers | backend/cmd/upload-svc/handlers_versions.go:37-93 | in a reachable state a new version is granted exactly to the owner, with a complete request that the quota admits |
| UploadHistory.VersionOpens | backend/cmd/upload-svc/handlers_versions.go:94-122 | it adds the next version with the type and size asked for and the name and folder of the current one, which alone it replaces in its listing |
| UploadHistory.CompleteAnswers | backend/cmd/upload-svc/handlers.go:145-180 | completion is granted exactly to the owner of a pending row whose object is stored |
| UploadHistory.CompleteHandsOver | backend/cmd/upload-svc/handlers.go:180-219 | the row is ready at once, or waits for exactly one task of the kind its type calls for |
| UploadHistory.CompletedAsAsked | backend/cmd/upload-svc/handlers_versions.go:94-122 | over any run between request and completion, first version or later one: the row has the type asked for, and a task is enqueued exactly when that is an image or a video |
| UploadSvc.Presign | backend/cmd/upload-svc/handlers.go:73-143 | every reply, and the whole state with the new pending, current row |
| UploadSvc.First | backend/cmd/upload-svc/handlers_versions.go:78-84 | finds the row with the lowest id |
| UploadSvc.MaxVersion | backend/cmd/upload-svc/handlers_versions.go:86-92 | the highest version, zero when there is none |
| UploadSvc.PresignVersion | backend/cmd/upload-svc/handlers_versions.go:37-136 | every reply, and the whole state with the lineage superseded and extended |
| UploadSvc.HighestIsLength | backend/cmd/upload-svc/handlers_versions.go:86-92 | in a sound store the next version number is the number of versions plus one |
| UploadSvc.CurrentVersionFound | backend/cmd/upload-svc/handlers_versions.go:78-84 | in a sound store the lookup of the current version always finds exactly one |
| UploadSvc.PresignVersionKeepsLineages | backend/cmd/upload-svc/handlers_versions.go:86-122 | a new version keeps every lineage sound |
| UploadSvc.EnqueueOrLog | backend/cmd/upload-svc/handlers.go:269-277 | one task of the right kind is added, or the row is left without one |
| UploadSvc.Complete | backend/cmd/upload-svc/handlers.go:145-209 | every reply, and the whole state: observed size, next status, task |
| UploadSvc.TusPreCreate | backend/cmd/upload-svc/tus.go:71-114 | every refusal in order, a missing caller first, and metadata equal to the client's plus the owner, kept with the accepted size |
| TusHistory.PreCreateAnswers | backend/cmd/upload-svc/tus.go:71-107 | a resumable upload is accepted exactly from a signed-in caller, with a name, for no folder or one of the caller's, if the quota admits it |
| TusHistory.AcceptedKept | backend/cmd/upload-svc/tus.go:109-114 | it is kept under the caller's id whatever owner was claimed, with all else the client said |
| TusHistory.RunKeepsUploads | backend/cmd/upload-svc/tus.go:84-95 | over any run each upload under way is meant for no folder or one that is its owner's as long as it exists |
| TusHistory.AcceptedUploadLands | backend/cmd/upload-svc/tus.go:71-193 | whatever happens in between, an accepted upload can finish, and becomes a current row of the caller's with the name, type and folder asked for, and a task if it is media |
| TusHistory.FinishedBrowsableIff | backend/cmd/upload-svc/tus.go:134-139 | over every run the finished file can be browsed to exactly when its folder still exists, with no hypothesis on ownership |
| UploadSvc.FinishTusUpload | backend/cmd/upload-svc/tus.go:119-204 | the whole state after a finished upload: object, row and task from the metadata, or nothing when the owner does not parse or storage fails |
| Shares.CreateShare | backend/cmd/api-svc/handlers_share.go:48-115 | every reply, and the whole state with the new link |
| Shares.DeleteShare | backend/cmd/api-svc/handlers_share.go:177-198 | only the owner's link goes |
| Shares.ShareDownloadUrl | backend/cmd/upload-svc/handlers_share.go:46-98 | every reply, and the whole state: only the link's count can change |
| ShareHistory.DownloadAnswers | backend/cmd/upload-svc/handlers_share.go:25-79 | every answer of a public download, each exactly when it is given |
| ShareHistory.DownloadCounts | backend/cmd/upload-svc/handlers_share.go:89-92 | a served download is a check and a count of the link's protocol and touches nothing else; a refused one changes nothing |
| ShareHistory.LinkOverRuns | backend/cmd/upload-svc/handlers_share.go:25-92 | over any run a link keeps all it was made with, and its count rises by exactly the counted downloads that its token served |
| ShareHistory.LinkServedWithinLimit | backend/cmd/upload-svc/handlers_share.go:34-92 | when every count is written, that is the number of downloads served, and it never passes the limit |
| ShareHistory.CreatedIff | backend/cmd/api-svc/handlers_share.go:46-115 | a link is made exactly for an owned file with positive limits and an unused token |
| ShareHistory.CreatedAsAsked | backend/cmd/api-svc/handlers_share.go:75-108 | it has the owner, file, password, expiry and limit asked for, and no downloads |
| ShareHistory.NewLinkServesIff | backend/cmd/upload-svc/handlers_share.go:25-92 | from creation on over any run, a living link serves exactly the requests that are in time, below the limit asked for, with the password asked for and for a ready file |
| ShareHistory.NewLinkWithinLimit | backend/cmd/upload-svc/handlers_share.go:34-36 | when every count is written, it has served as many downloads as its row says and never more than allowed |
| ShareHistory.DeletedIff | backend/cmd/api-svc/handlers_share.go:177-198 | only the owner's request removes a link, and no other link with it |
| ShareHistory.GoneLinkNotFound | backend/cmd/upload-svc/handlers_share.go:25-29 | once a link is gone, by its owner or with its file, its token is not found over any run that does not draw it again |
| Shares.RefusedForever | backend/cmd/upload-svc/handlers_share.go:26-38 | a link refused once is refused at every later time and count |
| Shares.ServedOnlyReady | backend/cmd/upload-svc/handlers_share.go:60-92 | a download is served only from a ready file of an active link |
| Shares.ListShares | backend/cmd/api-svc/handlers_share.go:148-174 | the loop with its name cache returns, newest first and once each, what looking each name up directly would |
| Shares.ListedNamesAreLive | backend/cmd/api-svc/handlers_share.go:148-174 | in a sound store no row is listed as a deleted file |
| ShareHistory.ListedAsProtected | backend/cmd/api-svc/handlers_share.go:31-33 | a link is listed as protected exactly when it asks a visitor without a password for one |
| Shares.SharesKeptByDelete | backend/cmd/api-svc/handlers_file.go:154-170 | deletes keep every link pointing at a file of the link's owner |
| ShareLimit.LimitHolds | backend/cmd/upload-svc/handlers_share.go:26-92 | with at most k downloads between check and increment the count stays below the limit plus k |
| ShareLimit.SerializedLimit | backend/cmd/upload-svc/handlers_share.go:26-92 | one download at a time never exceeds the limit |
| ShareLimit.LimitIsTight | backend/cmd/upload-svc/handlers_share.go:26-92 | for every limit and every k a fresh link has a run, with at most k requests in the window, that ends at limit + k - 1 |
| ShareLimit.OvershootReached | backend/cmd/upload-svc/handlers_share.go:83-92 | its last part: from one download below the limit, k requests at once |
| ShareLimit.RefusedStaysRefused | backend/cmd/upload-svc/handlers_share.go:26-38 | along any interleaving a refused link stays refused |
| Workers.PutObject | backend/cmd/image-worker/handlers.go:90-94 | one stored object, remembered as written by the attempt |
| Workers.HandleTaskError | backend/cmd/image-worker/handlers.go:113-143 | the row is marked failed exactly on a terminal error of the worker's own task type whose payload decodes, and a deleted row is not recreated |
| Workers.HandleImageThumbnail | backend/cmd/image-worker/handlers.go:62-108 | the whole state for each way the attempt can end, an undecodable payload among them |
| Workers.HandleVideoTranscode | backend/cmd/video-worker/handlers.go:60-74 | the whole state for each way the attempt can end, an undecodable payload among them |
| Workers.Transcode | backend/cmd/video-worker/handlers.go:76-148 | the same for a decoded task, with the objects written before the end |
| Workers.Settle | backend/cmd/video-worker/handlers.go:216-243 | the queue acknowledges, counts a retry, or archives together with the row update |
| Workers.SuccessfulTranscodeWrites | backend/cmd/video-worker/handlers.go:116-139 | a transcode that reports success has written its poster and master playlist |
| Attempts.ImageAttemptRuns | backend/cmd/image-worker/handlers.go:62-143 | handling a thumbnail task is, for every outcome, a valid run of the machine with the same final state |
| Attempts.VideoAttemptRuns | backend/cmd/video-worker/handlers.go:76-148 | so is a transcode, for every outcome and every place where it stops |
| Attempts.ImageAttemptEndsAs | backend/cmd/image-worker/handlers.go:65-131 | an attempt leaves the row ready, failed or waiting: failed at once for an image that can not be decoded, and otherwise after five retries |
| Attempts.VideoAttemptEndsAs | backend/cmd/video-worker/handlers.go:75-148 | the same for a video that can not be probed, with two retries |
| Attempts.TranscodeStores | backend/cmd/video-worker/handlers.go:114-148 | success has stored the poster, every file of the output and the master playlist |
| Attempts.AttemptUnderWay | backend/cmd/video-worker/handlers.go:114-131 | while other steps run in between, an attempt's job changes only by remembering what the attempt wrote |
| Attempts.SuccessIsValid | backend/cmd/video-worker/handlers.go:116-139 | so reporting success after the last write is valid, whatever ran between the writes |
| Attempts.UnreadableStrands | backend/cmd/image-worker/handlers.go:134-137 | a task whose payload does not decode leaves its row processing with no task left |
| Invariants.JobsKeptByAttempt | backend/cmd/image-worker/handlers.go:96-107 | the end of an attempt keeps rows and jobs in step |
| Invariants.JobsKeptByEnqueue | backend/cmd/upload-svc/handlers.go:186-205 | enqueueing gives a row its first and only job |
| Invariants.ObjectsKeptByDelete | backend/cmd/api-svc/handlers_file.go:176-205 | after a delete every object that a remaining row names still exists |
| Runs.StepKeepsInv | backend/cmd/api-svc/handlers_folder.go:67-308 | each of the seventeen steps keeps forest, lineages, job and object agreement, and links |
| Runs.RunKeepsInv | backend/cmd/upload-svc/handlers.go:73-209 | so does every run |
| Isolation.StepIsolated | backend/cmd/api-svc/handlers_file.go:24-28 | no request of one user changes, adds or removes a folder, row, link or stored object of another |
| Isolation.RunIsolated | backend/cmd/api-svc/handlers_folder.go:38-44 | so over any run of others' requests a user finds everything as it was |
| Serve.ServeEvent | backend/cmd/upload-svc/handlers.go:73-209 | the handler methods, and the single writes and ends of worker attempts, implement the machine's steps and keep its invariant |
| Serve.ServeThumbnail | backend/cmd/image-worker/handlers.go:62-108 | the thumbnail handler run from start to end performs its attempt's steps and keeps the invariant |
| Serve.ServeTranscode | backend/cmd/video-worker/handlers.go:60-148 | so does the transcode handler |
| JobHistory.ProcessingIffOneLiveTask | backend/cmd/upload-svc/handlers.go:186-205 | a row is processing exactly when one live task carries its id or its task was lost, and never has two |
| JobHistory.FailedIffArchived | backend/cmd/image-worker/handlers.go:113-143 | a row is failed exactly when its task was archived |
| JobHistory.KeysOnlyWhenReady | backend/cmd/video-worker/handlers.go:133-139 | preview and playlist are set exactly on ready images and videos, and the objects they name exist |
| JobHistory.StepMoves | backend/cmd/upload-svc/handlers.go:165-191 | no step moves a status backwards or brings a deleted row back |
| JobHistory.RunMoves | backend/cmd/image-worker/handlers.go:96-107 | nor does any run: never back to pending, never out of ready or failed |
| JobHistory.StrandedForever | backend/cmd/upload-svc/handlers.go:266-277 | a row whose task was lost stays processing for as long as it exists |
| JobHistory.AttemptUsesOne | backend/cmd/image-worker/handlers.go:120-131 | every attempt uses up one of the remaining ones, the last one settles the job |
| JobHistory.AcceptedJobEnds | backend/internal/queue/tasks.go:22-47 | no run gives an image more than six attempts or a video more than three, and after that many the job is settled |
| JobHistory.FailuresRun | backend/cmd/image-worker/handlers.go:120-131 | any number of retryable failures up to the limit plus one can happen to a live job, and only the last of them archives it |
| JobHistory.SixAttemptsHappen | backend/internal/queue/tasks.go:19-28 | a new thumbnail job is live after five failures and archived by the sixth |
| JobHistory.StillLiveIff | backend/cmd/image-worker/handlers.go:120-131 | over any run a job is still live exactly when all its attempts were retryable failures within the retries it had; otherwise the last one settled it, as done or archived |
| JobHistory.WithinRetryLimitIff | backend/internal/queue/tasks.go:19-28 | a settled job took at most its retry limit of attempts exactly when one of that many first attempts succeeded or skipped its retries |
| JobHistory.SettledJobSettlesRow | backend/cmd/video-worker/handlers.go:216-243 | a live job's row is processing, a done one's ready, an archived one's failed |
| Quota.UsedSplits | backend/cmd/upload-svc/handlers.go:34-40 | stored bytes are those a quota check covered plus those none did |
| Quota.StepKeepsQuota | backend/cmd/upload-svc/handlers.go:86-94 | each step keeps the covered bytes of every user within quota, and keeps room for an accepted resumable upload that is still alone |
| Quota.RunKeepsQuota | backend/cmd/upload-svc/handlers_versions.go:68-76 | so does every run |
| Quota.QuotaOverRuns | backend/cmd/upload-svc/handlers.go:165-191 | from empty tables, usage never exceeds quota plus, over live rows, what a presigned upload exceeded its declaration by, what a resumable one exceeded its accepted size by, and the whole of one whose declared size overflowed the quota sum or that other bytes of the user overtook |
| Quota.HonestUsageWithinQuota | backend/cmd/upload-svc/handlers.go:34-40 | usage is within quota when every row is covered |
| Quota.HonestRunWithinQuota | backend/cmd/upload-svc/tus.go:71-193 | over every run whose admitted sizes do not overflow the quota sum, whose uploads keep to their declared or accepted sizes and whose resumable uploads are not overtaken, usage stays within quota |
| Quota.AcceptKeepsQuota | backend/cmd/upload-svc/tus.go:97-114 | accepting a resumable upload leaves room for it under everything counted so far |
| ResumableQuota.FinishAllIff | backend/cmd/upload-svc/tus.go:117-193 | any number of a user's uploads under way, of any sizes, can all finish, and leave the user within quota exactly when there was room for their sum |
| ResumableQuota.AcceptAll | backend/cmd/upload-svc/tus.go:71-114 | uploads that could each be accepted now can all be accepted one after the other: an acceptance counts against nobody |
| ResumableQuota.AcceptedTusIff | backend/cmd/upload-svc/tus.go:71-193 | any list of uploads that could each be accepted now: accepting all and finishing all is a valid run, and the user is within quota after it exactly when there was room for the sum |
| ResumableQuota.ConcurrentTusIff | backend/cmd/upload-svc/tus.go:97-193 | two uploads of one size accepted before either finished leave the user within quota exactly when there was room for both |
| ResumableQuota.ConcurrentTusOvershoots | backend/cmd/upload-svc/tus.go:97-193 | from an empty account any number of uploads of the size of the quota go through, and add up to that many times the quota |
| StoredSizes.SizeMatchesIff | backend/cmd/upload-svc/handlers.go:165-191 | over every run, a completed row records the size of its object exactly when no client has put to its upload URL since, or last with the same size |
| StoredSizes.StepKeepsUpload | backend/cmd/upload-svc/handlers.go:111-143 | no step but a client's put to that URL changes the uploaded object of a row that stays |
| StoredSizes.LaterPutUncounted | backend/cmd/upload-svc/handlers.go:131-143 | the object of any completed row can be replaced by one of any size, and no row shows it |
| Browse.FolderReachableIff | backend/cmd/api-svc/handlers_folder.go:104-127 | in a forest a folder can be reached by opening listed folders from the root exactly when it is the user's |
| Browse.BrowsableIffPlaced | backend/cmd/api-svc/handlers_file.go:30-55 | a current file is listed at exactly one reachable place if and only if its folder exists |
| Browse.RestoreKeepsPlacedIff | backend/cmd/api-svc/handlers_versions.go:101-107 | a restore keeps all files placed exactly when the restored version's folder is still there |
| Browse.FinishTusKeepsPlacedIff | backend/cmd/upload-svc/tus.go:134-139 | a finished resumable upload keeps all files placed exactly when its folder is still there |
| Browse.DeleteFolderKeepsPlaced | backend/cmd/api-svc/handlers_folder.go:278-302 | deleting a folder leaves no current file behind in it |
| Browse.StepKeepsPlacedIff | backend/cmd/api-svc/handlers_versions.go:84-107 | a step keeps all files placed if and only if it meets that condition |
| Browse.SafeRunBrowsable | backend/cmd/api-svc/handlers_file.go:30-55 | after any run that meets it every current file can be browsed to, at exactly one place |
| Browse.RestoreCanHide | backend/cmd/api-svc/handlers_versions.go:101-107 | a run of the machine after which a current file can not be browsed to |
| NotifyHub.UnregisterUndoesIff | backend/cmd/notify-svc/hub.go:48-64 | unregistering restores the table to the last entry exactly when the connection was new to it |
| NotifyHub.SameHoldings | backend/cmd/notify-svc/hub.go:57-64 | a table without empty entries is determined by who holds which connections |
| NotifyHub.Hub.Register | backend/cmd/notify-svc/hub.go:48-55 | adds the connection to its user's set and to no other |
| NotifyHub.Hub.Unregister | backend/cmd/notify-svc/hub.go:57-64 | removes it and leaves no empty set, also for an unknown user |
| NotifyHub.Hub.DeliverLocal | backend/cmd/notify-svc/hub.go:80-93 | one note to each of the user's working sockets and to no other socket |
| NotifyHub.Hub.SubscribeLoop | backend/cmd/notify-svc/hub.go:99-120 | every working socket gets its user's notifications in channel order, once each, past undecodable messages |
| Fanout.RunKeeps | backend/cmd/notify-svc/hub.go:48-120 | every interleaving, with replicas joining and stopping, keeps: tables list the live connections, and received plus in flight is the connection's share |
| Fanout.ReceivesItsSpan | backend/cmd/notify-svc/hub.go:30-42 | with any number of replicas a working connection has exactly its user's notifications from the span it was registered, at most the last one still in flight; a broken one has a prefix |
| Fanout.ReplicaMakesNoDifference | backend/cmd/notify-svc/hub.go:17-37 | two connections of one user over the same span receive the same notifications on whichever replicas they are |
| Fanout.SettledDelivers | backend/cmd/notify-svc/hub.go:95-120 | when replicas have caught up, live connections have everything since they arrived |
| Fanout.StopCutsOff | backend/cmd/notify-svc/hub.go:80-120 | a connection whose replica stops has had everything its replica took for it but for the one note that may be in flight, and gets nothing afterwards |
| Fanout.ReconnectMisses | backend/cmd/notify-svc/hub.go:80-93 | two connections of a user, the second registered on any replica after the first ended, have together received all notifications but exactly those published between them |
| Fanout.BacklogShrinks | backend/cmd/notify-svc/hub.go:80-119 | takes and writes shrink their replica's backlog and touch no other's |
| Fanout.BacklogCanMove | backend/cmd/notify-svc/hub.go:80-119 | a running replica with any backlog can always take or write |
| Ladder.SelectRenditions | backend/cmd/video-worker/ffmpeg.go:30-41 | non-empty, strictly rising, never above the source, and complete: all fitting ladder entries or one native entry |
| Ladder.EvenWidthNearRatio | backend/cmd/video-worker/ffmpeg.go:43-51 | the width is even and within one column of the exact ratio |
| Ladder.EvenWidthMonotone | backend/cmd/video-worker/ffmpeg.go:43-51 | a taller rendition is never narrower |
| Ladder.EvenWidthWithinSource | backend/cmd/video-worker/ffmpeg.go:43-51 | no wider than the source rounded up to even, and exactly that at the source height |
| Ladder.FloatWidthExact | backend/cmd/video-worker/ffmpeg.go:46-50 | while the product is below 2^53, the floating-point computation gives the exact integer result |
| Decimal.DigitsRead | backend/cmd/video-worker/hls.go:17-18 | printing a number in decimal and reading it back is the identity |
| Decimal.AtoiPrintIff | backend/cmd/video-worker/hls.go:27-30 | Atoi reads back a printed integer exactly when it fits 64 bits |
| MasterPlaylist.BuildMasterPlaylist | backend/cmd/video-worker/hls.go:12-21 | the loop writes the header and one entry per rendition, in order |
| MasterPlaylist.StreamInfReads | backend/cmd/video-worker/hls.go:17-18 | a reader of attribute lists finds bandwidth and resolution by name and recovers their values, or rejects a negative rate |
| MasterPlaylist.BandwidthOfKilobitsIff | backend/cmd/video-worker/hls.go:25-32 | a rate of n k (either case) becomes 1000 n exactly when that fits 64 bits |
| MasterPlaylist.EntriesReadIff | backend/cmd/video-worker/hls.go:15-19 | the entries alone read back exactly when every name is one line, not a comment, and no rate is negative |
| MasterPlaylist.MasterReadsBackIff | backend/cmd/video-worker/hls.go:12-21 | the whole playlist reads back, in order and value for value, under exactly that condition |
| MasterPlaylist.PublishLadder | backend/cmd/video-worker/handlers.go:109-131 | for any source size the selected ladder's playlist reads back as that ladder |
| TokenRefresh.StepKeeps | frontend/lib/api/token.ts:17-76 | every step keeps at most one unsettled refresh, the bookkeeping of each request, one report per failure, a report of every refreshed token, and every listener up to date but for those behind one that threw |
| TokenRefresh.AtMostOneRefresh | frontend/lib/api/token.ts:44-57 | at most one refresh call is outstanding |
| TokenRefresh.JoinersAgree | frontend/lib/api/http.ts:36-43 | requests that joined one refresh all get the same outcome |
| TokenRefresh.AtMostTwoSends | frontend/lib/api/http.ts:34-43 | a request is sent at most twice, the second time only after its refresh succeeded |
| TokenRefresh.LaterFailuresReported | frontend/lib/api/token.ts:46-72 | from the moment the callbacks are installed, whatever came before, the auth-failure callback runs once per failed refresh, however many wait for it, and once per 401 without a refresh token |
| TokenRefresh.FailureReportedOnce | frontend/lib/api/session-bridge.tsx:12-29 | when tokens are set, listeners subscribed and requests sent first, but none answered, it has run once for every such failure |
| TokenRefresh.EveryRefreshReported | frontend/lib/api/token.ts:58-65 | every token that requests are sent again with was passed to onTokenRefreshed, unless it had come before that was installed |
| TokenRefresh.ListenersToldCurrent | frontend/lib/api/token.ts:15-34 | over runs in which no listener throws, every listener was last told the token in use |
| TokenRefresh.SignedOutStaysIff | frontend/lib/api/token.ts:29-65 | a client whose tokens were cleared stays without an access token until tokens are set exactly when no refresh was on the wire |
| TokenRefresh.OwnTokensIff | frontend/lib/api/token.ts:29-66 | until tokens are set again, every token that a refresh puts into use was asked for with the refresh token set last exactly when every refresh on the wire at that moment was sent with it |
| TokenRefresh.AccessTokenIsLast | frontend/lib/api/token.ts:29-60 | over any run the token in use is the one that the last setTokens or token-bringing refresh gave |
| TokenRefresh.ReplacedWhileFetching | frontend/lib/api/token.ts:29-60 | a run from the start after which the tokens are replaced, by others or by none, while a refresh of the former ones is on the wire |
| RequestHistory.CarriesTokenInUse | frontend/lib/api/http.ts:21-39 | over every run a request goes out with the token in use at that moment, and without one first with none and then with the token of its own refresh |
| RequestHistory.EndsAsAnswered | frontend/lib/api/http.ts:29-50 | over every run a request ends well exactly after a success, waits only after its first 401, and is given up after any other answer |
| RequestHistory.FirstUnauthorizedWaits | frontend/lib/api/http.ts:34-43 | a first 401 makes a request wait exactly when there is a refresh token, for the refresh under way or a new one with that token |
| RequestHistory.RefreshTokenIsLast | frontend/lib/api/token.ts:29-34 | the refresh token is the one setTokens gave last |
| RequestHistory.ListeningIff | frontend/lib/api/token.ts:24-27 | listeners are exactly those that subscribed and have not unsubscribed since |
| RequestHistory.ThrowStopsTelling | frontend/lib/api/token.ts:17-19 | when a listener throws, those up to it know the new token and those after it what they knew |
| TokenRefresh.WorkShrinks | frontend/lib/api/http.ts:29-50 | every step other than a new request or new tokens uses up work |
| TokenRefresh.SettlingEnds | frontend/lib/api/http.ts:29-50 | from any reachable state at most as many such steps can follow as there is work |
| TokenRefresh.StuckMeansDone | frontend/lib/api/http.ts:29-50 | when no such step is possible any more, every request is settled |
| TokenRefresh.OpenCallCanMove | frontend/lib/api/http.ts:29-50 | an open request always has such a step to wait for, so none hangs on a refresh that is over |
| TokenRefresh.Client.NotifyListeners | frontend/lib/api/token.ts:17-19 | the loop tells the current token to the listeners in order, up to and including one that throws |
| TokenRefresh.Client.SetTokens | frontend/lib/api/token.ts:29-34 | both tokens are replaced and listeners told exactly when the access token differs |
| TokenRefresh.Client.RefreshAccessToken | frontend/lib/api/token.ts:46-76 | refuses without a refresh token, joins the refresh under way, or starts one with the current refresh token |
| TokenRefresh.Client.OnResponse | frontend/lib/api/http.ts:29-50 | success, first 401, and every other error up to the await |
| TokenRefresh.Client.OnRefreshSettled | frontend/lib/api/http.ts:37-43 | sends again with the token now in use, or gives up |
| TokenRefresh.Client.OnLanded | frontend/lib/api/token.ts:58-69 | token, listeners and both callbacks for a rejected refresh, a granted one, and one that a listener or the callback threw on |
| NotificationSocket.BackoffSchedule | frontend/lib/api/ws.ts:80-81 | 1, 2, 4, 8 and 16 seconds, then always 30 |
| NotificationSocket.StepKeepsIff | frontend/lib/api/ws.ts:24-91 | a step keeps the invariant - older sockets closed, the remembered timer the only armed one, one of socket and timer alive while wanted - exactly when it is no connect beside a living socket and brings no empty token |
| NotificationSocket.RunKeeps | frontend/lib/api/ws.ts:16-91 | so does every run of such calls and of any browser events |
| NotificationSocket.ExactlyOne | frontend/lib/api/ws.ts:24-91 | after such a run whose last connect or close was a connect, there is exactly one unclosed socket or pending timer |
| NotificationSocket.ConnectKeepsOneIff | frontend/lib/hooks/use-notifications.ts:47-65 | a further connect keeps exactly one if and only if no socket is unclosed at that moment |
| NotificationSocket.UsableSocketIsCurrent | frontend/lib/api/ws.ts:64-71 | over every respectful run a socket that is connecting or open was opened with the token handed over last |
| NotificationSocket.ComesBack | frontend/lib/api/ws.ts:59-71 | reconnecting with a token, or an error, takes the living socket down or finds the next one due; either way a socket with the last token is on its way |
| NotificationSocket.SocketTokens | frontend/lib/api/ws.ts:32-37 | over any run from any state every socket is opened with the token handed over last at that time |
| NotificationSocket.SocketOpenedIff | frontend/lib/api/ws.ts:24-84 | over any run from any state, a socket is opened exactly when some connect brings a token or a timer fires while the last token handed over is not empty |
| NotificationSocket.ClosedUntilConnectIff | frontend/lib/api/ws.ts:73-78 | after close every socket is closing or closed, none is opened and no timer is pending while nobody connects again; if the next connect brings a token, it opens one, and otherwise exactly the cases above do |
| NotificationSocket.DropWaits | frontend/lib/api/ws.ts:40-84 | a drop before close arms one timer, and the n-th retry since the last open waits min(1000 * 2^n, 30000) ms |
| NotificationSocket.Socket.Connect | frontend/lib/api/ws.ts:24-37 | at any time: resets flag and counter and opens a socket, keeping the invariant exactly in the cases above |
| NotificationSocket.Socket.OnClose | frontend/lib/api/ws.ts:54-57 | schedules one reconnect unless the caller closed |
| NotificationSocket.Socket.ReconnectWithToken | frontend/lib/api/ws.ts:67-71 | keeps the token, and closes the current socket unless the caller closed |
| NotificationSocket.Socket.Close | frontend/lib/api/ws.ts:73-78 | clears the timer, closes and forgets the socket |
| Stats.FileStatsOf | backend/cmd/api-svc/handlers_stats.go:39-61 | each status and each type is counted exactly, both breakdowns add up to the number of files, and the bytes are the quota check's total in 64 bits |
| Stats.WorkedOnIffShownAsMedia | backend/cmd/api-svc/handlers_stats.go:21-34 | a type goes to the image worker exactly when the dashboard shows it as an image, and to the video worker exactly when as a video |
| Stats.OtherCategories | backend/cmd/api-svc/handlers_stats.go:21-34 | of the other types, audio and the names of documents are told apart by prefix and by substring |

## Left out

- Database errors, failing presign calls and the replies that only they cause; a handler's reads and writes succeed.
- Interleavings inside one handler (stale saves, concurrent moves or version uploads): the code does not keep the main invariants there.
- HTTP routing and JSON, JWT, bcrypt and token randomness. A password check is equality; a share token is any text.
- The order of `listFiles` and `listFolders`; they are modelled as sets.
- The file and folder reads that only return one row (`getFile`, `getFolder`, `getPublicShare`), the download URL handler, notification texts, metrics and logs.
- The storage key in a task's payload: the model's task names its row, whose key never changes (`RowHistory.RunKeepsColumns`).
- tusd's chunk protocol and its staging files, ffmpeg, ffprobe, image decoding: an attempt ends in one of a list of outcomes.
- Stored notifications (`internalNotify`, `markRead`, `listNotifications`): single-row inserts and updates.
- Failure of the database update inside `handleTaskError`, which would leave a row processing although its task is archived.
- Ladder.SelectRenditions: widths and heights are mathematical integers; sizes near 2^63 are not distinguished.
- Ladder.FloatWidthExact: products of 2^53 and more, and a source height of zero, where the result of the conversion is up to the platform.
- MasterPlaylist.BandwidthOfKilobitsIff: letters outside A to Z and the Kelvin sign are taken as their own lower case; no such letter survives Atoi anyway.
- NotifyHub.Hub.SubscribeLoop: no connection arrives, leaves or breaks while this loop runs; `Fanout` proves the same with those steps interleaved.
- Serve.ServeThumbnail: the handlers are run without interruption; what interleaving leaves valid is `Attempts.SuccessIsValid`.
- TokenRefresh.StepKeeps: a /refresh reply without a token field, and callbacks that call back into the module before they return.
- React components, pages, query hooks and the cache that incoming notifications are put into.
