/** Presigned uploads, new versions, completion and resumable uploads, after the handlers
    of backend/cmd/upload-svc: handlers.go, handlers_versions.go and tus.go. */
module UploadSvc {
  import opened Machine
  import opened Wrappers
  import opened Schema
  import opened Sums
  import opened Lineage
  import opened ObjectKeys
  import opened ApiVersions

  // ---------- quota ----------

  function SizesOf(files: Files, user: Id): map<Id, int> {
    map id | id in files && files[id].user == user :: files[id].size
  }

  /** Bytes a user has stored, over every version. */
  ghost function Used(files: Files, user: Id): int {
    Sum(SizesOf(files, user))
  }

  method SumSizes(db: Backend, user: Id) returns (used: int)
    ensures used == Used(db.files, user)
  {
    var todo := SizesOf(db.files, user);
    used := 0;
    while todo != map[]
      invariant used + Sum(todo) == Used(db.files, user)
      decreases |todo|
    {
      var id :| id in todo;
      SumSplit(todo, id);
      used := used + todo[id];
      todo := todo - {id};
    }
  }

  /** The quota gate: a total that does not fit 64 bits fails the query, a sum that does not wraps. */
  ghost function QuotaVerdict(quotas: map<Id, int>, files: Files, user: Id, incoming: int): Reply {
    if user !in quotas || Used(files, user) > INT64_MAX then ServerError
    else if Wrap64(Used(files, user) + incoming) > quotas[user] then TooLarge
    else Success
  }

  method CheckQuota(db: Backend, user: Id, incoming: Int64) returns (reply: Reply)
    ensures reply == QuotaVerdict(db.quotas, db.files, user, incoming)
  {
    if user !in db.quotas { return ServerError; }
    var used := SumSizes(db, user);
    if used > INT64_MAX { return ServerError; }
    if Wrap64(used + incoming) > db.quotas[user] { return TooLarge; }
    return Success;
  }

  /** The gate admits exactly the uploads that fit, and those whose sum overflows 64 bits. */
  lemma QuotaVerdictExact(quotas: map<Id, int>, files: Files, user: Id, incoming: int)
    requires user in quotas && 0 <= quotas[user] <= INT64_MAX
    requires 0 <= Used(files, user) <= INT64_MAX && 0 <= incoming <= INT64_MAX
    ensures QuotaVerdict(quotas, files, user, incoming) == Success <==>
            Used(files, user) + incoming <= quotas[user] || Used(files, user) + incoming > INT64_MAX
  {
  }

  /** So an admitted upload keeps the user within quota exactly when the sum did not overflow. */
  lemma AdmittedWithinQuotaIff(quotas: map<Id, int>, files: Files, user: Id, incoming: int)
    requires user in quotas && 0 <= quotas[user] <= INT64_MAX
    requires 0 <= Used(files, user) <= INT64_MAX && 0 <= incoming <= INT64_MAX
    requires QuotaVerdict(quotas, files, user, incoming) == Success
    ensures Used(files, user) + incoming <= quotas[user] <==> incoming <= INT64_MAX - Used(files, user)
  {
    QuotaVerdictExact(quotas, files, user, incoming);
  }

  // ---------- accepted resumable uploads ----------

  function Meta(meta: map<string, string>, key: string): string {
    if key in meta then meta[key] else ""
  }

  function OwnerOf(upload: Upload): Option<Id> {
    ParseUuid(Meta(upload.meta, "user_id"))
  }

  /** Bytes of `user` have landed: none of the uploads still under way is alone any more. */
  function Crowded(uploads: map<string, Upload>, user: Id): map<string, Upload> {
    map u | u in uploads ::
      if OwnerOf(uploads[u]) == Some(user) then uploads[u].(alone := false) else uploads[u]
  }

  // ---------- new file ----------

  function NewRow(user: Id, id: Id, name: string, folder: Option<Id>, size: int, mime: string, status: Status): File {
    File(name, user, folder, Original(user, id, name), size, mime, status, None, None, 1, None, true)
  }

  function FolderOf(folder: FolderArg): Option<Id> {
    if folder.Given? then Some(folder.id) else None
  }

  /** How much of an admitted size the quota check really covers: all of it, or nothing when the sum overflowed. */
  ghost function Fitting(files: Files, user: Id, size: int): int {
    if size <= INT64_MAX - Used(files, user) then size else 0
  }

  ghost function AfterPresign(s: Store, user: Id, name: string, size: Int64, mime: string, folder: FolderArg, newId: Id): Outcome {
    var verdict := QuotaVerdict(s.quotas, s.files, user, size);
    if name == "" || size <= 0 || mime == "" then Outcome(s, BadRequest)
    else if verdict != Success then Outcome(s, verdict)
    else if folder == Malformed || (folder.Given? && !OwnsFolder(s.folders, user, folder.id)) then Outcome(s, BadRequest)
    else
      var row := NewRow(user, newId, name, FolderOf(folder), size, mime, Pending);
      Outcome(s.(files := s.files[newId := row], uploads := Crowded(s.uploads, user),
                 declared := s.declared[newId := Fitting(s.files, user, size)], issued := s.issued + {newId}), Success)
  }

  method Presign(db: Backend, user: Id, name: string, size: Int64, mime: string, folder: FolderArg, newId: Id) returns (reply: Reply)
    modifies db
    ensures Outcome(db.State(), reply) == AfterPresign(old(db.State()), user, name, size, mime, folder, newId)
  {
    if name == "" || size <= 0 || mime == "" { return BadRequest; }
    var verdict := CheckQuota(db, user, size);
    if verdict != Success { return verdict; }
    var folderId: Option<Id> := None;
    match folder {
      case Omitted =>
      case Empty =>
      case Malformed => return BadRequest;
      case Given(d) =>
        if !OwnsFolder(db.folders, user, d) { return BadRequest; }
        folderId := Some(d);
    }
    db.declared := db.declared[newId := Fitting(db.files, user, size)];
    db.files := db.files[newId := NewRow(user, newId, name, folderId, size, mime, Pending)];
    db.uploads := Crowded(db.uploads, user);
    db.issued := db.issued + {newId};
    return Success;
  }

  /** The wrap-around is within reach: whoever stores anything at all is admitted with the largest size. */
  lemma LargestSizeAdmitted(quotas: map<Id, int>, files: Files, user: Id)
    requires user in quotas && 0 <= quotas[user] <= INT64_MAX && 0 < Used(files, user) <= INT64_MAX
    ensures QuotaVerdict(quotas, files, user, INT64_MAX) == Success
    ensures Used(files, user) + INT64_MAX > quotas[user]
  {
    QuotaVerdictExact(quotas, files, user, INT64_MAX);
  }

  /** After such a presign the total no longer fits 64 bits, and every quota check of that user fails. */
  lemma OverflowBlocksUser(s: Store, user: Id, name: string, size: Int64, mime: string, folder: FolderArg,
                           newId: Id, incoming: Int64)
    requires newId !in s.files && size > INT64_MAX - Used(s.files, user)
    requires AfterPresign(s, user, name, size, mime, folder, newId).reply == Success
    ensures var t := AfterPresign(s, user, name, size, mime, folder, newId).store;
            QuotaVerdict(t.quotas, t.files, user, incoming) == ServerError
  {
    var t := AfterPresign(s, user, name, size, mime, folder, newId).store;
    assert SizesOf(t.files, user) == SizesOf(s.files, user)[newId := size];
    SumAdded(SizesOf(s.files, user), newId, size);
  }

  // ---------- new version ----------

  ghost predicate IsFirst(ids: set<Id>, first: Id) {
    first in ids && forall id | id in ids :: first <= id
  }

  lemma {:induction false} FirstExists(ids: set<Id>)
    requires ids != {}
    ensures exists first :: IsFirst(ids, first)
    decreases ids
  {
    var a :| a in ids;
    if ids == {a} {
      assert IsFirst(ids, a);
    } else {
      FirstExists(ids - {a});
      var b :| IsFirst(ids - {a}, b);
      assert forall id | id in ids :: id == a || id in ids - {a};
      assert IsFirst(ids, if a < b then a else b);
    }
  }

  ghost function FirstOf(ids: set<Id>): (first: Id)
    requires ids != {}
    ensures IsFirst(ids, first)
  {
    FirstExists(ids);
    var first :| IsFirst(ids, first);
    first
  }

  /** The row `First` returns: queries order by primary key. */
  method First(ids: set<Id>) returns (first: Id)
    requires ids != {}
    ensures first == FirstOf(ids)
  {
    first :| first in ids;
    var todo := ids - {first};
    while todo != {}
      invariant first in ids && todo <= ids
      invariant forall id | id in ids :: id in todo || first <= id
      decreases todo
    {
      var next :| next in todo;
      todo := todo - {next};
      if next < first { first := next; }
    }
    assert IsFirst(ids, first);
  }

  ghost predicate IsMaxVersion(files: Files, rows: set<Id>, v: int) {
    if rows == {} then v == 0
    else HasVersion(files, rows, v) && forall id | id in rows && id in files :: files[id].version <= v
  }

  /** COALESCE(MAX(version), 0). */
  ghost function MaxVersionOf(files: Files, rows: set<Id>): (v: int)
    requires rows <= files.Keys
    ensures IsMaxVersion(files, rows, v)
    decreases rows
  {
    if rows == {} then 0 else
      var a :| a in rows;
      var rest := MaxVersionOf(files, rows - {a});
      assert rows - {a} != {} ==> HasVersion(files, rows, rest);
      assert HasVersion(files, rows, files[a].version);
      assert forall id | id in rows :: id == a || id in rows - {a};
      if rows == {a} || rest < files[a].version then files[a].version else rest
  }

  method MaxVersion(files: Files, rows: set<Id>) returns (v: int)
    requires rows <= files.Keys
    ensures v == MaxVersionOf(files, rows)
  {
    if rows == {} { return 0; }
    var best := Newest(files, rows);
    v := files[best].version;
    assert HasVersion(files, rows, v);
    assert IsMaxVersion(files, rows, MaxVersionOf(files, rows));
  }

  function CurrentRows(files: Files, rows: set<Id>): set<Id> {
    set id | id in rows && id in files && files[id].current
  }

  function NextVersion(current: File, root: Id, user: Id, newId: Id, size: int, mime: string, version: int): File {
    File(current.name, user, current.folder, Original(user, newId, current.name), size, mime, Pending,
         None, None, version, Some(root), true)
  }

  function CurrentVersions(files: Files, user: Id, id: Id): set<Id> {
    if OwnsFile(files, user, id) then CurrentRows(files, Selected(files, user, Root(files, id))) else {}
  }

  ghost function VersionVerdict(s: Store, user: Id, id: Id, size: Int64, mime: string): Reply {
    if size <= 0 || mime == "" then BadRequest
    else if !OwnsFile(s.files, user, id) then NotFound
    else if QuotaVerdict(s.quotas, s.files, user, size) != Success then QuotaVerdict(s.quotas, s.files, user, size)
    else if CurrentVersions(s.files, user, id) == {} then ServerError
    else Success
  }

  ghost function VersionRow(files: Files, user: Id, id: Id, size: Int64, mime: string, newId: Id): (row: File)
    requires CurrentVersions(files, user, id) != {}
    ensures row.parent == Some(Root(files, id)) && row.user == user && row.current
    ensures row.version == MaxVersionOf(files, Selected(files, user, Root(files, id))) + 1
  {
    var root := Root(files, id);
    NextVersion(files[FirstOf(CurrentVersions(files, user, id))], root, user, newId, size, mime,
                MaxVersionOf(files, Selected(files, user, root)) + 1)
  }

  ghost function AfterPresignVersion(s: Store, user: Id, id: Id, size: Int64, mime: string, newId: Id): Outcome {
    var verdict := VersionVerdict(s, user, id, size, mime);
    if verdict != Success then Outcome(s, verdict)
    else Outcome(WithVersion(s, user, Root(s.files, id), newId, VersionRow(s.files, user, id, size, mime, newId)), Success)
  }

  ghost function WithVersion(s: Store, user: Id, root: Id, newId: Id, row: File): Store {
    s.(files := Superseded(s.files, user, root)[newId := row], uploads := Crowded(s.uploads, user),
       declared := s.declared[newId := Fitting(s.files, user, row.size)], issued := s.issued + {newId})
  }

  /** Supersede the lineage and insert the new current row, in one transaction. */
  method InsertVersionRow(db: Backend, user: Id, root: Id, newId: Id, row: File)
    modifies db
    ensures db.State() == WithVersion(old(db.State()), user, root, newId, row)
  {
    db.declared := db.declared[newId := Fitting(db.files, user, row.size)];
    db.files := Superseded(db.files, user, root);
    db.files := db.files[newId := row];
    db.uploads := Crowded(db.uploads, user);
    db.issued := db.issued + {newId};
  }

  method CheckVersion(db: Backend, user: Id, id: Id, size: Int64, mime: string) returns (reply: Reply)
    ensures reply == VersionVerdict(db.State(), user, id, size, mime)
  {
    if size <= 0 || mime == "" { return BadRequest; }
    if !OwnsFile(db.files, user, id) { return NotFound; }
    reply := CheckQuota(db, user, size);
    if reply == Success && CurrentVersions(db.files, user, id) == {} { reply := ServerError; }
  }

  method PresignVersion(db: Backend, user: Id, id: Id, size: Int64, mime: string, newId: Id) returns (reply: Reply)
    modifies db
    ensures Outcome(db.State(), reply) == AfterPresignVersion(old(db.State()), user, id, size, mime, newId)
  {
    reply := CheckVersion(db, user, id, size, mime);
    if reply != Success { return; }
    var newVersion := BuildVersion(db, user, id, size, mime, newId);
    InsertVersionRow(db, user, Root(db.files, id), newId, newVersion);
  }

  /** The new row inherits name and folder from the current version. */
  method BuildVersion(db: Backend, user: Id, id: Id, size: Int64, mime: string, newId: Id) returns (row: File)
    requires CurrentVersions(db.files, user, id) != {}
    ensures row == VersionRow(db.files, user, id, size, mime, newId) && row.size == size
  {
    var root := Root(db.files, id);
    var current := First(CurrentVersions(db.files, user, id));
    var highest := MaxVersion(db.files, Selected(db.files, user, root));
    row := NextVersion(db.files[current], root, user, newId, size, mime, highest + 1);
  }

  /** In a reachable state the highest version number is the length of the lineage. */
  lemma HighestIsLength(files: Files, user: Id, id: Id)
    requires LineageInv(files) && OwnsFile(files, user, id)
    ensures MaxVersionOf(files, Selected(files, user, Root(files, id))) == |Members(files, Root(files, id))|
  {
    var root := Root(files, id);
    RootOfRow(files, id);
    SelectedIsMembers(files, user, root);
    assert LineageOk(files, root);
    HighestVersion(files, Members(files, root));
  }

  /** In a reachable state the owner's request always finds the current version, and it is the right one. */
  lemma CurrentVersionFound(files: Files, user: Id, id: Id)
    requires LineageInv(files) && OwnsFile(files, user, id)
    ensures OneCurrent(files, Members(files, Root(files, id)))
    ensures CurrentVersions(files, user, id) == {CurrentOf(files, Root(files, id))}
  {
    var root := Root(files, id);
    RootOfRow(files, id);
    SelectedIsMembers(files, user, root);
    assert LineageOk(files, root);
    assert IsTheCurrent(files, Members(files, root), CurrentOf(files, root));
  }

  lemma PresignVersionKeepsLineages(s: Store, user: Id, id: Id, size: Int64, mime: string, newId: Id)
    requires LineageInv(s.files) && newId !in s.files
    ensures LineageInv(AfterPresignVersion(s, user, id, size, mime, newId).store.files)
  {
    if VersionVerdict(s, user, id, size, mime) == Success {
      VersionRowInv(s.files, user, id, newId, VersionRow(s.files, user, id, size, mime, newId));
    }
  }

  lemma VersionRowInv(files: Files, user: Id, id: Id, newId: Id, row: File)
    requires LineageInv(files) && OwnsFile(files, user, id) && newId !in files
    requires row.parent == Some(Root(files, id)) && row.user == user && row.current
    requires row.version == MaxVersionOf(files, Selected(files, user, Root(files, id))) + 1
    ensures LineageInv(Superseded(files, user, Root(files, id))[newId := row])
  {
    RootOfRow(files, id);
    HighestIsLength(files, user, id);
    InsertVersion(files, user, Root(files, id), newId, row);
  }

  // ---------- jobs ----------

  const IMAGE_MAX_RETRY := 5
  const VIDEO_MAX_RETRY := 2

  function KindOf(mime: string): Option<JobKind> {
    if IsImage(mime) then Some(ImageThumbnail) else if IsVideo(mime) then Some(VideoTranscode) else None
  }

  /** The two task constructors of backend/internal/queue/tasks.go. */
  function NewJob(kind: JobKind, file: Id): Job {
    Job(kind, file, 0, if kind == ImageThumbnail then IMAGE_MAX_RETRY else VIDEO_MAX_RETRY, Live, 0, {})
  }

  /** Enqueueing never fails the request: a row whose task is lost is only remembered as stranded. */
  ghost function AfterEnqueue(s: Store, mime: string, file: Id, jobId: Id, enqueued: bool): Store {
    match KindOf(mime)
    case None => s
    case Some(kind) =>
      if enqueued then s.(jobs := s.jobs[jobId := NewJob(kind, file)], issued := s.issued + {jobId})
      else s.(stranded := s.stranded + {file})
  }

  method EnqueueOrLog(db: Backend, mime: string, file: Id, jobId: Id, enqueued: bool)
    modifies db`jobs, db`issued, db`stranded
    ensures db.State() == AfterEnqueue(old(db.State()), mime, file, jobId, enqueued)
  {
    var kind := ImageThumbnail;
    if !IsImage(mime) {
      if !IsVideo(mime) { return; }
      kind := VideoTranscode;
    }
    if !enqueued {
      db.stranded := db.stranded + {file};
      return;
    }
    db.jobs := db.jobs[jobId := NewJob(kind, file)];
    db.issued := db.issued + {jobId};
  }

  // ---------- completion ----------

  ghost function AfterComplete(s: Store, user: Id, id: Id, jobId: Id, enqueued: bool): Outcome {
    if !OwnsFile(s.files, user, id) then Outcome(s, NotFound)
    else if s.files[id].status != Pending then Outcome(s, Conflict)
    else if s.files[id].storageKey !in s.objects then Outcome(s, BadRequest)
    else
      var f := s.files[id];
      var g := f.(size := s.objects[f.storageKey], status := if KindOf(f.mime).Some? then Processing else Ready);
      Outcome(AfterEnqueue(s.(files := s.files[id := g]), f.mime, id, jobId, enqueued), Success)
  }

  method Complete(db: Backend, user: Id, id: Id, jobId: Id, enqueued: bool) returns (reply: Reply)
    modifies db
    ensures Outcome(db.State(), reply) == AfterComplete(old(db.State()), user, id, jobId, enqueued)
  {
    if !OwnsFile(db.files, user, id) { return NotFound; }
    var file := db.files[id];
    if file.status != Pending { return Conflict; }
    if file.storageKey !in db.objects { return BadRequest; }
    file := file.(size := db.objects[file.storageKey]);
    if IsImage(file.mime) || IsVideo(file.mime) {
      file := file.(status := Processing);
    } else {
      file := file.(status := Ready);
    }
    db.files := db.files[id := file];
    EnqueueOrLog(db, file.mime, id, jobId, enqueued);
    return Success;
  }

  // ---------- resumable uploads ----------

  function FirstNonEmpty(values: seq<string>): string {
    if values == [] then "" else if values[0] != "" then values[0] else FirstNonEmpty(values[1..])
  }

  /** How the metadata names a folder. */
  function MetaFolder(meta: map<string, string>): FolderArg {
    var text := Meta(meta, "folder_id");
    if text == "" then Omitted
    else match ParseUuid(text) case Some(id) => Given(id) case None => Malformed
  }

  ghost function PreCreateVerdict(s: Store, user: Option<Id>, meta: map<string, string>, size: Int64): Reply {
    var folder := MetaFolder(meta);
    if user.None? then Unauthorized
    else if FirstNonEmpty([Meta(meta, "filename"), Meta(meta, "name")]) == "" then BadRequest
    else if folder == Malformed || (folder.Given? && !OwnsFolder(s.folders, user.value, folder.id)) then BadRequest
    else QuotaVerdict(s.quotas, s.files, user.value, size)
  }

  function Stamped(meta: map<string, string>, user: Id): map<string, string> {
    meta["user_id" := UuidText(user)]
  }

  ghost function Accepted(files: Files, meta: map<string, string>, user: Id, size: int): Upload {
    Upload(Stamped(meta, user), size, Fitting(files, user, size) == size)
  }

  ghost function AfterPreCreate(s: Store, user: Option<Id>, meta: map<string, string>, size: Int64, uploadId: string): Outcome {
    var verdict := PreCreateVerdict(s, user, meta, size);
    if verdict != Success then Outcome(s, verdict)
    else Outcome(s.(uploads := s.uploads[uploadId := Accepted(s.files, meta, user.value, size)]), Success)
  }

  /** Accepts an upload and stamps its owner, overriding any owner the client claimed; tusd then keeps the
      stamped metadata under `uploadId`. */
  method TusPreCreate(db: Backend, user: Option<Id>, meta: map<string, string>, size: Int64, uploadId: string)
    returns (reply: Reply, stamped: map<string, string>)
    modifies db`uploads
    ensures Outcome(db.State(), reply) == AfterPreCreate(old(db.State()), user, meta, size, uploadId)
    ensures stamped == if reply == Success then Stamped(meta, user.value) else map[]
  {
    stamped := map[];
    if user.None? { return Unauthorized, map[]; }
    var name := FirstNonEmpty([Meta(meta, "filename"), Meta(meta, "name")]);
    if name == "" { return BadRequest, map[]; }
    if Meta(meta, "folder_id") != "" {
      var parsed := ParseUuid(Meta(meta, "folder_id"));
      if parsed.None? || !OwnsFolder(db.folders, user.value, parsed.value) { return BadRequest, map[]; }
    }
    reply := CheckQuota(db, user.value, size);
    if reply != Success { return; }
    stamped := Copied(meta);
    stamped := stamped["user_id" := UuidText(user.value)];
    db.uploads := db.uploads[uploadId := Accepted(db.files, meta, user.value, size)];
  }

  method Copied(meta: map<string, string>) returns (copy: map<string, string>)
    ensures copy == meta
  {
    copy := map[];
    var todo := meta.Keys;
    while todo != {}
      invariant todo <= meta.Keys
      invariant copy == map k | k in meta && k !in todo :: meta[k]
      decreases todo
    {
      var k :| k in todo;
      copy := copy[k := meta[k]];
      todo := todo - {k};
    }
  }

  const OCTET_STREAM := "application/octet-stream"

  function TusMime(filetype: string): string {
    if filetype == "" then OCTET_STREAM else filetype
  }

  /** How much of a finished upload its quota check still covers. */
  function Covered(uploads: map<string, Upload>, uploadId: string): int {
    if uploadId in uploads && uploads[uploadId].alone then uploads[uploadId].size else 0
  }

  function TusName(meta: map<string, string>, uploadId: string): string {
    FirstNonEmpty([Meta(meta, "filename"), Meta(meta, "name"), uploadId])
  }

  function TusRow(meta: map<string, string>, uploadId: string, user: Id, size: int, newId: Id): File {
    var mime := TusMime(Meta(meta, "filetype"));
    NewRow(user, newId, TusName(meta, uploadId), FolderOf(MetaFolder(meta)), size, mime,
           if KindOf(mime).Some? then Processing else Ready)
  }

  function WithTusRow(s: Store, newId: Id, row: File, covered: int): Store {
    s.(objects := s.objects[row.storageKey := row.size], files := s.files[newId := row],
       uploads := Crowded(s.uploads, row.user), declared := s.declared[newId := covered], issued := s.issued + {newId})
  }

  /** A finished upload: object first, then the row, then its task. Nothing is checked again, and an upload
      without a readable owner, or whose object cannot be stored, leaves nothing. */
  ghost function AfterFinishTus(s: Store, uploadId: string, meta: map<string, string>, size: Int64,
                                newId: Id, jobId: Id, stored: bool, enqueued: bool): Store {
    var t := s.(uploads := s.uploads - {uploadId});
    var owner := ParseUuid(Meta(meta, "user_id"));
    if owner.None? || !stored then t
    else
      var row := TusRow(meta, uploadId, owner.value, size, newId);
      AfterEnqueue(WithTusRow(t, newId, row, Covered(s.uploads, uploadId)), row.mime, newId, jobId, enqueued)
  }

  /** Enqueueing touches the queue alone. */
  lemma EnqueueRows(s: Store, mime: string, file: Id, jobId: Id, enqueued: bool)
    ensures var t := AfterEnqueue(s, mime, file, jobId, enqueued);
            && t == s.(jobs := t.jobs, issued := t.issued, stranded := t.stranded)
            && s.issued <= t.issued <= s.issued + {jobId} && s.stranded <= t.stranded
            && t.jobs.Keys <= s.jobs.Keys + {jobId} && (jobId in t.jobs ==> jobId in s.jobs || jobId in t.issued)
  {
  }

  /** What a finished upload does to the tables of rows and folders. */
  lemma FinishTusRows(s: Store, uploadId: string, meta: map<string, string>, size: Int64,
                      newId: Id, jobId: Id, stored: bool, enqueued: bool)
    ensures var t := AfterFinishTus(s, uploadId, meta, size, newId, jobId, stored, enqueued);
            var owner := ParseUuid(Meta(meta, "user_id"));
            && t.folders == s.folders && t.quotas == s.quotas
            && s.issued <= t.issued && s.stranded <= t.stranded
            && t.files == if owner.Some? && stored then s.files[newId := TusRow(meta, uploadId, owner.value, size, newId)]
                          else s.files
  {
    var owner := ParseUuid(Meta(meta, "user_id"));
    if owner.Some? && stored {
      var row := TusRow(meta, uploadId, owner.value, size, newId);
      var t := WithTusRow(s.(uploads := s.uploads - {uploadId}), newId, row, Covered(s.uploads, uploadId));
      EnqueueRows(t, row.mime, newId, jobId, enqueued);
    }
  }

  method InsertTusRow(db: Backend, newId: Id, row: File, ghost covered: int)
    modifies db
    ensures db.State() == WithTusRow(old(db.State()), newId, row, covered)
  {
    db.objects := db.objects[row.storageKey := row.size];
    db.files := db.files[newId := row];
    db.uploads := Crowded(db.uploads, row.user);
    db.declared := db.declared[newId := covered];
    db.issued := db.issued + {newId};
  }

  method FinishTusUpload(db: Backend, uploadId: string, meta: map<string, string>, size: Int64,
                         newId: Id, jobId: Id, stored: bool, enqueued: bool)
    modifies db
    ensures db.State() == AfterFinishTus(old(db.State()), uploadId, meta, size, newId, jobId, stored, enqueued)
  {
    ghost var covered := Covered(db.uploads, uploadId);
    db.uploads := db.uploads - {uploadId};
    var owner := ParseUuid(Meta(meta, "user_id"));
    if owner.None? { return; }
    var name := FirstNonEmpty([Meta(meta, "filename"), Meta(meta, "name"), uploadId]);
    var mime := Meta(meta, "filetype");
    if mime == "" { mime := OCTET_STREAM; }
    var folderId: Option<Id> := None;
    if Meta(meta, "folder_id") != "" {
      folderId := ParseUuid(Meta(meta, "folder_id"));
    }
    if !stored { return; }
    var status := Ready;
    if IsImage(mime) || IsVideo(mime) { status := Processing; }
    var file := NewRow(owner.value, newId, name, folderId, size, mime, status);
    assert file == TusRow(meta, uploadId, owner.value, size, newId);
    InsertTusRow(db, newId, file, covered);
    EnqueueOrLog(db, mime, newId, jobId, enqueued);
  }
}
