/** What becomes of an upload: from the request that opens it to the row, and the task, that it ends in. */
module UploadHistory {
  import opened Wrappers
  import opened Machine
  import opened Schema
  import opened Lineage
  import opened ApiFiles
  import opened UploadSvc
  import opened Invariants
  import opened Runs
  import opened RowHistory

  /** A row as an upload starts or ends it: a current version, for one owner, in one place, of one type. */
  predicate FreshRow(f: File, id: Id, user: Id, name: string, folder: Option<Id>, size: int, mime: string) {
    && f.user == user && f.name == name && f.folder == folder && f.size == size && f.mime == mime && f.current
    && f.storageKey == Original(user, id, name) && f.thumbnail == None && f.playlist == None
  }

  // ---------- a new file ----------

  /** Which presign requests are granted. */
  lemma PresignAnswers(s: Store, user: Id, name: string, size: Int64, mime: string, at: FolderArg, newId: Id)
    ensures var o := AfterPresign(s, user, name, size, mime, at, newId);
            var complete := name != "" && size > 0 && mime != "";
            var quota := QuotaVerdict(s.quotas, s.files, user, size);
            && (o.reply == Success <==> complete && quota == Success && FolderAllowed(s, user, at))
            && (complete && quota != Success ==> o.reply == quota)
            && (!complete || (quota == Success && !FolderAllowed(s, user, at)) <==> o.reply == BadRequest)
            && (o.reply != Success ==> o.store == s)
  {
  }

  /** A granted one adds a pending first version as requested, shown in that one place. */
  lemma PresignOpens(s: Store, user: Id, name: string, size: Int64, mime: string, at: FolderArg, newId: Id, place: Option<Id>)
    requires newId !in s.files && AfterPresign(s, user, name, size, mime, at, newId).reply == Success
    ensures var t := AfterPresign(s, user, name, size, mime, at, newId).store;
            && newId in t.files && t.files == s.files[newId := t.files[newId]]
            && t == s.(files := t.files, uploads := t.uploads, declared := t.declared, issued := s.issued + {newId})
            && FreshRow(t.files[newId], newId, user, name, PlaceOf(at), size, mime)
            && t.files[newId].status == Pending && t.files[newId].version == 1 && t.files[newId].parent == None
            && ListFiles(t.files, user, place) ==
               ListFiles(s.files, user, place) + if place == PlaceOf(at) then {newId} else {}
  {
  }

  // ---------- a new version ----------

  /** In a reachable state a new version is refused only for what the caller can see: the request, the file, the quota. */
  lemma VersionAnswers(s: Store, user: Id, id: Id, size: Int64, mime: string, newId: Id)
    requires LineageInv(s.files)
    ensures var o := AfterPresignVersion(s, user, id, size, mime, newId);
            var complete := size > 0 && mime != "";
            var quota := QuotaVerdict(s.quotas, s.files, user, size);
            && (o.reply == Success <==> complete && OwnsFile(s.files, user, id) && quota == Success)
            && (!complete <==> o.reply == BadRequest)
            && (complete && !OwnsFile(s.files, user, id) <==> o.reply == NotFound)
            && (complete && OwnsFile(s.files, user, id) && quota != Success ==> o.reply == quota)
            && (o.reply != Success ==> o.store == s)
  {
    if OwnsFile(s.files, user, id) { CurrentVersionFound(s.files, user, id); }
  }

  /** A granted one adds the next version, with the type and size that were asked for and the name and place of the
      version that was current, which it alone replaces. So the file is shown in the same place as before. */
  lemma VersionOpens(s: Store, user: Id, id: Id, size: Int64, mime: string, newId: Id, place: Option<Id>)
    requires LineageInv(s.files) && newId !in s.files && AfterPresignVersion(s, user, id, size, mime, newId).reply == Success
    ensures id in s.files && OneCurrent(s.files, Members(s.files, Root(s.files, id)))
    ensures var root := Root(s.files, id);
            var was := CurrentOf(s.files, root);
            var t := AfterPresignVersion(s, user, id, size, mime, newId).store;
            && newId in t.files && t.files == s.files[was := s.files[was].(current := false)][newId := t.files[newId]]
            && t == s.(files := t.files, uploads := t.uploads, declared := t.declared, issued := s.issued + {newId})
            && FreshRow(t.files[newId], newId, user, s.files[was].name, s.files[was].folder, size, mime)
            && t.files[newId].status == Pending && t.files[newId].parent == Some(root)
            && t.files[newId].version == |Members(s.files, root)| + 1
            && ListFiles(t.files, user, place) ==
               if place == s.files[was].folder then ListFiles(s.files, user, place) - {was} + {newId}
               else ListFiles(s.files, user, place)
  {
    VersionAnswers(s, user, id, size, mime, newId);
    CurrentVersionFound(s.files, user, id);
    HighestIsLength(s.files, user, id);
    var root := Root(s.files, id);
    var was := CurrentOf(s.files, root);
    RootOfRow(s.files, id);
    SelectedIsMembers(s.files, user, root);
    assert FirstOf({was}) == was;
    OneSuperseded(s.files, user, root, was);
    VersionLists(s.files, user, was, newId, VersionRow(s.files, user, id, size, mime, newId), place);
  }

  /** Only the current row of the lineage loses its flag. */
  lemma OneSuperseded(files: Files, user: Id, root: Id, was: Id)
    requires IsTheCurrent(files, Selected(files, user, root), was) && was in files
    ensures Superseded(files, user, root) == files[was := files[was].(current := false)]
  {
  }

  lemma VersionLists(files: Files, user: Id, was: Id, newId: Id, row: File, place: Option<Id>)
    requires was in files && files[was].user == user && files[was].current && newId !in files
    requires row.user == user && row.current && row.folder == files[was].folder
    ensures ListFiles(files[was := files[was].(current := false)][newId := row], user, place) ==
            if place == files[was].folder then ListFiles(files, user, place) - {was} + {newId}
            else ListFiles(files, user, place)
  {
  }

  // ---------- completing ----------

  lemma CompleteAnswers(s: Store, user: Id, id: Id, jobId: Id, enqueued: bool)
    ensures var o := AfterComplete(s, user, id, jobId, enqueued);
            && (o.reply == NotFound <==> !OwnsFile(s.files, user, id))
            && (o.reply == Conflict <==> OwnsFile(s.files, user, id) && s.files[id].status != Pending)
            && (o.reply == Success <==>
                  OwnsFile(s.files, user, id) && s.files[id].status == Pending && s.files[id].storageKey in s.objects)
            && (o.reply != Success ==> o.store == s && o.reply in {NotFound, Conflict, BadRequest})
  {
  }

  /** The worker that a type of file is for. */
  predicate WorkedOnBy(mime: string, kind: JobKind) {
    match kind
    case ImageThumbnail => HasPrefix(mime, "image/")
    case VideoTranscode => HasPrefix(mime, "video/")
  }

  /** The row is ready at once, or waits for exactly one task of the right kind: on the queue if that took it. */
  ghost predicate HandedOver(s: Store, t: Store, id: Id, jobId: Id, enqueued: bool) {
    && id in t.files
    && var mime := t.files[id].mime;
       var media := WorkedOnBy(mime, ImageThumbnail) || WorkedOnBy(mime, VideoTranscode);
       && t.files[id].status == (if media then Processing else Ready)
       && t.jobs - {jobId} == s.jobs - {jobId}
       && (jobId in t.jobs <==> media && enqueued)
       && (jobId in t.jobs ==> t.jobs[jobId].file == id && t.jobs[jobId].phase == Live && WorkedOnBy(mime, t.jobs[jobId].kind))
       && (id in t.stranded <==> media && !enqueued)
  }

  lemma MediaKinds(mime: string)
    ensures !(WorkedOnBy(mime, ImageThumbnail) && WorkedOnBy(mime, VideoTranscode))
    ensures KindOf(mime) == if WorkedOnBy(mime, ImageThumbnail) then Some(ImageThumbnail)
                            else if WorkedOnBy(mime, VideoTranscode) then Some(VideoTranscode) else None
  {
    assert "image/"[0] == 'i' && "video/"[0] == 'v';
  }

  lemma EnqueueHandsOver(s: Store, mime: string, id: Id, jobId: Id, enqueued: bool)
    requires jobId !in s.jobs && id !in s.stranded && id in s.files && s.files[id].mime == mime
    requires s.files[id].status == if KindOf(mime).Some? then Processing else Ready
    ensures HandedOver(s, AfterEnqueue(s, mime, id, jobId, enqueued), id, jobId, enqueued)
  {
    MediaKinds(mime);
  }

  lemma CompleteHandsOver(s: Store, user: Id, id: Id, jobId: Id, enqueued: bool)
    requires jobId !in s.jobs && id !in s.stranded && AfterComplete(s, user, id, jobId, enqueued).reply == Success
    ensures var t := AfterComplete(s, user, id, jobId, enqueued).store;
            && HandedOver(s, t, id, jobId, enqueued) && t.objects == s.objects
            && t.files == s.files[id := s.files[id].(size := s.objects[s.files[id].storageKey], status := t.files[id].status)]
  {
    var f := s.files[id];
    var g := f.(size := s.objects[f.storageKey], status := if KindOf(f.mime).Some? then Processing else Ready);
    EnqueueHandsOver(s.(files := s.files[id := g]), f.mime, id, jobId, enqueued);
  }

  /** The request that opened row `id`. */
  ghost predicate Opens(s: Store, e: Event, id: Id, user: Id, mime: string)
    requires Valid(s, e)
  {
    match e
    case PresignEv(u, name, size, m, at, newId) =>
      u == user && m == mime && newId == id && AfterPresign(s, u, name, size, m, at, newId).reply == Success
    case PresignVersionEv(u, file, size, m, newId) =>
      u == user && m == mime && newId == id && AfterPresignVersion(s, u, file, size, m, newId).reply == Success
    case _ => false
  }

  lemma OpenedRow(s: Store, e: Event, id: Id, user: Id, mime: string)
    requires Inv(s) && Valid(s, e) && Opens(s, e, id, user, mime)
    ensures var t := Apply(s, e);
            Inv(t) && id in t.files && t.files[id].user == user && t.files[id].mime == mime
            && t.files[id].storageKey.id == id && t.files[id].storageKey.Original?
  {
    StepKeepsInv(s, e);
    if e.PresignEv? {
      PresignOpens(s, e.user, e.name, e.size, e.mime, e.at, e.newId, None);
    } else {
      VersionOpens(s, e.user, e.id, e.size, e.mime, e.newId, None);
    }
  }

  /** From request to task: whatever happened in between, when an upload of any type, a first version or a later one,
      is completed, its row has the type that was asked for, and a task of the right kind is enqueued for it exactly
      when that type is an image or a video. */
  lemma CompletedAsAsked(s: Store, e: Event, id: Id, user: Id, mime: string, es: seq<Event>, jobId: Id, enqueued: bool)
    requires Inv(s) && Valid(s, e) && Opens(s, e, id, user, mime) && ValidRun(Apply(s, e), es)
    requires var u := Run(Apply(s, e), es); jobId !in u.issued && AfterComplete(u, user, id, jobId, enqueued).reply == Success
    ensures var u := Run(Apply(s, e), es);
            var t := AfterComplete(u, user, id, jobId, enqueued).store;
            && id in t.files && t.files[id].mime == mime && t.files[id].user == user
            && HandedOver(u, t, id, jobId, enqueued)
  {
    var u := Run(Apply(s, e), es);
    OpenedRow(s, e, id, user, mime);
    RunKeepsInv(Apply(s, e), es);
    RunKeepsColumns(Apply(s, e), es, id);
    assert StatusOk(id, u.files[id], u.jobs, u.stranded);
    CompleteHandsOver(u, user, id, jobId, enqueued);
  }
}
