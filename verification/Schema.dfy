/** The tables of the backend: Postgres rows, queue entries and stored objects. */
module Schema {
  import opened Wrappers

  const ID_LIMIT := 0x1_0000_0000_0000_0000_0000_0000_0000_0000

  /** A UUID, as the 128-bit number it denotes. */
  newtype Id = n: int | 0 <= n < ID_LIMIT

  /** An object key by its parts: an upload, an image preview, or a file of a video's HLS directory.
      Module ObjectKeys gives the text and shows that the parts can be read back from it. */
  datatype Key = Original(user: Id, id: Id, name: string) | Thumbnail(id: Id) | Hls(id: Id, name: string)

  datatype Folder = Folder(name: string, user: Id, parent: Option<Id>)

  datatype Status = Pending | Processing | Ready | Failed

  datatype File = File(
    name: string,
    user: Id,
    folder: Option<Id>,
    storageKey: Key,
    size: int,
    mime: string,
    status: Status,
    thumbnail: Option<Key>,
    playlist: Option<Key>,
    version: int,
    parent: Option<Id>,
    current: bool)

  /** A file row together with its primary key, as a query returns it. */
  datatype Row = Row(id: Id, file: File)

  datatype Share = Share(
    file: Id,
    user: Id,
    created: int,
    token: string,
    password: Option<string>,
    expires: Option<int>,
    maxDownloads: Option<int>,
    downloads: int)

  datatype JobKind = ImageThumbnail | VideoTranscode

  /** What the queue did with a task: still owed, acknowledged, or in the dead-letter archive. */
  datatype Phase = Live | Done | Archived

  /** `attempts` counts finished attempts; `stored` is what the running attempt has put so far. */
  datatype Job = Job(
    kind: JobKind,
    file: Id,
    retried: nat,
    maxRetry: nat,
    phase: Phase,
    attempts: nat,
    stored: set<Key>)

  /** A resumable upload that was accepted and has not finished: the metadata kept with it and the size it
      was accepted for. `alone` is history: it was accepted within quota, and no other bytes of its owner have
      landed since. */
  datatype Upload = Upload(meta: map<string, string>, size: int, alone: bool)

  /** The last three components are history: they record what has happened and decide nothing.
      `declared` is how much of a row passed a quota check that still held when the row was created,
      `issued` the UUIDs handed out so far, `stranded` the rows whose task could not be enqueued. */
  datatype Store = Store(
    quotas: map<Id, int>,
    folders: map<Id, Folder>,
    files: map<Id, File>,
    shares: map<Id, Share>,
    jobs: map<Id, Job>,
    objects: map<Key, int>,
    uploads: map<string, Upload>,
    declared: map<Id, int>,
    issued: set<Id>,
    stranded: set<Id>)

  /** How a request body names a folder: no field, the empty string, not a UUID, or a UUID. */
  datatype FolderArg = Omitted | Empty | Malformed | Given(id: Id)

  /** HTTP status of a reply. */
  datatype Reply = Success | BadRequest | Unauthorized | NotFound | Conflict | TooLarge | ServerError

  datatype Outcome = Outcome(store: Store, reply: Reply)

  /** Storage calls that fail: keys RemoveObject cannot remove, files whose prefix cannot be listed. */
  datatype StorageFaults = StorageFaults(stuck: set<Key>, unlisted: set<Id>)

  const NO_FAULTS := StorageFaults({}, {})

  predicate HasPrefix(s: string, prefix: string) {
    prefix <= s
  }

  predicate IsImage(mime: string) {
    HasPrefix(mime, "image/")
  }

  predicate IsVideo(mime: string) {
    HasPrefix(mime, "video/")
  }

  predicate OwnsFolder(folders: map<Id, Folder>, user: Id, id: Id) {
    id in folders && folders[id].user == user
  }

  predicate OwnsFile(files: map<Id, File>, user: Id, id: Id) {
    id in files && files[id].user == user
  }

  /** The handlers' shared state: every service reads and writes the same tables. */
  class Backend {
    const quotas: map<Id, int>
    var folders: map<Id, Folder>
    var files: map<Id, File>
    var shares: map<Id, Share>
    var jobs: map<Id, Job>
    var objects: map<Key, int>
    ghost var uploads: map<string, Upload>
    ghost var declared: map<Id, int>
    ghost var issued: set<Id>
    ghost var stranded: set<Id>

    ghost function State(): Store
      reads this
    {
      Store(quotas, folders, files, shares, jobs, objects, uploads, declared, issued, stranded)
    }

    constructor (quotas: map<Id, int>)
      ensures State() == Store(quotas, map[], map[], map[], map[], map[], map[], map[], {}, {})
    {
      this.quotas := quotas;
      folders, files, shares, jobs, objects := map[], map[], map[], map[], map[];
      uploads, declared, issued, stranded := map[], map[], {}, {};
    }
  }
}
