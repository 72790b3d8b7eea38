/** Share links, after handlers_share.go of backend/cmd/api-svc and backend/cmd/upload-svc. */
module Shares {
  import opened Machine
  import opened Wrappers
  import opened Schema
  import opened Lineage
  import opened UploadSvc
  import opened ApiFiles

  type ShareTable = map<Id, Share>

  const HOUR_NS := 3_600_000_000_000

  /** Not expired at time `now` (in nanoseconds) and below its download limit. */
  predicate Active(share: Share, now: int) {
    && !(share.expires.Some? && now > share.expires.value)
    && !(share.maxDownloads.Some? && share.downloads >= share.maxDownloads.value)
  }

  function WithToken(shares: ShareTable, token: string): set<Id> {
    set id | id in shares && shares[id].token == token
  }

  /** A refused link stays refused: neither time nor the count runs backwards. */
  lemma RefusedForever(share: Share, now: int, later: int, downloads: int)
    requires !Active(share, now) && now <= later && share.downloads <= downloads
    ensures !Active(share.(downloads := downloads), later)
  {
  }

  // ---------- create and revoke ----------

  ghost function AfterCreateShare(s: Store, user: Id, file: Id, hours: Option<int>, password: Option<string>,
                                  maxDownloads: Option<int>, token: string, now: int, newId: Id): Outcome {
    if !OwnsFile(s.files, user, file) then Outcome(s, NotFound)
    else if (hours.Some? && hours.value <= 0) || (maxDownloads.Some? && maxDownloads.value <= 0) then Outcome(s, BadRequest)
    else if WithToken(s.shares, token) != {} then Outcome(s, ServerError)
    else
      var share := Share(file, user, now, token, if password == Some("") then None else password,
                         if hours.Some? then Some(now + Wrap64(hours.value * HOUR_NS)) else None, maxDownloads, 0);
      Outcome(s.(shares := s.shares[newId := share], issued := s.issued + {newId}), Success)
  }

  method CreateShare(db: Backend, user: Id, file: Id, hours: Option<int>, password: Option<string>,
                     maxDownloads: Option<int>, token: string, now: int, newId: Id) returns (reply: Reply)
    modifies db
    ensures Outcome(db.State(), reply) ==
            AfterCreateShare(old(db.State()), user, file, hours, password, maxDownloads, token, now, newId)
  {
    if !OwnsFile(db.files, user, file) { return NotFound; }
    var share := Share(file, user, now, token, None, None, None, 0);
    if hours.Some? {
      if hours.value <= 0 { return BadRequest; }
      share := share.(expires := Some(now + Wrap64(hours.value * HOUR_NS)));
    }
    if maxDownloads.Some? {
      if maxDownloads.value <= 0 { return BadRequest; }
      share := share.(maxDownloads := maxDownloads);
    }
    if password.Some? && password.value != "" { share := share.(password := password); }
    if WithToken(db.shares, token) != {} { return ServerError; }
    db.shares := db.shares[newId := share];
    db.issued := db.issued + {newId};
    return Success;
  }

  ghost function AfterDeleteShare(s: Store, user: Id, id: Id): Outcome {
    if id in s.shares && s.shares[id].user == user then Outcome(s.(shares := s.shares - {id}), Success)
    else Outcome(s, NotFound)
  }

  method DeleteShare(db: Backend, user: Id, id: Id) returns (reply: Reply)
    modifies db
    ensures Outcome(db.State(), reply) == AfterDeleteShare(old(db.State()), user, id)
  {
    var hit := set x | x in db.shares && x == id && db.shares[x].user == user;
    db.shares := db.shares - hit;
    assert hit == if id in old(db.shares) && old(db.shares)[id].user == user then {id} else {};
    return if hit == {} then NotFound else Success;
  }

  // ---------- public download ----------

  ghost function DownloadVerdict(s: Store, token: string, password: Option<string>, now: int): Reply {
    var hits := WithToken(s.shares, token);
    if hits == {} || !Active(s.shares[FirstOf(hits)], now) then NotFound
    else
      var share := s.shares[FirstOf(hits)];
      if share.password.Some? && password == None then BadRequest
      else if share.password.Some? && password != share.password then Unauthorized
      else if share.file !in s.files then NotFound
      else if s.files[share.file].status != Ready then Conflict
      else Success
  }

  /** A served download counts once, unless the counter update itself fails. */
  ghost function AfterDownload(s: Store, token: string, password: Option<string>, now: int, counted: bool): Outcome {
    var verdict := DownloadVerdict(s, token, password, now);
    if verdict != Success || !counted then Outcome(s, verdict)
    else
      var id := FirstOf(WithToken(s.shares, token));
      Outcome(s.(shares := s.shares[id := s.shares[id].(downloads := s.shares[id].downloads + 1)]), Success)
  }

  method ShareDownloadUrl(db: Backend, token: string, password: Option<string>, now: int, counted: bool)
    returns (reply: Reply)
    modifies db
    ensures Outcome(db.State(), reply) == AfterDownload(old(db.State()), token, password, now, counted)
  {
    var hits := WithToken(db.shares, token);
    if hits == {} { return NotFound; }
    var id := First(hits);
    var share := db.shares[id];
    if share.expires.Some? && now > share.expires.value { return NotFound; }
    if share.maxDownloads.Some? && share.downloads >= share.maxDownloads.value { return NotFound; }
    if share.password.Some? {
      if password == None { return BadRequest; }
      if password != share.password { return Unauthorized; }
    }
    if share.file !in db.files { return NotFound; }
    if db.files[share.file].status != Ready { return Conflict; }
    if counted {
      db.shares := db.shares[id := share.(downloads := share.downloads + 1)];
    }
    return Success;
  }

  /** A download is served only by a live link to a ready file of the link's owner. */
  lemma ServedOnlyReady(s: Store, token: string, password: Option<string>, now: int)
    requires SharesOk(s.files, s.shares) && DownloadVerdict(s, token, password, now) == Success
    ensures exists id :: id in WithToken(s.shares, token) && Active(s.shares[id], now)
              && OwnsFile(s.files, s.shares[id].user, s.shares[id].file)
              && s.files[s.shares[id].file].status == Ready
              && (s.shares[id].password.Some? ==> password == s.shares[id].password)
  {
    var id := FirstOf(WithToken(s.shares, token));
    assert SharePointsAtFile(s.files, s.shares[id]);
  }

  // ---------- invariant ----------

  ghost predicate SharePointsAtFile(files: Files, share: Share) {
    && OwnsFile(files, share.user, share.file)
    && 0 <= share.downloads
  }

  /** Every link points at a live file of the user who made it, and tokens are unique. */
  ghost predicate SharesOk(files: Files, shares: ShareTable) {
    && (forall id {:trigger SharePointsAtFile(files, shares[id])} | id in shares :: SharePointsAtFile(files, shares[id]))
    && (forall a, b | a in shares && b in shares && shares[a].token == shares[b].token :: a == b)
  }

  lemma SharesKeptByRows(files: Files, gs: Files, shares: ShareTable)
    requires SharesOk(files, shares)
    requires forall id | id in files :: id in gs && gs[id].user == files[id].user
    ensures SharesOk(gs, shares)
  {
    forall id | id in shares
      ensures SharePointsAtFile(gs, shares[id])
    {
      assert SharePointsAtFile(files, shares[id]);
    }
  }

  /** Deleting rows together with their owner's links leaves no dangling link. */
  lemma SharesKeptByDelete(files: Files, shares: ShareTable, user: Id, dead: set<Id>)
    requires SharesOk(files, shares)
    requires forall id | id in dead && id in files :: files[id].user == user
    ensures SharesOk(files - dead, SharesWithout(shares, user, dead))
  {
    forall id | id in SharesWithout(shares, user, dead)
      ensures SharePointsAtFile(files - dead, shares[id])
    {
      assert SharePointsAtFile(files, shares[id]);
    }
  }

  lemma SharesKeptByCreate(s: Store, user: Id, file: Id, hours: Option<int>, password: Option<string>,
                           maxDownloads: Option<int>, token: string, now: int, newId: Id)
    requires SharesOk(s.files, s.shares) && newId !in s.shares
    ensures SharesOk(s.files, AfterCreateShare(s, user, file, hours, password, maxDownloads, token, now, newId).store.shares)
  {
    var t := AfterCreateShare(s, user, file, hours, password, maxDownloads, token, now, newId);
    forall id | id in t.store.shares
      ensures SharePointsAtFile(s.files, t.store.shares[id])
    {
      if id in s.shares { assert SharePointsAtFile(s.files, s.shares[id]); }
    }
    if t.reply == Success {
      forall a | a in s.shares
        ensures s.shares[a].token != token
      {
        assert a !in WithToken(s.shares, token);
      }
    }
  }

  lemma SharesKeptByDownload(s: Store, token: string, password: Option<string>, now: int, counted: bool)
    requires SharesOk(s.files, s.shares)
    ensures SharesOk(s.files, AfterDownload(s, token, password, now, counted).store.shares)
  {
    var t := AfterDownload(s, token, password, now, counted).store;
    forall id | id in t.shares
      ensures SharePointsAtFile(s.files, t.shares[id])
    {
      assert SharePointsAtFile(s.files, s.shares[id]);
    }
  }

  // ---------- listing with memoised names ----------

  datatype ShareRow = ShareRow(id: Id, share: Share, fileName: string, requiresPassword: bool)

  const DELETED_FILE := "(deleted file)"

  function NameOf(files: Files, id: Id): string {
    if id in files then files[id].name else DELETED_FILE
  }

  function ToShareResponse(files: Files, shares: ShareTable, id: Id): ShareRow
    requires id in shares
  {
    ShareRow(id, shares[id], NameOf(files, shares[id].file), shares[id].password.Some?)
  }

  predicate NewestFirst(rows: seq<ShareRow>) {
    forall i, j | 0 <= i < j < |rows| :: rows[i].share.created >= rows[j].share.created
  }

  /** ORDER BY created_at DESC, one row at a time. */
  method NewestShare(shares: ShareTable, ids: set<Id>) returns (newest: Id)
    requires ids != {} && ids <= shares.Keys
    ensures newest in ids && forall id | id in ids :: shares[id].created <= shares[newest].created
  {
    newest :| newest in ids;
    var todo := ids - {newest};
    while todo != {}
      invariant newest in ids && todo <= ids
      invariant forall id | id in ids :: id in todo || shares[id].created <= shares[newest].created
      decreases todo
    {
      var next :| next in todo;
      todo := todo - {next};
      if shares[next].created > shares[newest].created { newest := next; }
    }
  }

  /** The rows of `done`, newest first, none newer than what is left. */
  ghost predicate Listed(files: Files, shares: ShareTable, done: set<Id>, todo: set<Id>, rows: seq<ShareRow>) {
    && done + todo <= shares.Keys
    && (forall r | r in rows :: r.id in done && r == ToShareResponse(files, shares, r.id))
    && (forall id | id in done :: ToShareResponse(files, shares, id) in rows)
    && (forall i, j | 0 <= i < j < |rows| :: rows[i].id != rows[j].id)
    && NewestFirst(rows)
    && (forall r, id | r in rows && id in todo :: r.share.created >= shares[id].created)
  }

  lemma ListOneMore(files: Files, shares: ShareTable, done: set<Id>, todo: set<Id>, rows: seq<ShareRow>, id: Id)
    requires Listed(files, shares, done, todo, rows) && id in todo && done !! todo
    requires forall other | other in todo :: shares[other].created <= shares[id].created
    ensures Listed(files, shares, done + {id}, todo - {id}, rows + [ToShareResponse(files, shares, id)])
  {
    var row := ToShareResponse(files, shares, id);
    forall other | other in done + {id}
      ensures ToShareResponse(files, shares, other) in rows + [row]
    {
      if other != id { assert ToShareResponse(files, shares, other) in rows; }
    }
    forall i | 0 <= i < |rows|
      ensures rows[i].id != id && rows[i].share.created >= row.share.created
    {
      assert rows[i] in rows;
    }
  }

  /** All of the user's links, newest first, each with the name a direct look-up would give. */
  method ListShares(db: Backend, user: Id) returns (rows: seq<ShareRow>)
    ensures forall r | r in rows ::
              r.id in db.shares && db.shares[r.id].user == user && r == ToShareResponse(db.files, db.shares, r.id)
    ensures forall id | id in db.shares && db.shares[id].user == user :: ToShareResponse(db.files, db.shares, id) in rows
    ensures forall i, j | 0 <= i < j < |rows| :: rows[i].id != rows[j].id
    ensures NewestFirst(rows)
  {
    var mine := set id | id in db.shares && db.shares[id].user == user;
    var todo := mine;
    var fileNames: map<Id, string> := map[];
    rows := [];
    while todo != {}
      invariant todo <= mine
      invariant forall f | f in fileNames :: fileNames[f] == NameOf(db.files, f)
      invariant Listed(db.files, db.shares, mine - todo, todo, rows)
      decreases todo
    {
      var id := NewestShare(db.shares, todo);
      var s := db.shares[id];
      var name: string;
      if s.file in fileNames {
        name := fileNames[s.file];
      } else {
        if s.file in db.files { name := db.files[s.file].name; } else { name := DELETED_FILE; }
        fileNames := fileNames[s.file := name];
      }
      ListOneMore(db.files, db.shares, mine - todo, todo, rows, id);
      assert mine - (todo - {id}) == mine - todo + {id};
      rows := rows + [ShareRow(id, s, name, s.password.Some?)];
      todo := todo - {id};
    }
    assert mine - todo == mine;
  }

  /** In a reachable state every listed name is the name of a live file, never the placeholder for a missing one. */
  lemma ListedNamesAreLive(files: Files, shares: ShareTable, id: Id)
    requires SharesOk(files, shares) && id in shares
    ensures shares[id].file in files
    ensures ToShareResponse(files, shares, id).fileName == files[shares[id].file].name
  {
    assert SharePointsAtFile(files, shares[id]);
  }
}
