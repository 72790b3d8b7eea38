/** The life of a share link over runs: what it serves, what it counts, and when it is gone. */
module ShareHistory {
  import opened Machine
  import opened Wrappers
  import opened Schema
  import opened ApiFiles
  import opened ApiFolders
  import opened UploadSvc
  import opened Shares
  import opened ShareLimit
  import opened Runs
  import opened JobHistory

  // ---------- one request ----------

  predicate InTime(share: Share, now: int) {
    share.expires.Some? ==> now <= share.expires.value
  }

  predicate BelowLimit(share: Share, downloads: int) {
    share.maxDownloads.Some? ==> downloads < share.maxDownloads.value
  }

  predicate Unlocks(share: Share, password: Option<string>) {
    share.password.Some? ==> password == share.password
  }

  lemma LinkOfToken(s: Store, id: Id)
    requires SharesOk(s.files, s.shares) && id in s.shares
    ensures WithToken(s.shares, s.shares[id].token) == {id} && FirstOf(WithToken(s.shares, s.shares[id].token)) == id
  {
    var hits := WithToken(s.shares, s.shares[id].token);
    forall other | other in hits ensures other == id {}
    assert id in hits;
  }

  /** Every answer of a public download, and exactly when it is given. */
  lemma DownloadAnswers(s: Store, id: Id, password: Option<string>, now: int)
    requires SharesOk(s.files, s.shares) && id in s.shares
    ensures var share := s.shares[id];
            var reply := DownloadVerdict(s, share.token, password, now);
            var active := InTime(share, now) && BelowLimit(share, share.downloads);
            && share.file in s.files
            && (reply == NotFound <==> !active)
            && (reply == BadRequest <==> active && share.password.Some? && password == None)
            && (reply == Unauthorized <==> active && password.Some? && !Unlocks(share, password))
            && (reply == Conflict <==> active && Unlocks(share, password) && s.files[share.file].status != Ready)
            && (reply == Success <==> active && Unlocks(share, password) && s.files[share.file].status == Ready)
  {
    LinkOfToken(s, id);
    assert SharePointsAtFile(s.files, s.shares[id]);
  }

  /** A served download is a check and a count of the link's own protocol, and touches no other link and no other
      table; a refused one changes nothing. */
  lemma DownloadCounts(s: Store, id: Id, password: Option<string>, now: int, counted: bool)
    requires SharesOk(s.files, s.shares) && id in s.shares
    ensures var share := s.shares[id];
            var o := AfterDownload(s, share.token, password, now, counted);
            && o.reply == DownloadVerdict(s, share.token, password, now)
            && o.store == s.(shares := o.store.shares) && o.store.shares.Keys == s.shares.Keys
            && (forall other | other in s.shares && other != id :: o.store.shares[other] == s.shares[other])
            && if o.reply == Success then
                 var checked := Link(share, now, {0}, false);
                 && Next(Link(share, now, {}, false), Check(0), checked)
                 && Next(checked, Count(0, counted), Link(o.store.shares[id], now, {}, false))
               else o.store == s
  {
    LinkOfToken(s, id);
    DownloadAnswers(s, id, password, now);
    assert {} + {0} == {0} && {0} - {0} == {};
  }

  /** The owner's list marks a link as protected exactly when an active one asks a visitor without a password for it. */
  lemma ListedAsProtected(s: Store, id: Id, now: int)
    requires SharesOk(s.files, s.shares) && id in s.shares && Active(s.shares[id], now)
    ensures ToShareResponse(s.files, s.shares, id).requiresPassword <==>
            DownloadVerdict(s, s.shares[id].token, None, now) == BadRequest
  {
    DownloadAnswers(s, id, None, now);
  }

  lemma UnknownTokenNotFound(s: Store, token: string, password: Option<string>, now: int, counted: bool)
    requires NoLink(s, token)
    ensures AfterDownload(s, token, password, now, counted) == Outcome(s, NotFound)
  {
    assert WithToken(s.shares, token) == {};
  }

  ghost predicate NoLink(s: Store, token: string) {
    forall id | id in s.shares :: s.shares[id].token != token
  }

  // ---------- over runs ----------

  ghost predicate Serves(s: Store, e: Event, token: string) {
    e.DownloadEv? && e.token == token && DownloadVerdict(s, token, e.password, e.now) == Success
  }

  /** Downloads that the run serves by a token, and those among them whose count was written. */
  ghost function Served(s: Store, es: seq<Event>, token: string): nat
    requires ValidRun(s, es)
    decreases |es|
  {
    if es == [] then 0 else (if Serves(s, es[0], token) then 1 else 0) + Served(Apply(s, es[0]), es[1..], token)
  }

  ghost function Counted(s: Store, es: seq<Event>, token: string): nat
    requires ValidRun(s, es)
    decreases |es|
  {
    if es == [] then 0 else Raise(s, es[0], token) + Counted(Apply(s, es[0]), es[1..], token)
  }

  ghost function Raise(s: Store, e: Event, token: string): nat {
    if Serves(s, e, token) && e.counted then 1 else 0
  }

  lemma {:induction false} AllCounted(s: Store, es: seq<Event>, token: string)
    requires ValidRun(s, es) && forall e | e in es && e.DownloadEv? :: e.counted
    ensures Counted(s, es, token) == Served(s, es, token)
    decreases |es|
  {
    if es != [] {
      assert es == [es[0]] + es[1..];
      AllCounted(Apply(s, es[0]), es[1..], token);
    }
  }

  /** The link is as it was, but for `more` downloads. */
  ghost predicate LinkRose(s: Store, t: Store, id: Id, more: nat) {
    && id in s.shares && id in t.shares
    && t.shares[id] == s.shares[id].(downloads := s.shares[id].downloads + more)
  }

  /** Links are dropped or kept as they are. */
  ghost predicate LinksDropped(shares: ShareTable, rest: ShareTable) {
    forall id | id in rest :: id in shares && rest[id] == shares[id]
  }

  lemma DownloadRaises(s: Store, e: Event, id: Id)
    requires SharesOk(s.files, s.shares) && e.DownloadEv? && Valid(s, e) && id in s.shares
    ensures LinkRose(s, Apply(s, e), id, Raise(s, e, s.shares[id].token))
  {
    if e.token == s.shares[id].token {
      DownloadCounts(s, id, e.password, e.now, e.counted);
    } else if WithToken(s.shares, e.token) == {} {
      assert NoLink(s, e.token) by {
        forall other | other in s.shares ensures s.shares[other].token != e.token { assert other !in WithToken(s.shares, e.token); }
      }
      UnknownTokenNotFound(s, e.token, e.password, e.now, e.counted);
    } else {
      var other := FirstOf(WithToken(s.shares, e.token));
      DownloadCounts(s, other, e.password, e.now, e.counted);
    }
  }

  lemma SameLinks(s: Store, e: Event)
    requires Valid(s, e) && !e.DownloadEv? && !e.CreateShareEv? && !e.DeleteShareEv?
    requires !e.DeleteFolderEv? && !e.DeleteFileEv? && !e.CompleteEv? && !e.FinishTusEv?
    ensures Apply(s, e).shares == s.shares
  {
  }

  lemma TusLinks(s: Store, uploadId: string, meta: map<string, string>, size: Int64,
                 newId: Id, jobId: Id, stored: bool, enqueued: bool)
    ensures AfterFinishTus(s, uploadId, meta, size, newId, jobId, stored, enqueued).shares == s.shares
  {
  }

  /** Every other step leaves links alone or drops some. */
  lemma OtherLinks(s: Store, e: Event)
    requires Valid(s, e) && !e.DownloadEv? && !e.CreateShareEv?
    ensures LinksDropped(s.shares, Apply(s, e).shares)
  {
    if e.DeleteFolderEv? {
      FolderLinks(s, e.user, e.id, e.faults);
    } else if e.DeleteFileEv? {
      FileLinks(s, e.user, e.id, e.faults);
    } else if e.CompleteEv? {
      CompleteLinks(s, e.user, e.id, e.jobId, e.enqueued);
    } else if e.FinishTusEv? {
      TusLinks(s, e.uploadId, s.uploads[e.uploadId].meta, e.size, e.newId, e.jobId, e.stored, e.enqueued);
    } else if !e.DeleteShareEv? {
      SameLinks(s, e);
    } else {
      DeletedIff(s, e.user, e.id);
    }
  }

  lemma FolderLinks(s: Store, user: Id, id: Id, faults: StorageFaults)
    ensures LinksDropped(s.shares, AfterDeleteFolder(s, user, id, faults).store.shares)
  {
  }

  lemma FileLinks(s: Store, user: Id, id: Id, faults: StorageFaults)
    ensures LinksDropped(s.shares, AfterDeleteFile(s, user, id, faults).store.shares)
  {
  }

  lemma CompleteLinks(s: Store, user: Id, id: Id, jobId: Id, enqueued: bool)
    ensures AfterComplete(s, user, id, jobId, enqueued).store.shares == s.shares
  {
  }

  lemma CreateAdds(s: Store, e: Event)
    requires e.CreateShareEv? && Valid(s, e)
    ensures var t := Apply(s, e);
            && t.shares.Keys <= s.shares.Keys + {e.newId}
            && forall id | id in s.shares && id != e.newId :: id in t.shares && t.shares[id] == s.shares[id]
  {
    ShareAdds(s, e.user, e.id, e.hours, e.password, e.maxDownloads, e.token, e.now, e.newId);
  }

  lemma ShareAdds(s: Store, user: Id, file: Id, hours: Option<int>, password: Option<string>,
                  maxDownloads: Option<int>, token: string, now: int, newId: Id)
    ensures var t := AfterCreateShare(s, user, file, hours, password, maxDownloads, token, now, newId).store;
            t.shares == s.shares || (newId in t.shares && t.shares == s.shares[newId := t.shares[newId]])
  {
  }

  lemma StepLink(s: Store, e: Event, id: Id)
    requires Inv(s) && Valid(s, e) && id in s.shares && id in Apply(s, e).shares
    ensures LinkRose(s, Apply(s, e), id, Raise(s, e, s.shares[id].token))
  {
    if e.DownloadEv? {
      DownloadRaises(s, e, id);
    } else if e.CreateShareEv? {
      CreateAdds(s, e);
    } else {
      OtherLinks(s, e);
      DroppedRose(s, Apply(s, e), id);
    }
  }

  lemma DroppedRose(s: Store, t: Store, id: Id)
    requires LinksDropped(s.shares, t.shares) && id in s.shares && id in t.shares
    ensures LinkRose(s, t, id, 0)
  {
  }

  /** A link that is gone does not come back under its id. */
  lemma StepGoneLink(s: Store, e: Event, id: Id)
    requires Inv(s) && Valid(s, e) && id in s.issued && id !in s.shares
    ensures id !in Apply(s, e).shares && id in Apply(s, e).issued
  {
    IssuedGrows(s, e);
    if e.DownloadEv? {
      DownloadKeys(s, e);
    } else if e.CreateShareEv? {
      CreateAdds(s, e);
    } else {
      OtherLinks(s, e);
    }
  }

  lemma DownloadKeys(s: Store, e: Event)
    requires e.DownloadEv? && Valid(s, e)
    ensures Apply(s, e).shares.Keys == s.shares.Keys
  {
  }

  lemma {:induction false} GoneLinkStaysGone(s: Store, es: seq<Event>, id: Id)
    requires Inv(s) && ValidRun(s, es) && id in s.issued && id !in s.shares
    ensures id !in Run(s, es).shares
    decreases |es|
  {
    if es != [] {
      StepKeepsInv(s, es[0]);
      StepGoneLink(s, es[0], id);
      GoneLinkStaysGone(Apply(s, es[0]), es[1..], id);
    }
  }

  lemma RoseTwice(s: Store, t: Store, u: Store, id: Id, a: nat, b: nat)
    requires LinkRose(s, t, id, a) && LinkRose(t, u, id, b)
    ensures LinkRose(s, u, id, a + b)
  {
  }

  /** Over any run a link keeps its file, owner, token, password, expiry and limit, and its count rises by exactly the
      counted downloads that were served by its token. */
  lemma {:induction false} LinkOverRuns(s: Store, es: seq<Event>, id: Id)
    requires Inv(s) && ValidRun(s, es) && id in s.shares && id in Run(s, es).shares
    ensures LinkRose(s, Run(s, es), id, Counted(s, es, s.shares[id].token))
    decreases |es|
  {
    if es != [] {
      var t := Apply(s, es[0]);
      StepKeepsInv(s, es[0]);
      if id !in t.shares {
        IssuedGrows(s, es[0]);
        GoneLinkStaysGone(t, es[1..], id);
      } else {
        StepLink(s, es[0], id);
        LinkOverRuns(t, es[1..], id);
        RoseTwice(s, t, Run(t, es[1..]), id, Raise(s, es[0], s.shares[id].token), Counted(t, es[1..], s.shares[id].token));
      }
    }
  }

  ghost predicate WithinLimit(share: Share) {
    share.maxDownloads.Some? ==> share.downloads <= share.maxDownloads.value
  }

  lemma StepWithinLimit(s: Store, e: Event, id: Id)
    requires Inv(s) && Valid(s, e) && id in s.shares && id in Apply(s, e).shares && WithinLimit(s.shares[id])
    ensures WithinLimit(Apply(s, e).shares[id])
  {
    StepLink(s, e, id);
    if e.DownloadEv? { DownloadAnswers(s, id, e.password, e.now); }
  }

  lemma {:induction false} RunWithinLimit(s: Store, es: seq<Event>, id: Id)
    requires Inv(s) && ValidRun(s, es) && id in s.shares && id in Run(s, es).shares && WithinLimit(s.shares[id])
    ensures WithinLimit(Run(s, es).shares[id])
    decreases |es|
  {
    if es != [] {
      StepKeepsInv(s, es[0]);
      IssuedGrows(s, es[0]);
      if id !in Apply(s, es[0]).shares {
        GoneLinkStaysGone(Apply(s, es[0]), es[1..], id);
      } else {
        StepWithinLimit(s, es[0], id);
        RunWithinLimit(Apply(s, es[0]), es[1..], id);
      }
    }
  }

  /** When every count is written: as many more as the run has served, and never beyond the limit. */
  lemma LinkServedWithinLimit(s: Store, es: seq<Event>, id: Id)
    requires Inv(s) && ValidRun(s, es) && id in s.shares && id in Run(s, es).shares && WithinLimit(s.shares[id])
    requires forall e | e in es && e.DownloadEv? :: e.counted
    ensures var served := Served(s, es, s.shares[id].token);
            && LinkRose(s, Run(s, es), id, served)
            && (s.shares[id].maxDownloads.Some? ==> s.shares[id].downloads + served <= s.shares[id].maxDownloads.value)
  {
    LinkOverRuns(s, es, id);
    RunWithinLimit(s, es, id);
    AllCounted(s, es, s.shares[id].token);
  }

  // ---------- creating ----------

  /** Which requests make a link: an owned file, positive hours and limit if any, and a token that is not taken. */
  lemma CreatedIff(s: Store, user: Id, file: Id, hours: Option<int>, password: Option<string>,
                   maxDownloads: Option<int>, token: string, now: int, newId: Id)
    ensures var o := AfterCreateShare(s, user, file, hours, password, maxDownloads, token, now, newId);
            var positive := (hours.Some? ==> hours.value > 0) && (maxDownloads.Some? ==> maxDownloads.value > 0);
            && (o.reply == Success <==> OwnsFile(s.files, user, file) && positive && NoLink(s, token))
            && (o.reply == NotFound <==> !OwnsFile(s.files, user, file))
            && (o.reply == BadRequest <==> OwnsFile(s.files, user, file) && !positive)
            && (o.reply != Success ==> o.store == s)
  {
    assert NoLink(s, token) <==> WithToken(s.shares, token) == {} by {
      forall id | id in s.shares ensures s.shares[id].token == token <==> id in WithToken(s.shares, token) {}
    }
  }

  /** What was asked for in creating a link. */
  ghost predicate LinkAsAsked(share: Share, user: Id, file: Id, hours: Option<int>, password: Option<string>,
                              maxDownloads: Option<int>, token: string, now: int) {
    && share.user == user && share.file == file && share.token == token && share.created == now
    && share.maxDownloads == maxDownloads
    && (share.password.Some? <==> password.Some? && password.value != "")
    && (share.password.Some? ==> share.password == password)
    && (share.expires.Some? <==> hours.Some?)
    && (hours.Some? && FitsInt64(hours.value * 3600 * 1_000_000_000) ==>
          share.expires == Some(now + hours.value * 3600 * 1_000_000_000))
  }

  lemma CreatedAsAsked(s: Store, user: Id, file: Id, hours: Option<int>, password: Option<string>,
                       maxDownloads: Option<int>, token: string, now: int, newId: Id)
    requires AfterCreateShare(s, user, file, hours, password, maxDownloads, token, now, newId).reply == Success
    ensures var t := AfterCreateShare(s, user, file, hours, password, maxDownloads, token, now, newId).store;
            && t == s.(shares := t.shares, issued := s.issued + {newId})
            && newId in t.shares && t.shares[newId].downloads == 0 && t.shares == s.shares[newId := t.shares[newId]]
            && LinkAsAsked(t.shares[newId], user, file, hours, password, maxDownloads, token, now)
  {
    if hours.Some? && FitsInt64(hours.value * 3600 * 1_000_000_000) { WrapFits(hours.value * HOUR_NS); }
  }

  lemma WrapFits(x: int)
    requires FitsInt64(x)
    ensures Wrap64(x) == x
  {
  }

  lemma NewLink(s: Store, e: Event)
    requires Inv(s) && e.CreateShareEv? && Valid(s, e)
    requires AfterCreateShare(s, e.user, e.id, e.hours, e.password, e.maxDownloads, e.token, e.now, e.newId).reply == Success
    ensures var t := Apply(s, e);
            && Inv(t) && e.newId in t.shares && t.shares[e.newId].downloads == 0 && WithinLimit(t.shares[e.newId])
            && LinkAsAsked(t.shares[e.newId], e.user, e.id, e.hours, e.password, e.maxDownloads, e.token, e.now)
  {
    StepKeepsInv(s, e);
    CreatedIff(s, e.user, e.id, e.hours, e.password, e.maxDownloads, e.token, e.now, e.newId);
    CreatedAsAsked(s, e.user, e.id, e.hours, e.password, e.maxDownloads, e.token, e.now, e.newId);
  }

  /** From creation on, over any run: a living link serves a request exactly when it is in time, fewer downloads have
      been counted than its creator allowed, the password fits and the file is ready. No more
      are ever counted than allowed. */
  lemma NewLinkServesIff(s: Store, e: Event, es: seq<Event>, password: Option<string>, now: int)
    requires Inv(s) && e.CreateShareEv? && Valid(s, e)
    requires AfterCreateShare(s, e.user, e.id, e.hours, e.password, e.maxDownloads, e.token, e.now, e.newId).reply == Success
    requires ValidRun(Apply(s, e), es) && e.newId in Run(Apply(s, e), es).shares
    ensures var t, n := Run(Apply(s, e), es), Counted(Apply(s, e), es, e.token);
            var share := t.shares[e.newId];
            && LinkAsAsked(share, e.user, e.id, e.hours, e.password, e.maxDownloads, e.token, e.now)
            && share.downloads == n && share.file in t.files
            && (DownloadVerdict(t, e.token, password, now) == Success <==>
                  && InTime(share, now) && (e.maxDownloads.Some? ==> n < e.maxDownloads.value)
                  && Unlocks(share, password) && t.files[share.file].status == Ready)
            && (e.maxDownloads.Some? ==> n <= e.maxDownloads.value)
  {
    var t := Apply(s, e);
    NewLink(s, e);
    LinkOverRuns(t, es, e.newId);
    RunWithinLimit(t, es, e.newId);
    RunKeepsInv(t, es);
    DownloadAnswers(Run(t, es), e.newId, password, now);
  }

  /** So when every count is written, a living link has served as many downloads as its row says, and never more
      than its creator allowed. */
  lemma NewLinkWithinLimit(s: Store, e: Event, es: seq<Event>)
    requires Inv(s) && e.CreateShareEv? && Valid(s, e)
    requires AfterCreateShare(s, e.user, e.id, e.hours, e.password, e.maxDownloads, e.token, e.now, e.newId).reply == Success
    requires ValidRun(Apply(s, e), es) && e.newId in Run(Apply(s, e), es).shares
    requires forall d | d in es && d.DownloadEv? :: d.counted
    ensures var served := Served(Apply(s, e), es, e.token);
            && Run(Apply(s, e), es).shares[e.newId].downloads == served
            && (e.maxDownloads.Some? ==> served <= e.maxDownloads.value)
  {
    NewLink(s, e);
    LinkServedWithinLimit(Apply(s, e), es, e.newId);
  }

  // ---------- revoking ----------

  /** Only the owner's request removes a link, and it removes that one alone. */
  lemma DeletedIff(s: Store, user: Id, id: Id)
    ensures var o := AfterDeleteShare(s, user, id);
            && (o.reply == Success <==> id in s.shares && s.shares[id].user == user)
            && (o.reply != Success ==> o.reply == NotFound && o.store == s)
            && (o.reply == Success ==> o.store == s.(shares := o.store.shares) && o.store.shares.Keys == s.shares.Keys - {id})
            && LinksDropped(s.shares, o.store.shares)
  {
  }

  lemma StepNoLink(s: Store, e: Event, token: string)
    requires Valid(s, e) && NoLink(s, token) && (e.CreateShareEv? ==> e.token != token)
    ensures NoLink(Apply(s, e), token)
  {
    if e.DownloadEv? {
      DownloadTokens(s, e);
    } else if !e.CreateShareEv? {
      OtherLinks(s, e);
    }
  }

  lemma DownloadTokens(s: Store, e: Event)
    requires e.DownloadEv? && Valid(s, e)
    ensures var t := Apply(s, e);
            t.shares.Keys == s.shares.Keys && forall id | id in s.shares :: t.shares[id].token == s.shares[id].token
  {
  }

  lemma {:induction false} RunNoLink(s: Store, es: seq<Event>, token: string)
    requires ValidRun(s, es) && NoLink(s, token) && forall e | e in es && e.CreateShareEv? :: e.token != token
    ensures NoLink(Run(s, es), token)
    decreases |es|
  {
    if es != [] {
      assert es == [es[0]] + es[1..];
      StepNoLink(s, es[0], token);
      RunNoLink(Apply(s, es[0]), es[1..], token);
    }
  }

  /** Once a link is gone, revoked by its owner or deleted with its file, its token is not found for ever: unless
      the same token is drawn again. */
  lemma GoneLinkNotFound(s: Store, e: Event, id: Id, es: seq<Event>, password: Option<string>, now: int, counted: bool)
    requires Inv(s) && Valid(s, e) && id in s.shares && id !in Apply(s, e).shares
    requires ValidRun(Apply(s, e), es) && forall d | d in es && d.CreateShareEv? :: d.token != s.shares[id].token
    ensures var t := Run(Apply(s, e), es); AfterDownload(t, s.shares[id].token, password, now, counted) == Outcome(t, NotFound)
  {
    if e.DownloadEv? { DownloadKeys(s, e); } else if e.CreateShareEv? { CreateAdds(s, e); } else { OtherLinks(s, e); }
    assert NoLink(Apply(s, e), s.shares[id].token);
    RunNoLink(Apply(s, e), es, s.shares[id].token);
    UnknownTokenNotFound(Run(Apply(s, e), es), s.shares[id].token, password, now, counted);
  }
}
