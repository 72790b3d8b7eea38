/** The download limit of one share link when requests interleave between its check and its increment. */
module ShareLimit {
  import opened Schema
  import opened Shares

  /** `share` as stored, the clock, and the requests that passed the check but have not counted yet.
      `refused` remembers that some request was turned away. */
  datatype Link = Link(share: Share, now: int, inFlight: set<nat>, refused: bool)

  /** One atomic step of a request, or time passing. A request may fail after the check (wrong
      password, file not ready, no signed URL), and the counter update may fail. */
  datatype Step = Tick(later: int) | Check(request: nat) | GiveUp(request: nat) | Count(request: nat, written: bool)

  ghost predicate Next(l: Link, step: Step, m: Link) {
    match step
    case Tick(later) => later >= l.now && m == l.(now := later)
    case Check(r) =>
      && r !in l.inFlight
      && m == if Active(l.share, l.now) then l.(inFlight := l.inFlight + {r}) else l.(refused := true)
    case GiveUp(r) => r in l.inFlight && m == l.(inFlight := l.inFlight - {r})
    case Count(r, written) =>
      && r in l.inFlight
      && m == l.(inFlight := l.inFlight - {r},
                 share := if written then l.share.(downloads := l.share.downloads + 1) else l.share)
  }

  /** A run in which at most `k` requests are ever between check and count. */
  ghost predicate IsRun(links: seq<Link>, steps: seq<Step>, k: nat) {
    && |links| == |steps| + 1
    && (forall i | 0 <= i < |links| :: |links[i].inFlight| <= k)
    && (forall i | 0 <= i < |steps| :: Next(links[i], steps[i], links[i + 1]))
  }

  ghost predicate Fresh(l: Link) {
    l.share.downloads == 0 && l.inFlight == {} && l.share.maxDownloads.Some? && l.share.maxDownloads.value > 0 && !l.refused
  }

  ghost predicate WithinBudget(l: Link, k: nat) {
    && l.share.maxDownloads.Some?
    && 0 <= l.share.downloads
    && |l.inFlight| <= k
    && (l.inFlight != {} || l.share.downloads > 0 ==>
          l.share.downloads + |l.inFlight| <= l.share.maxDownloads.value + k - 1)
  }

  lemma BudgetStep(l: Link, step: Step, m: Link, k: nat)
    requires WithinBudget(l, k) && Next(l, step, m) && |m.inFlight| <= k
    ensures WithinBudget(m, k) && m.share.maxDownloads == l.share.maxDownloads
  {
  }

  lemma {:induction false} BudgetAlongRun(links: seq<Link>, steps: seq<Step>, k: nat, i: nat)
    requires IsRun(links, steps, k) && Fresh(links[0]) && i < |links|
    ensures WithinBudget(links[i], k) && links[i].share.maxDownloads == links[0].share.maxDownloads
    decreases i
  {
    if i > 0 {
      BudgetAlongRun(links, steps, k, i - 1);
      BudgetStep(links[i - 1], steps[i - 1], links[i], k);
    }
  }

  /** With k requests in the window the count overshoots the limit by at most k - 1. */
  lemma LimitHolds(links: seq<Link>, steps: seq<Step>, k: nat, i: nat)
    requires IsRun(links, steps, k) && Fresh(links[0]) && i < |links| && k > 0
    ensures links[i].share.downloads <= links[0].share.maxDownloads.value + k - 1
  {
    BudgetAlongRun(links, steps, k, i);
  }

  /** Serialized requests never exceed the limit. */
  lemma SerializedLimit(links: seq<Link>, steps: seq<Step>, i: nat)
    requires IsRun(links, steps, 1) && Fresh(links[0]) && i < |links|
    ensures links[i].share.downloads <= links[0].share.maxDownloads.value
  {
    LimitHolds(links, steps, 1, i);
  }

  // ---------- once refused, always refused ----------

  ghost predicate RefusalStands(l: Link) {
    l.refused ==> !Active(l.share, l.now)
  }

  lemma RefusalStep(l: Link, step: Step, m: Link)
    requires RefusalStands(l) && Next(l, step, m)
    ensures RefusalStands(m)
  {
    if l.refused { RefusedForever(l.share, l.now, m.now, m.share.downloads); }
  }

  /** After a refusal no later check of the run succeeds. */
  lemma {:induction false} RefusedStaysRefused(links: seq<Link>, steps: seq<Step>, k: nat, i: nat)
    requires IsRun(links, steps, k) && Fresh(links[0]) && i < |links|
    ensures RefusalStands(links[i])
    decreases i
  {
    if i > 0 {
      RefusedStaysRefused(links, steps, k, i - 1);
      RefusalStep(links[i - 1], steps[i - 1], links[i]);
    }
  }

  // ---------- the bound is reached ----------

  ghost function FirstN(n: nat): (s: set<nat>)
    ensures |s| == n && forall r | r in s :: r < n
  {
    if n == 0 then {} else FirstN(n - 1) + {n - 1}
  }

  /** k requests check, then count in reverse order. */
  ghost function Overrun(share: Share, now: int, k: nat, i: nat): Link
    requires i <= 2 * k
  {
    if i <= k then Link(share, now, FirstN(i), false)
    else Link(share.(downloads := share.downloads + (i - k)), now, FirstN(2 * k - i), false)
  }

  ghost function OverrunStep(k: nat, i: nat): Step
    requires i < 2 * k
  {
    if i < k then Check(i) else Count(2 * k - i - 1, true)
  }

  lemma OverrunNext(share: Share, now: int, k: nat, i: nat)
    requires i < 2 * k && Active(share, now)
    ensures Next(Overrun(share, now, k, i), OverrunStep(k, i), Overrun(share, now, k, i + 1))
  {
    if i >= k {
      var n := 2 * k - i - 1;
      assert FirstN(n + 1) == FirstN(n) + {n};
      assert FirstN(n + 1) - {n} == FirstN(n);
    }
  }

  /** From one download below the limit, k interleaved requests really end k - 1 above it. */
  lemma OvershootReached(share: Share, now: int, k: nat) returns (links: seq<Link>, steps: seq<Step>)
    requires share.maxDownloads.Some? && share.downloads == share.maxDownloads.value - 1 >= 0 && k > 0
    requires Active(share, now)
    ensures IsRun(links, steps, k) && links[0] == Link(share, now, {}, false)
    ensures links[|steps|].share.downloads == share.maxDownloads.value + k - 1
  {
    links := seq(2 * k + 1, i requires 0 <= i < 2 * k + 1 => Overrun(share, now, k, i));
    steps := seq(2 * k, i requires 0 <= i < 2 * k => OverrunStep(k, i));
    forall i | 0 <= i < |steps|
      ensures Next(links[i], steps[i], links[i + 1])
    {
      OverrunNext(share, now, k, i);
    }
    forall i | 0 <= i < |links|
      ensures |links[i].inFlight| <= k
    {
      assert links[i] == Overrun(share, now, k, i);
    }
    assert FirstN(0) == {};
  }

  lemma RunsJoin(a: seq<Link>, sa: seq<Step>, b: seq<Link>, sb: seq<Step>, k: nat)
    requires IsRun(a, sa, k) && IsRun(b, sb, k) && a[|sa|] == b[0]
    ensures IsRun(a + b[1..], sa + sb, k) && (a + b[1..])[0] == a[0] && (a + b[1..])[|sa + sb|] == b[|sb|]
  {
    var links, steps := a + b[1..], sa + sb;
    forall i | 0 <= i < |links|
      ensures links[i] == if i <= |sa| then a[i] else b[i - |sa|]
    {
    }
    forall i | 0 <= i < |steps|
      ensures Next(links[i], steps[i], links[i + 1])
    {
      if i < |sa| {
        assert Next(a[i], sa[i], a[i + 1]);
      } else {
        assert Next(b[i - |sa|], sb[i - |sa|], b[i - |sa| + 1]);
      }
    }
  }

  /** One download after the other, `n` of them. */
  lemma {:induction false} SerialDownloads(share: Share, now: int, n: nat) returns (links: seq<Link>, steps: seq<Step>)
    requires share.maxDownloads.Some? && share.downloads + n <= share.maxDownloads.value
    requires share.expires.Some? ==> now <= share.expires.value
    ensures IsRun(links, steps, 1) && links[0] == Link(share, now, {}, false)
    ensures links[|steps|] == Link(share.(downloads := share.downloads + n), now, {}, false)
  {
    if n == 0 {
      links, steps := [Link(share, now, {}, false)], [];
    } else {
      var before, first := SerialDownloads(share, now, n - 1);
      var next, last := OneDownload(share.(downloads := share.downloads + n - 1), now);
      RunsJoin(before, first, next, last, 1);
      links, steps := before + next[1..], first + last;
    }
  }

  lemma OneDownload(share: Share, now: int) returns (links: seq<Link>, steps: seq<Step>)
    requires Active(share, now)
    ensures IsRun(links, steps, 1) && links[0] == Link(share, now, {}, false)
    ensures links[|steps|] == Link(share.(downloads := share.downloads + 1), now, {}, false)
  {
    links := [Link(share, now, {}, false), Link(share, now, {0}, false),
              Link(share.(downloads := share.downloads + 1), now, {}, false)];
    steps := [Check(0), Count(0, true)];
    assert {0} - {0} == {} && {} + {0} == {0};
    assert Next(links[0], steps[0], links[1]) && Next(links[1], steps[1], links[2]);
  }

  /** So the bound of LimitHolds is met for every limit and every k: from a fresh link, by serial downloads up to
      one below the limit and then k at once. */
  lemma LimitIsTight(share: Share, now: int, k: nat) returns (links: seq<Link>, steps: seq<Step>)
    requires Fresh(Link(share, now, {}, false)) && Active(share, now) && k > 0
    ensures IsRun(links, steps, k) && links[0] == Link(share, now, {}, false)
    ensures links[|steps|].share.downloads == share.maxDownloads.value + k - 1
  {
    var n := share.maxDownloads.value - 1;
    var serial, downloads := SerialDownloads(share, now, n);
    var burst, overrun := OvershootReached(share.(downloads := n), now, k);
    RunsJoin(serial, downloads, burst, overrun, k);
    links, steps := serial + burst[1..], downloads + overrun;
  }
}
