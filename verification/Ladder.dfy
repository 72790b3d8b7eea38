/** The HLS bitrate ladder, after backend/cmd/video-worker/ffmpeg.go. */
module Ladder {
  import opened Decimal

  datatype Rendition = Rendition(name: string, height: int, bitrate: string)

  const LADDER := [Rendition("360p", 360, "800k"), Rendition("720p", 720, "2800k"), Rendition("1080p", 1080, "5000k")]

  function Native(srcHeight: int): Rendition {
    Rendition(Print(srcHeight) + "p", srcHeight, "800k")
  }

  predicate Rising(rs: seq<Rendition>) {
    forall i, j | 0 <= i < j < |rs| :: rs[i].height < rs[j].height
  }

  /** Never upscales, never comes back empty: all ladder entries up to the source height in ladder order,
      or a single native one. */
  method SelectRenditions(srcHeight: int) returns (included: seq<Rendition>)
    ensures |included| > 0 && Rising(included)
    ensures forall r | r in included :: r.height <= srcHeight
    ensures forall r | r in LADDER :: r in included <==> r.height <= srcHeight
    ensures if srcHeight < 360 then included == [Native(srcHeight)] else forall r | r in included :: r in LADDER
  {
    included := [];
    for i := 0 to |LADDER|
      invariant Rising(included)
      invariant forall r | r in included :: r in LADDER[..i] && r.height <= srcHeight
      invariant forall k | 0 <= k < i :: LADDER[k].height <= srcHeight ==> LADDER[k] in included
      invariant srcHeight < 360 ==> included == []
    {
      if LADDER[i].height <= srcHeight {
        included := included + [LADDER[i]];
      }
    }
    assert srcHeight >= 360 ==> LADDER[0] in included;
    if |included| == 0 {
      included := [Native(srcHeight)];
    }
  }

  // ---------- widths ----------

  function RoundUpEven(w: nat): nat {
    if w % 2 != 0 then w + 1 else w
  }

  /** evenWidth in exact integer arithmetic. */
  function EvenWidth(height: nat, srcWidth: nat, srcHeight: nat): nat
    requires srcHeight > 0
  {
    RoundUpEven(height * srcWidth / srcHeight)
  }

  lemma QuotientBounds(a: nat, b: nat)
    requires b > 0
    ensures a / b * b <= a < (a / b + 1) * b
  {
    assert a == b * (a / b) + a % b;
  }

  lemma TimesMonotone(x: nat, y: nat, b: nat)
    requires x <= y
    ensures x * b <= y * b
  {
  }

  lemma AtMostQuotientIff(n: nat, a: nat, b: nat)
    requires b > 0
    ensures n <= a / b <==> n * b <= a
  {
    QuotientBounds(a, b);
    if n <= a / b {
      TimesMonotone(n, a / b, b);
    } else {
      TimesMonotone(a / b + 1, n, b);
    }
  }

  lemma Between(a: nat, a': nat, b: nat, q: nat, q': nat)
    requires q * b <= a <= a' < (q' + 1) * b
    ensures q <= q'
  {
    if q' + 1 <= q { TimesMonotone(q' + 1, q, b); }
  }

  lemma QuotientMonotone(a: nat, a': nat, b: nat)
    requires b > 0 && a <= a'
    ensures a / b <= a' / b
  {
    var q, q' := a / b, a' / b;
    assert q * b <= a by { QuotientBounds(a, b); }
    assert a' < (q' + 1) * b by { QuotientBounds(a', b); }
    Between(a, a', b, q, q');
  }

  /** h264 can encode it, and the picture keeps its shape to within one column. */
  lemma EvenWidthNearRatio(height: nat, srcWidth: nat, srcHeight: nat)
    requires srcHeight > 0
    ensures var w := EvenWidth(height, srcWidth, srcHeight);
            && w % 2 == 0
            && height * srcWidth - srcHeight < w * srcHeight <= height * srcWidth + srcHeight
  {
    var a := height * srcWidth;
    QuotientBounds(a, srcHeight);
    var q := a / srcHeight;
    assert (q + 1) * srcHeight == q * srcHeight + srcHeight;
  }

  lemma EvenWidthMonotone(h: nat, h': nat, srcWidth: nat, srcHeight: nat)
    requires srcHeight > 0 && h <= h'
    ensures EvenWidth(h, srcWidth, srcHeight) <= EvenWidth(h', srcWidth, srcHeight)
  {
    TimesMonotone(h, h', srcWidth);
    QuotientMonotone(h * srcWidth, h' * srcWidth, srcHeight);
  }

  /** At the source height the width is the source's, rounded up to even; below it, no wider. */
  lemma EvenWidthWithinSource(height: nat, srcWidth: nat, srcHeight: nat)
    requires 0 < srcHeight && height <= srcHeight
    ensures EvenWidth(height, srcWidth, srcHeight) <= RoundUpEven(srcWidth)
    ensures EvenWidth(srcHeight, srcWidth, srcHeight) == RoundUpEven(srcWidth)
  {
    ExactQuotient(srcWidth, srcHeight);
    EvenWidthMonotone(height, srcHeight, srcWidth, srcHeight);
  }

  lemma ExactQuotient(n: nat, b: nat)
    requires b > 0
    ensures b * n / b == n
  {
    AtMostQuotientIff(n, b * n, b);
    AtMostQuotientIff(n + 1, b * n, b);
    assert (n + 1) * b == b * n + b;
  }

  // ---------- floating point ----------

  const TWO53 := 0x20_0000_0000_0000

  /** What a double-precision division of two exactly represented integers may return: the quotient to
      within half a unit in the 53rd bit, and the quotient itself when it is an integer. */
  ghost predicate DoubleQuotient(q: real, a: nat, b: nat)
    requires b > 0
  {
    var x := a as real / b as real;
    && x - x / TWO53 as real <= q <= x + x / TWO53 as real
    && (a % b == 0 ==> q == x)
  }

  /** int(q), plus one if that is odd. */
  function TruncatedEven(q: real): int {
    if q.Floor % 2 != 0 then q.Floor + 1 else q.Floor
  }

  lemma WholePart(q: real, n: int)
    requires n as real <= q < n as real + 1.0
    ensures q.Floor == n
  {
  }

  lemma Shares(n: real, r: real, b: real)
    requires b > 0.0
    ensures (n * b + r) / b == n + r / b
    ensures (r + 1.0) / b == r / b + 1.0 / b
    ensures b / b == 1.0 && 0.0 / b == 0.0
  {
  }

  lemma ShareMonotone(x: real, y: real, b: real)
    requires b > 0.0 && x <= y
    ensures x / b <= y / b
  {
  }

  /** A quotient with whole part n and remainder r lies at least 1/b below n + 1, and so far above n unless r is 0. */
  lemma Gap(n: real, r: real, b: real)
    requires b > 0.0 && 0.0 <= r <= b - 1.0 && (r == 0.0 || r >= 1.0)
    ensures (n * b + r) / b + 1.0 / b <= n + 1.0
    ensures if r == 0.0 then (n * b + r) / b == n else n + 1.0 / b <= (n * b + r) / b
  {
    Shares(n, r, b);
    ShareMonotone(r + 1.0, b, b);
    ShareMonotone(1.0, if r == 0.0 then 1.0 else r, b);
  }

  lemma Parts(a: nat, b: nat)
    requires b > 0
    ensures a as real == (a / b) as real * b as real + (a % b) as real
  {
    var n, r := a / b, a % b;
    assert a == n * b + r;
    assert (n * b) as real == n as real * b as real;
  }

  /** The rounding error of a quotient of numbers below 2^53 is less than 1/b. */
  lemma ErrorBelowGap(a: nat, b: nat)
    requires b > 0 && a < TWO53
    ensures var x := a as real / b as real; 0.0 <= x && x / TWO53 as real < 1.0 / b as real
  {
    var aa, bb, t := a as real, b as real, TWO53 as real;
    assert aa < t;
    ShareMonotone(0.0, aa, bb);
    Swapped(aa, bb, t);
  }

  lemma Swapped(a: real, b: real, t: real)
    requires 0.0 <= a < t && b > 0.0
    ensures a / b / t < 1.0 / b
  {
    var x, e := a / b, 1.0 / b;
    assert x * b == a && e * b == 1.0;
    assert (e * t - x) * b == t - a;
    assert e * t > x by {
      if e * t <= x { NonPositive(e * t - x, b); }
    }
    var y := x / t;
    assert y * t == x;
    assert (e - y) * t > 0.0;
    if y >= e { NonPositive(e - y, t); }
  }

  lemma NonPositive(x: real, b: real)
    requires x <= 0.0 && b > 0.0
    ensures x * b <= 0.0
  {
  }

  /** A value within less than the gap of x has the whole part of x. */
  lemma Truncates(q: real, x: real, err: real, gap: real, n: int)
    requires x - err <= q <= x + err && 0.0 <= err < gap && x + gap <= n as real + 1.0
    requires n as real + gap <= x || n as real == x == q
    ensures q.Floor == n
  {
    WholePart(q, n);
  }

  lemma Below53(a: nat, b: nat, q: real)
    requires b > 0 && a < TWO53 && DoubleQuotient(q, a, b)
    ensures q.Floor == a / b
  {
    var n, r, x := a / b, a % b, a as real / b as real;
    Parts(a, b);
    Gap(n as real, r as real, b as real);
    ErrorBelowGap(a, b);
    Truncates(q, x, x / TWO53 as real, 1.0 / b as real, n);
  }

  /** While the product stays below 2^53, truncating the double-precision quotient is integer division, so
      the width computed in floating point is the exact one. */
  lemma FloatWidthExact(q: real, height: nat, srcWidth: nat, srcHeight: nat)
    requires srcHeight > 0 && height * srcWidth < TWO53
    requires DoubleQuotient(q, height * srcWidth, srcHeight)
    ensures TruncatedEven(q) == EvenWidth(height, srcWidth, srcHeight)
  {
    Below53(height * srcWidth, srcHeight, q);
  }
}
