/** Object keys: how they are spelled, and that no key belongs to two files. */
module ObjectKeys {
  import opened Wrappers
  import opened Schema

  const HEX_DIGITS := "0123456789abcdef"

  /** The last `width` hexadecimal digits of `n`, most significant first. */
  function Hex(n: nat, width: nat): (s: string)
    ensures |s| == width
    decreases width
  {
    if width == 0 then "" else Hex(n / 16, width - 1) + [HEX_DIGITS[n % 16]]
  }

  function Pow16(k: nat): nat {
    if k == 0 then 1 else 16 * Pow16(k - 1)
  }

  /** The 8-4-4-4-12 spelling of a UUID. */
  function UuidText(id: Id): (s: string)
    ensures |s| == 36
  {
    var h := Hex(id as nat, 32);
    h[..8] + "-" + h[8..12] + "-" + h[12..16] + "-" + h[16..20] + "-" + h[20..]
  }

  /** Two concatenations with first parts of one length agree part by part. */
  lemma PartsAgree(a: string, s: string, b: string, t: string)
    requires |a| == |b| && a + s == b + t
    ensures a == b && s == t
  {
    assert (a + s)[..|a|] == a && (b + t)[..|a|] == b;
    assert (a + s)[|a|..] == s && (b + t)[|a|..] == t;
  }

  lemma Pow16Values()
    ensures Pow16(32) == ID_LIMIT
  {
    assert Pow16(8) == 0x1_0000_0000;
    assert Pow16(16) == 0x1_0000_0000_0000_0000 by { Pow16Add(8, 8); }
    Pow16Add(16, 16);
  }

  lemma {:induction false} Pow16Add(a: nat, b: nat)
    ensures Pow16(a + b) == Pow16(a) * Pow16(b)
  {
    if a > 0 { Pow16Add(a - 1, b); }
  }

  // ---------- reading a UUID ----------

  function HexDigit(c: char): Option<nat> {
    if '0' <= c <= '9' then Some((c - '0') as nat)
    else if 'a' <= c <= 'f' then Some((c - 'a') as nat + 10)
    else if 'A' <= c <= 'F' then Some((c - 'A') as nat + 10)
    else None
  }

  function HexValue(s: string): (v: Option<nat>)
    ensures v.Some? ==> v.value < Pow16(|s|)
  {
    if s == "" then Some(0)
    else
      match (HexValue(s[..|s| - 1]), HexDigit(s[|s| - 1]))
      case (Some(high), Some(low)) => Some(16 * high + low)
      case _ => None
  }

  function IdOf(digits: string): Option<Id>
    requires |digits| == 32
  {
    Pow16Values();
    match HexValue(digits) case Some(v) => Some(v as Id) case None => None
  }

  /** The first 36 characters, with their dashes in place. */
  function ReadDashed(s: string): Option<Id>
    requires |s| >= 36
  {
    if s[8] != '-' || s[13] != '-' || s[18] != '-' || s[23] != '-' then None
    else IdOf(s[..8] + s[9..13] + s[14..18] + s[19..23] + s[24..36])
  }

  predicate SameLetters(s: string, t: string) {
    |s| == |t| && forall i | 0 <= i < |s| :: s[i] == t[i] || ('A' <= s[i] <= 'Z' && s[i] - 'A' + 'a' == t[i])
  }

  /** uuid.Parse: with dashes, in braces, with the urn prefix, or 32 digits. */
  function ParseUuid(s: string): Option<Id> {
    if |s| == 36 then ReadDashed(s)
    else if |s| == 45 && SameLetters(s[..9], "urn:uuid:") then ReadDashed(s[9..])
    else if |s| == 38 then ReadDashed(s[1..])
    else if |s| == 32 then IdOf(s)
    else None
  }

  lemma {:induction false} HexReads(n: nat, width: nat)
    requires n < Pow16(width)
    ensures HexValue(Hex(n, width)) == Some(n)
    decreases width
  {
    if width > 0 {
      var h := Hex(n, width);
      assert h[..width - 1] == Hex(n / 16, width - 1);
      HexReads(n / 16, width - 1);
      HexDigitReads(n % 16);
    }
  }

  lemma HexDigitReads(d: nat)
    requires d < 16
    ensures HexDigit(HEX_DIGITS[d]) == Some(d)
  {
  }

  lemma DashesDrop(h: string)
    requires |h| == 32
    ensures var s := h[..8] + "-" + h[8..12] + "-" + h[12..16] + "-" + h[16..20] + "-" + h[20..];
            && |s| == 36 && s[8] == s[13] == s[18] == s[23] == '-'
            && s[..8] + s[9..13] + s[14..18] + s[19..23] + s[24..36] == h
  {
    var s := h[..8] + "-" + h[8..12] + "-" + h[12..16] + "-" + h[16..20] + "-" + h[20..];
    assert s[..8] == h[..8] && s[9..13] == h[8..12] && s[14..18] == h[12..16] && s[19..23] == h[16..20];
    assert s[24..36] == h[20..];
  }

  /** A printed id reads back as itself. */
  lemma UuidTextParses(id: Id)
    ensures ParseUuid(UuidText(id)) == Some(id)
  {
    var h := Hex(id as nat, 32);
    Pow16Values();
    HexReads(id as nat, 32);
    DashesDrop(h);
  }

  lemma UuidTextInjective(a: Id, b: Id)
    requires UuidText(a) == UuidText(b)
    ensures a == b
  {
    UuidTextParses(a);
    UuidTextParses(b);
  }

  // ---------- the three families of keys ----------

  function UserPrefix(user: Id, id: Id): string {
    "users/" + UuidText(user) + "/" + UuidText(id) + "/"
  }

  function HlsPrefix(id: Id): string {
    "hls/" + UuidText(id) + "/"
  }

  function ThumbnailText(id: Id): string {
    "thumbnails/" + UuidText(id) + ".jpg"
  }

  /** The key as the storage service sees it. */
  function Spell(key: Key): string {
    match key
    case Original(user, id, name) => UserPrefix(user, id) + name
    case Thumbnail(id) => ThumbnailText(id)
    case Hls(id, name) => HlsPrefix(id) + name
  }

  function PosterKey(id: Id): Key {
    Hls(id, "poster.jpg")
  }

  function MasterKey(id: Id): Key {
    Hls(id, "master.m3u8")
  }

  lemma HlsPrefixInjective(a: Id, b: Id)
    requires HlsPrefix(a) == HlsPrefix(b)
    ensures a == b
  {
    PartsAgree("hls/" + UuidText(a), "/", "hls/" + UuidText(b), "/");
    PartsAgree("hls/", UuidText(a), "hls/", UuidText(b));
    UuidTextInjective(a, b);
  }

  lemma ThumbnailTextInjective(a: Id, b: Id)
    requires ThumbnailText(a) == ThumbnailText(b)
    ensures a == b
  {
    PartsAgree("thumbnails/" + UuidText(a), ".jpg", "thumbnails/" + UuidText(b), ".jpg");
    PartsAgree("thumbnails/", UuidText(a), "thumbnails/", UuidText(b));
    UuidTextInjective(a, b);
  }

  lemma UserPrefixInjective(u: Id, a: Id, v: Id, b: Id)
    requires UserPrefix(u, a) == UserPrefix(v, b)
    ensures u == v && a == b
  {
    PartsAgree("users/" + UuidText(u) + "/" + UuidText(a), "/", "users/" + UuidText(v) + "/" + UuidText(b), "/");
    PartsAgree("users/" + UuidText(u) + "/", UuidText(a), "users/" + UuidText(v) + "/", UuidText(b));
    PartsAgree("users/" + UuidText(u), "/", "users/" + UuidText(v), "/");
    PartsAgree("users/", UuidText(u), "users/", UuidText(v));
    UuidTextInjective(u, v);
    UuidTextInjective(a, b);
  }

  /** The first letter of a key tells its family. */
  lemma FirstLetter(key: Key)
    ensures |Spell(key)| > 0
    ensures Spell(key)[0] == match key case Original(_, _, _) => 'u' case Thumbnail(_) => 't' case Hls(_, _) => 'h'
  {
    match key
    case Original(user, id, name) => assert UserPrefix(user, id)[0] == 'u';
    case Thumbnail(id) => assert ThumbnailText(id)[0] == 't';
    case Hls(id, name) => assert HlsPrefix(id)[0] == 'h';
  }

  /** No two keys are spelled alike, whatever the file names contain. */
  lemma SpellInjective(a: Key, b: Key)
    requires Spell(a) == Spell(b)
    ensures a == b
  {
    FirstLetter(a);
    FirstLetter(b);
    match a
    case Original(user, id, name) =>
      PartsAgree(UserPrefix(user, id), name, UserPrefix(b.user, b.id), b.name);
      UserPrefixInjective(user, id, b.user, b.id);
    case Thumbnail(id) =>
      ThumbnailTextInjective(id, b.id);
    case Hls(id, name) =>
      PartsAgree(HlsPrefix(id), name, HlsPrefix(b.id), b.name);
      HlsPrefixInjective(id, b.id);
  }

  lemma HlsPrefixOf(id: Id, name: string, other: Id)
    requires HasPrefix(HlsPrefix(id) + name, HlsPrefix(other))
    ensures id == other
  {
    var text := HlsPrefix(id) + name;
    var rest := text[|HlsPrefix(other)|..];
    assert text == HlsPrefix(other) + rest;
    PartsAgree(HlsPrefix(id), name, HlsPrefix(other), rest);
    HlsPrefixInjective(id, other);
  }

  /** Listing by the prefix of one video finds the objects of that video and nothing else. */
  lemma PrefixListsExactly(key: Key, id: Id)
    ensures HasPrefix(Spell(key), HlsPrefix(id)) <==> key.Hls? && key.id == id
  {
    if key.Hls? {
      if HasPrefix(Spell(key), HlsPrefix(id)) { HlsPrefixOf(key.id, key.name, id); }
    } else {
      FirstLetter(key);
      assert HlsPrefix(id)[0] == 'h';
    }
  }
}
