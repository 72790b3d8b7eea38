/** The HLS master playlist: the writer of backend/cmd/video-worker/hls.go, and a reader of the parts of
    RFC 8216 that a master playlist uses. */
module MasterPlaylist {
  import opened Machine
  import opened Wrappers
  import opened Schema
  import opened Decimal
  import opened Ladder

  // ---------- the writer ----------

  /** strings.ToLower as far as it can matter to Atoi after the suffix is trimmed: A to Z, and the Kelvin
      sign, whose lower case is the letter k. */
  function Lower(s: string): (t: string)
    ensures |t| == |s|
  {
    if s == "" then ""
    else
      var c := s[0];
      [if 'A' <= c <= 'Z' then c - 'A' + 'a' else if c == '\U{212A}' then 'k' else c] + Lower(s[1..])
  }

  function TrimSuffix(s: string, c: char): string {
    if s != "" && s[|s| - 1] == c then s[..|s| - 1] else s
  }

  function BitrateToBandwidth(bitrate: string): int {
    match Atoi(TrimSuffix(Lower(bitrate), 'k'))
    case None => 0
    case Some(n) => Wrap64(n * 1000)
  }

  const STREAM_INF := "#EXT-X-STREAM-INF:"
  const EXTM3U := "#EXTM3U"
  const VERSION := "#EXT-X-VERSION:3"
  const HEADER := EXTM3U + "\n" + VERSION + "\n"

  function AttributeText(bandwidth: int, width: int, height: int): string {
    "BANDWIDTH=" + Print(bandwidth) + ",RESOLUTION=" + Print(width) + "x" + Print(height)
  }

  function Entry(r: Rendition, width: int): string {
    STREAM_INF + AttributeText(BitrateToBandwidth(r.bitrate), width, r.height) + "\n" + r.name + ".m3u8\n"
  }

  predicate NoNegativeHeights(rs: seq<Rendition>) {
    forall r | r in rs :: r.height >= 0
  }

  function Entries(rs: seq<Rendition>, srcWidth: nat, srcHeight: nat): string
    requires srcHeight > 0 && NoNegativeHeights(rs)
  {
    if rs == [] then ""
    else Entry(rs[0], EvenWidth(rs[0].height, srcWidth, srcHeight)) + Entries(rs[1..], srcWidth, srcHeight)
  }

  lemma EntriesFrom(rs: seq<Rendition>, srcWidth: nat, srcHeight: nat, i: nat)
    requires srcHeight > 0 && NoNegativeHeights(rs) && i < |rs|
    ensures Entries(rs[i..], srcWidth, srcHeight) ==
            Entry(rs[i], EvenWidth(rs[i].height, srcWidth, srcHeight)) + Entries(rs[i + 1..], srcWidth, srcHeight)
  {
    assert rs[i..][0] == rs[i] && rs[i..][1..] == rs[i + 1..];
  }

  lemma Appended(b: string, e: string, rest: string, whole: string)
    requires b + (e + rest) == whole
    ensures (b + e) + rest == whole
  {
  }

  method BuildMasterPlaylist(rs: seq<Rendition>, srcWidth: nat, srcHeight: nat) returns (b: string)
    requires srcHeight > 0 && NoNegativeHeights(rs)
    ensures b == HEADER + Entries(rs, srcWidth, srcHeight)
  {
    b := HEADER;
    ghost var whole := HEADER + Entries(rs, srcWidth, srcHeight);
    assert rs[0..] == rs;
    for i := 0 to |rs|
      invariant b + Entries(rs[i..], srcWidth, srcHeight) == whole
    {
      var entry := Entry(rs[i], EvenWidth(rs[i].height, srcWidth, srcHeight));
      EntriesFrom(rs, srcWidth, srcHeight, i);
      Appended(b, entry, Entries(rs[i + 1..], srcWidth, srcHeight), whole);
      b := b + entry;
    }
  }

  // ---------- the reader ----------

  /** The pieces of a text between occurrences of a character. */
  function Split(s: string, c: char): (r: seq<string>)
    ensures |r| > 0
  {
    if s == "" then [""]
    else
      var rest := Split(s[1..], c);
      if s[0] == c then [""] + rest else [[s[0]] + rest[0]] + rest[1..]
  }

  /** Section 4.1 of RFC 8216: a line ends with a line feed, or with a carriage return and a line feed. */
  function TrimReturn(line: string): string {
    TrimSuffix(line, '\r')
  }

  /** Section 4.2: attributes are separated by commas, except for commas inside quotes. */
  function Attributes(s: string, quoted: bool): (r: seq<string>)
    ensures |r| > 0
  {
    if s == "" then [""]
    else if s[0] == ',' && !quoted then [""] + Attributes(s[1..], false)
    else
      var rest := Attributes(s[1..], if s[0] == '"' then !quoted else quoted);
      [[s[0]] + rest[0]] + rest[1..]
  }

  /** The values given for one attribute name. */
  function ValuesOf(attributes: seq<string>, name: string): seq<string> {
    if attributes == [] then []
    else
      var rest := ValuesOf(attributes[1..], name);
      if HasPrefix(attributes[0], name + "=") then [attributes[0][|name| + 1..]] + rest else rest
  }

  const TWO64 := 0x1_0000_0000_0000_0000

  /** Section 4.2, decimal-integer: 1 to 20 digits, value below 2^64. */
  function ReadInteger(s: string): Option<nat> {
    if 1 <= |s| <= 20 && AllDigits(s) && Value(s) < TWO64 then Some(Value(s)) else None
  }

  /** Section 4.2, decimal-resolution: two decimal integers separated by an x. */
  function ReadResolution(s: string): Option<(nat, nat)> {
    var parts := Split(s, 'x');
    if |parts| != 2 || ReadInteger(parts[0]).None? || ReadInteger(parts[1]).None? then None
    else Some((ReadInteger(parts[0]).value, ReadInteger(parts[1]).value))
  }

  datatype Variant = Variant(bandwidth: int, width: int, height: int, uri: string)

  /** Section 4.3.4.2: BANDWIDTH is required; this reader also insists on RESOLUTION. No name may repeat. */
  function ReadStreamInf(text: string, uri: string): Option<Variant> {
    var attributes := Attributes(text, false);
    var bandwidths, resolutions := ValuesOf(attributes, "BANDWIDTH"), ValuesOf(attributes, "RESOLUTION");
    if |bandwidths| != 1 || |resolutions| != 1 then None
    else
      match (ReadInteger(bandwidths[0]), ReadResolution(resolutions[0]))
      case (Some(b), Some(res)) => Some(Variant(b, res.0, res.1, uri))
      case _ => None
  }

  predicate IsUri(line: string) {
    line != "" && line[0] != '#'
  }

  /** Each stream tag is followed by the line with its URI; other tags, comments and blank lines are skipped;
      a URI without a stream tag does not belong in a master playlist. */
  function ReadLines(lines: seq<string>): Option<seq<Variant>>
    decreases |lines|
  {
    if lines == [] then Some([])
    else if HasPrefix(lines[0], STREAM_INF) then
      if |lines| < 2 || !IsUri(lines[1]) then None
      else
        match (ReadStreamInf(lines[0][|STREAM_INF|..], lines[1]), ReadLines(lines[2..]))
        case (Some(v), Some(rest)) => Some([v] + rest)
        case _ => None
    else if IsUri(lines[0]) then None
    else ReadLines(lines[1..])
  }

  function Trimmed(raw: seq<string>): (r: seq<string>)
    ensures |r| == |raw|
  {
    if raw == [] then [] else [TrimReturn(raw[0])] + Trimmed(raw[1..])
  }

  function Lines(s: string): (r: seq<string>)
    ensures |r| > 0
  {
    Trimmed(Split(s, '\n'))
  }

  /** Section 4.3.1.1: the first line must be the EXTM3U tag. */
  function ReadMaster(s: string): Option<seq<Variant>> {
    var lines := Lines(s);
    if lines[0] == EXTM3U then ReadLines(lines[1..]) else None
  }

  // ---------- reading back what was written ----------

  lemma {:induction false} SplitPiece(a: string, c: char, b: string)
    requires c !in a
    ensures Split(a + [c] + b, c) == [a] + Split(b, c)
  {
    if a == "" {
      assert a + [c] + b == [c] + b;
    } else {
      SplitPiece(a[1..], c, b);
      assert (a + [c] + b)[1..] == a[1..] + [c] + b;
      assert [a[0]] + a[1..] == a;
      assert ([a[1..]] + Split(b, c))[1..] == Split(b, c);
    }
  }

  lemma {:induction false} SplitWhole(a: string, c: char)
    requires c !in a
    ensures Split(a, c) == [a]
  {
    if a != "" {
      SplitWhole(a[1..], c);
      assert [a[0]] + a[1..] == a;
    }
  }

  lemma {:induction false} AttributesPiece(a: string, b: string)
    requires ',' !in a && '"' !in a
    ensures Attributes(a + "," + b, false) == [a] + Attributes(b, false)
  {
    if a == "" {
      assert a + "," + b == "," + b;
    } else {
      AttributesPiece(a[1..], b);
      assert (a + "," + b)[1..] == a[1..] + "," + b;
      assert [a[0]] + a[1..] == a;
      assert ([a[1..]] + Attributes(b, false))[1..] == Attributes(b, false);
    }
  }

  lemma {:induction false} AttributesWhole(a: string)
    requires ',' !in a && '"' !in a
    ensures Attributes(a, false) == [a]
  {
    if a != "" {
      AttributesWhole(a[1..]);
      assert [a[0]] + a[1..] == a;
    }
  }

  lemma ReadIntegerPrint(n: int)
    requires n < TWO64
    ensures if n >= 0 then ReadInteger(Print(n)) == Some(n) else ReadInteger(Print(n)).None?
  {
    if n >= 0 {
      DigitsRead(n);
      Pow10Twenty();
      DigitsLength(n, 20);
    } else {
      assert Print(n)[0] == '-';
    }
  }

  /** A printed integer holds none of the characters that the reader splits at. */
  lemma PrintIsPlain(n: int)
    ensures Print(n) != "" && forall c | c in Print(n) :: c == '-' || IsDigit(c)
  {
    DigitsRead(if n < 0 then -n else n);
  }

  lemma ReadResolutionPrint(width: nat, height: nat)
    requires width < TWO64 && height < TWO64
    ensures ReadResolution(Print(width) + "x" + Print(height)) == Some((width, height))
  {
    PrintIsPlain(width);
    PrintIsPlain(height);
    SplitPiece(Print(width), 'x', Print(height));
    SplitWhole(Print(height), 'x');
    ReadIntegerPrint(width);
    ReadIntegerPrint(height);
  }

  lemma TwoAttributes(a: string, b: string)
    requires ',' !in a && '"' !in a && ',' !in b && '"' !in b
    ensures Attributes(a + "," + b, false) == [a, b]
  {
    AttributesPiece(a, b);
    AttributesWhole(b);
  }

  lemma AttributesPrint(bandwidth: int, width: nat, height: nat)
    ensures Attributes(AttributeText(bandwidth, width, height), false) ==
            ["BANDWIDTH=" + Print(bandwidth), "RESOLUTION=" + (Print(width) + "x" + Print(height))]
  {
    var b, w, h := Print(bandwidth), Print(width), Print(height);
    PrintIsPlain(bandwidth);
    PrintIsPlain(width);
    PrintIsPlain(height);
    TwoAttributes("BANDWIDTH=" + b, "RESOLUTION=" + (w + "x" + h));
    SameText(b, w, h);
  }

  lemma SameText(b: string, w: string, h: string)
    ensures "BANDWIDTH=" + b + ",RESOLUTION=" + w + "x" + h == ("BANDWIDTH=" + b) + "," + ("RESOLUTION=" + (w + "x" + h))
  {
    assert ",RESOLUTION=" == "," + "RESOLUTION=";
  }

  lemma OneValue(name: string, v: string, rest: seq<string>)
    ensures ValuesOf([name + "=" + v] + rest, name) == [v] + ValuesOf(rest, name)
  {
    var f := name + "=" + v;
    assert f[..|name| + 1] == name + "=";
    assert f[|name| + 1..] == v;
    assert ([f] + rest)[1..] == rest;
  }

  lemma OtherValue(f: string, rest: seq<string>, name: string)
    requires f != "" && name != "" && f[0] != name[0]
    ensures ValuesOf([f] + rest, name) == ValuesOf(rest, name)
  {
    assert ([f] + rest)[1..] == rest;
  }

  lemma TwoValues(b: string, r: string)
    ensures ValuesOf(["BANDWIDTH=" + b, "RESOLUTION=" + r], "BANDWIDTH") == [b]
    ensures ValuesOf(["BANDWIDTH=" + b, "RESOLUTION=" + r], "RESOLUTION") == [r]
  {
    var x, y := "BANDWIDTH=" + b, "RESOLUTION=" + r;
    assert [x] + [y] == [x, y] && [y] + [] == [y];
    OneValue("BANDWIDTH", b, [y]);
    OtherValue(y, [], "BANDWIDTH");
    OtherValue(x, [y], "RESOLUTION");
    OneValue("RESOLUTION", r, []);
  }

  lemma StreamInfReads(bandwidth: int, width: nat, height: nat, uri: string)
    requires bandwidth < TWO64 && width < TWO64 && height < TWO64
    ensures ReadStreamInf(AttributeText(bandwidth, width, height), uri) ==
            if bandwidth >= 0 then Some(Variant(bandwidth, width, height, uri)) else None
  {
    AttributesPrint(bandwidth, width, height);
    TwoValues(Print(bandwidth), Print(width) + "x" + Print(height));
    ReadIntegerPrint(bandwidth);
    ReadResolutionPrint(width, height);
  }

  lemma LinesPiece(a: string, b: string)
    requires '\n' !in a
    ensures Lines(a + "\n" + b) == [TrimReturn(a)] + Lines(b)
  {
    SplitPiece(a, '\n', b);
    assert a + "\n" + b == a + ['\n'] + b;
    assert ([a] + Split(b, '\n'))[1..] == Split(b, '\n');
  }

  lemma {:induction false} FirstPiece(s: string, c: char)
    ensures c !in Split(s, c)[0]
    ensures s != "" && s[0] != c ==> Split(s, c)[0] != "" && Split(s, c)[0][0] == s[0]
  {
    if s != "" {
      FirstPiece(s[1..], c);
    }
  }

  lemma FirstLine(s: string)
    ensures '\n' !in Lines(s)[0]
    ensures s != "" && s[0] == '#' ==> !IsUri(Lines(s)[0])
  {
    FirstPiece(s, '\n');
  }

  /** A playlist name that is one line and no comment. */
  predicate Clean(name: string) {
    '\n' !in name && (name != "" ==> name[0] != '#')
  }

  lemma UriLine(name: string, rest: string)
    ensures Clean(name) ==> Lines(name + ".m3u8" + "\n" + rest) == [name + ".m3u8"] + Lines(rest) && IsUri(name + ".m3u8")
    ensures !Clean(name) ==> var line := Lines(name + ".m3u8" + "\n" + rest)[0]; !IsUri(line) || line != name + ".m3u8"
  {
    var uri := name + ".m3u8";
    assert uri[|uri| - 1] == '8';
    if Clean(name) {
      LinesPiece(uri, rest);
    } else {
      FirstLine(uri + "\n" + rest);
      if '\n' in name {
        var i :| 0 <= i < |name| && name[i] == '\n';
        assert uri[i] == '\n';
      } else {
        assert (uri + "\n" + rest)[0] == '#';
      }
    }
  }

  lemma TagLine(bandwidth: int, width: nat, height: nat, rest: string)
    ensures Lines(STREAM_INF + AttributeText(bandwidth, width, height) + "\n" + rest) ==
            [STREAM_INF + AttributeText(bandwidth, width, height)] + Lines(rest)
  {
    var b, w, h := Print(bandwidth), Print(width), Print(height);
    PrintIsPlain(bandwidth);
    PrintIsPlain(width);
    PrintIsPlain(height);
    var line := STREAM_INF + AttributeText(bandwidth, width, height);
    LineIsPlain(b, w, h);
    assert line[|line| - 1] == h[|h| - 1];
    LinesPiece(line, rest);
  }

  lemma LineIsPlain(b: string, w: string, h: string)
    requires '\n' !in b && '\n' !in w && '\n' !in h
    ensures '\n' !in STREAM_INF + ("BANDWIDTH=" + b + ",RESOLUTION=" + w + "x" + h)
  {
  }

  /** What a reader should make of the list. */
  function Expected(rs: seq<Rendition>, srcWidth: nat, srcHeight: nat): seq<Variant>
    requires srcHeight > 0 && NoNegativeHeights(rs)
  {
    if rs == [] then []
    else
      [Variant(BitrateToBandwidth(rs[0].bitrate), EvenWidth(rs[0].height, srcWidth, srcHeight), rs[0].height,
               rs[0].name + ".m3u8")] + Expected(rs[1..], srcWidth, srcHeight)
  }

  predicate Readable(r: Rendition) {
    Clean(r.name) && BitrateToBandwidth(r.bitrate) >= 0
  }

  /** Every printed size is one the reader's integers can hold, as sizes in 64-bit ints are. */
  ghost predicate SizesFit(rs: seq<Rendition>, srcWidth: nat, srcHeight: nat)
    requires srcHeight > 0 && NoNegativeHeights(rs)
  {
    forall r | r in rs :: r.height < TWO64 && EvenWidth(r.height, srcWidth, srcHeight) < TWO64
  }

  lemma BandwidthFits(bitrate: string)
    ensures FitsInt64(BitrateToBandwidth(bitrate))
  {
  }

  /** One entry, whatever follows it. */
  lemma ReadEntry(r: Rendition, width: nat, rest: string)
    requires 0 <= r.height < TWO64 && width < TWO64
    ensures var lines := ReadLines(Lines(Entry(r, width) + rest));
            var v := Variant(BitrateToBandwidth(r.bitrate), width, r.height, r.name + ".m3u8");
            if Readable(r) then
              lines == match ReadLines(Lines(rest)) { case Some(more) => Some([v] + more) case None => None }
            else lines.Some? ==> |lines.value| > 0 && lines.value[0] != v
  {
    var bandwidth := BitrateToBandwidth(r.bitrate);
    var text := AttributeText(bandwidth, width, r.height);
    var tail := r.name + ".m3u8" + "\n" + rest;
    assert Entry(r, width) + rest == STREAM_INF + text + "\n" + tail by {
      EntryText(STREAM_INF + text, r.name, rest);
    }
    TagLine(bandwidth, width, r.height, tail);
    UriLine(r.name, rest);
    BandwidthFits(r.bitrate);
    ReadTwoLines(text, Lines(tail));
    StreamInfReads(bandwidth, width, r.height, Lines(tail)[0]);
  }

  lemma EntryText(tag: string, name: string, rest: string)
    ensures tag + "\n" + name + ".m3u8\n" + rest == tag + "\n" + (name + ".m3u8" + "\n" + rest)
  {
    assert ".m3u8\n" == ".m3u8" + "\n";
  }

  lemma ReadTwoLines(text: string, after: seq<string>)
    requires |after| > 0
    ensures ReadLines([STREAM_INF + text] + after) ==
            if !IsUri(after[0]) then None
            else match (ReadStreamInf(text, after[0]), ReadLines(after[1..]))
                 case (Some(v), Some(rest)) => Some([v] + rest)
                 case _ => None
  {
    PrefixParts(STREAM_INF, text);
    ReadStreamLine(STREAM_INF + text, after);
  }

  lemma ReadStreamLine(line: string, after: seq<string>)
    requires |after| > 0 && HasPrefix(line, STREAM_INF)
    ensures ReadLines([line] + after) ==
            if !IsUri(after[0]) then None
            else match (ReadStreamInf(line[|STREAM_INF|..], after[0]), ReadLines(after[1..]))
                 case (Some(v), Some(rest)) => Some([v] + rest)
                 case _ => None
  {
    var lines := [line] + after;
    assert lines[0] == line && lines[1] == after[0] && lines[2..] == after[1..];
  }

  lemma PrefixParts(prefix: string, rest: string)
    ensures HasPrefix(prefix + rest, prefix) && (prefix + rest)[|prefix|..] == rest
  {
  }

  lemma NothingReads()
    ensures ReadLines(Lines("")) == Some([])
  {
    assert Lines("") == [""];
  }

  lemma PrependIff(readable: bool, lines: Option<seq<Variant>>, v: Variant, more: Option<seq<Variant>>, vs: seq<Variant>)
    requires if readable then lines == match more { case Some(m) => Some([v] + m) case None => None }
             else lines.Some? ==> |lines.value| > 0 && lines.value[0] != v
    ensures lines == Some([v] + vs) <==> readable && more == Some(vs)
  {
    if readable && more.Some? {
      assert ([v] + more.value)[1..] == more.value && ([v] + vs)[1..] == vs;
    }
  }

  lemma {:induction false} EntriesReadIff(rs: seq<Rendition>, srcWidth: nat, srcHeight: nat)
    requires srcHeight > 0 && NoNegativeHeights(rs) && SizesFit(rs, srcWidth, srcHeight)
    ensures ReadLines(Lines(Entries(rs, srcWidth, srcHeight))) == Some(Expected(rs, srcWidth, srcHeight)) <==>
            forall r | r in rs :: Readable(r)
  {
    if rs == [] {
      NothingReads();
    } else {
      var r, rest, width := rs[0], rs[1..], EvenWidth(rs[0].height, srcWidth, srcHeight);
      var v := Variant(BitrateToBandwidth(r.bitrate), width, r.height, r.name + ".m3u8");
      var text := Entries(rest, srcWidth, srcHeight);
      ReadEntry(r, width, text);
      PrependIff(Readable(r), ReadLines(Lines(Entry(r, width) + text)), v, ReadLines(Lines(text)),
                 Expected(rest, srcWidth, srcHeight));
      EntriesReadIff(rest, srcWidth, srcHeight);
      assert rs == [r] + rest;
    }
  }

  lemma SkipLine(line: string, rest: seq<string>)
    requires !IsUri(line) && !HasPrefix(line, STREAM_INF)
    ensures ReadLines([line] + rest) == ReadLines(rest)
  {
    assert ([line] + rest)[1..] == rest;
  }

  lemma TwoLines(a: string, b: string, rest: string)
    requires '\n' !in a && '\n' !in b && TrimReturn(a) == a && TrimReturn(b) == b
    ensures Lines(a + "\n" + b + "\n" + rest) == [a] + ([b] + Lines(rest))
  {
    LinesPiece(b, rest);
    LinesPiece(a, b + "\n" + rest);
    assert a + "\n" + b + "\n" + rest == a + "\n" + (b + "\n" + rest);
  }

  lemma HeaderReads(rest: string)
    ensures ReadMaster(HEADER + rest) == ReadLines(Lines(rest))
  {
    TwoLines(EXTM3U, VERSION, rest);
    assert VERSION[7] == 'V' && STREAM_INF[7] == 'S';
    SkipLine(VERSION, Lines(rest));
    assert Lines(HEADER + rest)[1..] == [VERSION] + Lines(rest);
  }

  /** A reader recovers every rendition, in order and with its size, rate and playlist name, exactly when each
      name is a single line that does not start with '#' and no rate is negative. */
  lemma MasterReadsBackIff(rs: seq<Rendition>, srcWidth: nat, srcHeight: nat)
    requires srcHeight > 0 && NoNegativeHeights(rs) && SizesFit(rs, srcWidth, srcHeight)
    ensures ReadMaster(HEADER + Entries(rs, srcWidth, srcHeight)) == Some(Expected(rs, srcWidth, srcHeight)) <==>
            forall r | r in rs :: Readable(r)
  {
    HeaderReads(Entries(rs, srcWidth, srcHeight));
    EntriesReadIff(rs, srcWidth, srcHeight);
  }

  // ---------- rates ----------

  lemma {:induction false} LowerDigits(s: string)
    requires AllDigits(s)
    ensures Lower(s) == s
  {
    if s != "" {
      LowerDigits(s[1..]);
    }
  }

  lemma {:induction false} LowerSuffix(s: string, c: char)
    ensures Lower(s + [c]) == Lower(s) + Lower([c])
  {
    if s == "" {
      assert s + [c] == [c];
    } else {
      LowerSuffix(s[1..], c);
      assert (s + [c])[1..] == s[1..] + [c];
    }
  }

  lemma KilobitsText(n: nat, k: char)
    requires k == 'k' || k == 'K'
    ensures TrimSuffix(Lower(Print(n) + [k]), 'k') == Print(n)
  {
    DigitsRead(n);
    LowerDigits(Print(n));
    LowerSuffix(Print(n), k);
    assert Lower([k]) == "k";
    assert (Print(n) + "k")[..|Print(n)|] == Print(n);
  }

  lemma UnwrappedIff(x: nat)
    ensures Wrap64(x) == x <==> x <= INT64_MAX
  {
  }

  /** "<n>k" means 1000 n bits per second, exactly as long as that fits 64 bits. */
  lemma BandwidthOfKilobitsIff(n: nat, k: char)
    requires k == 'k' || k == 'K'
    ensures BitrateToBandwidth(Print(n) + [k]) == 1000 * n <==> 1000 * n <= INT64_MAX
  {
    KilobitsText(n, k);
    DigitsRead(n);
    assert Print(n)[0] != '-' && Print(n)[0] != '+';
    if n <= INT64_MAX {
      assert Atoi(Print(n)) == Some(n);
      UnwrappedIff(n * 1000);
    } else {
      assert Atoi(Print(n)) == None;
    }
  }

  lemma LadderRates(r: Rendition, srcHeight: nat)
    requires r in LADDER || r == Native(srcHeight)
    ensures r.bitrate == Print(800) + "k" || r.bitrate == Print(2800) + "k" || r.bitrate == Print(5000) + "k"
  {
    assert Print(800) == "800" && Print(2800) == "2800" && Print(5000) == "5000";
  }

  lemma LadderNames(r: Rendition, srcHeight: nat)
    requires r in LADDER || r == Native(srcHeight)
    ensures Clean(r.name)
  {
    PrintIsPlain(srcHeight);
    var p := Print(srcHeight);
    assert (p + "p")[0] == p[0] && p[0] in p;
  }

  /** Every entry the ladder can yield reads back. */
  lemma LadderReadable(r: Rendition, srcHeight: nat)
    requires r in LADDER || r == Native(srcHeight)
    ensures Readable(r)
  {
    LadderNames(r, srcHeight);
    LadderRates(r, srcHeight);
    BandwidthOfKilobitsIff(800, 'k');
    BandwidthOfKilobitsIff(2800, 'k');
    BandwidthOfKilobitsIff(5000, 'k');
  }

  /** For any source picture, a player reads the published master playlist back as the selected ladder. */
  method PublishLadder(srcWidth: nat, srcHeight: nat) returns (rs: seq<Rendition>, master: string)
    requires 0 < srcHeight <= INT64_MAX && srcWidth <= INT64_MAX
    ensures |rs| > 0 && NoNegativeHeights(rs) && forall r | r in rs :: r.height <= srcHeight
    ensures ReadMaster(master) == Some(Expected(rs, srcWidth, srcHeight))
  {
    rs := SelectRenditions(srcHeight);
    forall r | r in rs
      ensures r.height >= 0 && Readable(r)
    {
      LadderReadable(r, srcHeight);
    }
    forall r | r in rs
      ensures r.height < TWO64 && EvenWidth(r.height, srcWidth, srcHeight) < TWO64
    {
      EvenWidthWithinSource(r.height, srcWidth, srcHeight);
    }
    master := BuildMasterPlaylist(rs, srcWidth, srcHeight);
    MasterReadsBackIff(rs, srcWidth, srcHeight);
  }
}
