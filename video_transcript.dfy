/**
 * The pure helpers of the `VideoWithTranscript` element
 * (configs/chainlit/public/elements/VideoWithTranscript.jsx): the `m:ss`
 * timestamp, the text of the transcript download and its file name, and the
 * video id taken from the video URL.  Numbers are exact reals.
 */
module VideoTranscript {
  import opened Wrappers
  import opened Strings
  import YouTube

  // ---------------------------------------------------------------------------
  // formatTimestamp

  /** `Math.floor` on an exact number. */
  function JsFloor(x: real): int {
    x.Floor
  }

  /** JavaScript's `x % y`: the remainder of division truncated toward zero. */
  function JsRemainder(x: real, y: real): real
    requires y != 0.0
  {
    var q := x / y;
    var t := if q >= 0.0 then q.Floor else -((-q).Floor);
    x - y * (t as real)
  }

  /** The minutes of `formatTimestamp`. */
  function TimestampMinutes(seconds: real): int {
    JsFloor(seconds / 60.0)
  }

  /** The seconds of `formatTimestamp`, before padding. */
  function TimestampSeconds(seconds: real): int {
    JsFloor(JsRemainder(seconds, 60.0))
  }

  /** `formatTimestamp`: minutes, a colon, and the seconds padded to two digits. */
  function FormatTimestamp(seconds: real): string {
    IntToString(TimestampMinutes(seconds)) + ":" + PadStart(IntToString(TimestampSeconds(seconds)), 2, '0')
  }

  /** Shifting by a whole number shifts the floor by that number. */
  lemma FloorShift(x: real, n: int)
    ensures (x - n as real).Floor == x.Floor - n
  {
  }

  /**
   * For a time that is not negative the seconds lie in 0..59 and together with the
   * minutes give the whole seconds elapsed.
   */
  lemma TimestampFields(seconds: real)
    requires seconds >= 0.0
    ensures 0 <= TimestampMinutes(seconds) && 0 <= TimestampSeconds(seconds) <= 59
    ensures TimestampMinutes(seconds) * 60 + TimestampSeconds(seconds) == seconds.Floor
  {
    var m := TimestampMinutes(seconds);
    assert m as real <= seconds / 60.0 < m as real + 1.0;
    assert 60.0 * (m as real) <= seconds < 60.0 * (m as real) + 60.0;
    var r := JsRemainder(seconds, 60.0);
    assert r == seconds - 60.0 * (m as real);
    FloorShift(seconds, 60 * m);
    assert (seconds - (60 * m) as real) == r;
  }

  /** The seconds as two digits. */
  lemma TwoDigits(n: nat)
    requires n <= 59
    ensures var p := PadStart(NatToString(n), 2, '0');
      |p| == 2 && AllDigits(p) && DigitsValue(p) == n
  {
    var d := NatToString(n);
    if n < 10 {
      assert |d| == 1;
      LeadingZeros(1, d);
    } else {
      assert |d| >= 2;
      var q := NatToString(n / 10);
      assert |q| == 1;
    }
  }

  /**
   * For a time that is not negative, the timestamp reads back: the digits before
   * the colon are the minutes, the two digits after it the seconds.
   */
  lemma FormatTimestampReadsBack(seconds: real)
    requires seconds >= 0.0
    ensures var t := FormatTimestamp(seconds);
      var m := IntToString(TimestampMinutes(seconds));
      t == m + ":" + t[|m| + 1..] && AllDigits(m) && DigitsValue(m) * 60 + DigitsValue(t[|m| + 1..]) == seconds.Floor
      && |t[|m| + 1..]| == 2 && AllDigits(t[|m| + 1..]) && DigitsValue(t[|m| + 1..]) <= 59
  {
    TimestampFields(seconds);
    var secs := TimestampSeconds(seconds);
    TwoDigits(secs);
    var t := FormatTimestamp(seconds);
    var m := IntToString(TimestampMinutes(seconds));
    var p := PadStart(NatToString(secs), 2, '0');
    assert t == m + ":" + p;
    assert t[|m| + 1..] == p;
  }

  // ---------------------------------------------------------------------------
  // handleDownload

  /** One line of the download: `[m:ss] text`. */
  function DownloadLine(segment: YouTube.AudioSegment): string {
    "[" + FormatTimestamp(segment.start) + "] " + segment.text
  }

  function DownloadLines(segments: seq<YouTube.AudioSegment>): (r: seq<string>)
    ensures |r| == |segments| && forall k :: 0 <= k < |segments| ==> r[k] == DownloadLine(segments[k])
  {
    if segments == [] then [] else [DownloadLine(segments[0])] + DownloadLines(segments[1..])
  }

  /** The downloaded text: the segment lines joined by newlines. */
  function DownloadContent(segments: seq<YouTube.AudioSegment>): string {
    Join(DownloadLines(segments), "\n")
  }

  /** A decimal spelling holds only digits and a minus sign. */
  lemma IntToStringChars(i: int)
    ensures forall k :: 0 <= k < |IntToString(i)| ==> IsDigit(IntToString(i)[k]) || IntToString(i)[k] == '-'
  {
  }

  lemma NoNewlineInTimestamp(seconds: real)
    ensures '\n' !in FormatTimestamp(seconds)
  {
    var ms := IntToString(TimestampMinutes(seconds));
    var ss := IntToString(TimestampSeconds(seconds));
    IntToStringChars(TimestampMinutes(seconds));
    IntToStringChars(TimestampSeconds(seconds));
    var p := PadStart(ss, 2, '0');
    assert '\n' !in ms;
    assert '\n' !in p;
    assert FormatTimestamp(seconds) == ms + ":" + p;
  }

  /**
   * When no segment text holds a newline, the download has exactly one line per
   * segment, in segment order, and no trailing newline.
   */
  lemma DownloadContentLines(segments: seq<YouTube.AudioSegment>)
    requires |segments| >= 1
    requires forall k :: 0 <= k < |segments| ==> '\n' !in segments[k].text
    ensures Split(DownloadContent(segments), "\n") == DownloadLines(segments)
    ensures |Split(DownloadContent(segments), "\n")| == |segments|
  {
    var lines := DownloadLines(segments);
    forall k | 0 <= k < |lines|
      ensures '\n' !in lines[k]
    {
      NoNewlineInLine(segments[k]);
    }
    SplitJoin(lines, '\n');
  }

  /** A line of the download holds a newline only if its text does. */
  lemma NoNewlineInLine(segment: YouTube.AudioSegment)
    requires '\n' !in segment.text
    ensures '\n' !in DownloadLine(segment)
  {
    NoNewlineInTimestamp(segment.start);
    NoCharInPieces(FormatTimestamp(segment.start), segment.text, '\n');
  }

  /** A character that is in neither piece nor the brackets is not in the line. */
  lemma NoCharInPieces(t: string, text: string, c: char)
    requires c !in t && c !in text && c != '[' && c != ']' && c != ' '
    ensures c !in "[" + t + "] " + text
  {
  }

  /** The download ends with the last segment's line, not with a newline. */
  lemma DownloadContentEnds(segments: seq<YouTube.AudioSegment>)
    requires |segments| >= 1
    ensures var lines := DownloadLines(segments);
      |lines| == 1 ==> DownloadContent(segments) == lines[0]
    ensures var lines := DownloadLines(segments);
      |lines| > 1 ==> DownloadContent(segments) == Join(lines[..|lines| - 1], "\n") + "\n" + lines[|lines| - 1]
  {
    var lines := DownloadLines(segments);
    LinesEndWith(lines, "\n");
  }

  /** A join of one or more pieces ends with the last piece. */
  lemma LinesEndWith(lines: seq<string>, sep: string)
    requires |lines| >= 1
    ensures |lines| == 1 ==> Join(lines, sep) == lines[0]
    ensures |lines| > 1 ==> Join(lines, sep) == Join(lines[..|lines| - 1], sep) + sep + lines[|lines| - 1]
  {
    if |lines| > 1 {
      JoinSnoc(lines[..|lines| - 1], lines[|lines| - 1], sep);
      assert lines[..|lines| - 1] + [lines[|lines| - 1]] == lines;
    }
  }

  /** The length of the run of characters other than `.` and `/` that ends `s`. */
  function TrailingRun(s: string): (n: nat)
    ensures n <= |s|
    ensures forall k :: |s| - n <= k < |s| ==> s[k] != '.' && s[k] != '/'
    ensures n < |s| ==> s[|s| - n - 1] == '.' || s[|s| - n - 1] == '/'
    decreases |s|
  {
    if s == [] || s[|s| - 1] == '.' || s[|s| - 1] == '/' then 0
    else TrailingRun(s[..|s| - 1]) + 1
  }

  /** Where the regular expression `/\.[^/.]+$/` matches, if it does. */
  function ExtensionStart(name: string): Option<nat> {
    var n := TrailingRun(name);
    if n >= 1 && n < |name| && name[|name| - n - 1] == '.' then Some(|name| - n - 1) else None
  }

  /** The regular expression matches at `p`: a `.` and then one or more characters other than `.` and `/` up to the end. */
  predicate ExtensionAt(name: string, p: nat) {
    p + 1 < |name| && name[p] == '.' && forall k :: p < k < |name| ==> name[k] != '.' && name[k] != '/'
  }

  /** `ExtensionStart` finds exactly the places the regular expression can match. */
  lemma ExtensionStartIff(name: string, p: nat)
    ensures ExtensionStart(name) == Some(p) <==> ExtensionAt(name, p)
    ensures ExtensionStart(name).None? <==> forall q :: 0 <= q < |name| ==> !ExtensionAt(name, q)
  {
    if ExtensionStart(name).Some? {
      assert ExtensionAt(name, ExtensionStart(name).value);
    }
  }

  /** `props.name.replace(/\.[^/.]+$/, '')`. */
  function BaseFileName(name: string): string {
    match ExtensionStart(name)
    case Some(p) => name[..p]
    case None => name
  }

  /** `a.download`: the name without its final extension, then `.txt`. */
  function DownloadName(name: string): (r: string)
    ensures |r| >= 4 && r[|r| - 4..] == ".txt"
    ensures r[..|r| - 4] == BaseFileName(name)
  {
    BaseFileName(name) + ".txt"
  }

  /**
   * The base name is the name itself when the regular expression does not match,
   * and otherwise the name up to the match, which is its final extension.
   */
  lemma BaseFileNameRemovesExtension(name: string)
    ensures (forall q :: 0 <= q < |name| ==> !ExtensionAt(name, q)) ==> BaseFileName(name) == name
    ensures forall p: nat :: ExtensionAt(name, p) ==> BaseFileName(name) == name[..p]
  {
    forall p: nat | ExtensionAt(name, p)
      ensures BaseFileName(name) == name[..p]
    {
      ExtensionStartIff(name, p);
    }
    ExtensionStartIff(name, 0);
  }

  /** Only the last extension goes. */
  lemma DownloadNameKeepsInnerDots()
    ensures DownloadName("a.b.mp3") == "a.b.txt"
  {
    assert ExtensionAt("a.b.mp3", 3);
    BaseFileNameRemovesExtension("a.b.mp3");
    assert "a.b.mp3"[..3] == "a.b";
  }

  /** A name without an extension is kept whole. */
  lemma DownloadNameWithoutExtension()
    ensures DownloadName("a") == "a.txt"
  {
    BaseFileNameRemovesExtension("a");
  }

  // ---------------------------------------------------------------------------
  // The video id

  /** `url.split(marker)[1]`: `None` when the marker does not occur. */
  function SecondPiece(url: string, marker: string): Option<string>
    requires |marker| > 0
  {
    var pieces := Split(url, marker);
    if |pieces| >= 2 then Some(pieces[1]) else None
  }

  /**
   * The second piece exists exactly when the marker occurs, and is the text
   * between its first and second occurrence, or to the end when there is no second.
   */
  lemma SecondPieceBetween(url: string, marker: string)
    requires |marker| > 0
    ensures SecondPiece(url, marker).Some? <==> Contains(url, marker)
    ensures Contains(url, marker) ==>
      var rest := url[IndexOf(url, marker).value + |marker|..];
      SecondPiece(url, marker) == Some(match IndexOf(rest, marker) case Some(j) => rest[..j] case None => rest)
  {
    SplitCount(url, marker);
    if Contains(url, marker) {
      var k := IndexOf(url, marker).value;
      var rest := url[k + |marker|..];
      SplitFound(url, marker, k);
      if IndexOf(rest, marker).Some? {
        SplitFound(rest, marker, IndexOf(rest, marker).value);
      }
    }
  }

  /** JavaScript truthiness of a string that may be `null` or `undefined`. */
  predicate Truthy(v: Option<string>) {
    v.Some? && v.value != ""
  }

  /** `a || b`. */
  function JsOr(a: Option<string>, b: Option<string>): Option<string> {
    if Truthy(a) then a else b
  }

  /**
   * The id of the `useEffect`: the `v` query parameter (looked up by the URL
   * parser, given here as `vParam`), or else the text after `youtu.be/`, `v/` or
   * `embed/`, the first that is not empty.
   */
  function VideoId(url: string, vParam: Option<string>): Option<string> {
    JsOr(vParam, JsOr(SecondPiece(url, "youtu.be/"), JsOr(SecondPiece(url, "v/"), SecondPiece(url, "embed/"))))
  }

  /** The candidates in the order they are tried. */
  function VideoIdCandidates(url: string, vParam: Option<string>): seq<Option<string>> {
    [vParam, SecondPiece(url, "youtu.be/"), SecondPiece(url, "v/"), SecondPiece(url, "embed/")]
  }

  /**
   * The id is the first non-empty candidate; when none is, it is the last
   * candidate as it stands (empty or undefined).
   */
  lemma VideoIdFirstTruthy(url: string, vParam: Option<string>)
    ensures var cs := VideoIdCandidates(url, vParam);
      (exists k :: 0 <= k < 4 && Truthy(cs[k])) ==>
        exists k :: 0 <= k < 4 && Truthy(cs[k]) && VideoId(url, vParam) == cs[k] && forall j :: 0 <= j < k ==> !Truthy(cs[j])
    ensures var cs := VideoIdCandidates(url, vParam);
      (forall k :: 0 <= k < 4 ==> !Truthy(cs[k])) ==> VideoId(url, vParam) == cs[3] && !Truthy(VideoId(url, vParam))
  {
    var cs := VideoIdCandidates(url, vParam);
    if Truthy(cs[0]) {
      assert VideoId(url, vParam) == cs[0];
    } else if Truthy(cs[1]) {
      assert VideoId(url, vParam) == cs[1];
    } else if Truthy(cs[2]) {
      assert VideoId(url, vParam) == cs[2];
    } else {
      assert VideoId(url, vParam) == cs[3];
    }
  }

  /** A string without some character of `sub` does not contain `sub`. */
  lemma MissingCharNotContained(x: string, sub: string, i: nat)
    requires i < |sub| && sub[i] !in x
    ensures !Contains(x, sub)
  {
  }

  /** The piece after a marker that occurs only once is the rest of the URL. */
  lemma SecondPieceAfter(pre: string, marker: string, id: string)
    requires |marker| > 0 && marker[0] !in pre && !Contains(id, marker)
    ensures SecondPiece(pre + marker + id, marker) == Some(id)
  {
    var url := pre + marker + id;
    IndexOfAfter(pre, marker, id);
    assert url[|pre| + |marker|..] == id;
    SplitFound(url, marker, |pre|);
    SplitCount(id, marker);
  }

  /** A short link's id is the text after `youtu.be/` when there is no `v` parameter. */
  lemma ShortLinkId(id: string)
    requires id != "" && '/' !in id
    ensures VideoId("https://youtu.be/" + id, None) == Some(id)
  {
    MissingCharNotContained(id, "youtu.be/", 8);
    SecondPieceAfter("https://", "youtu.be/", id);
    assert "https://" + "youtu.be/" + id == "https://youtu.be/" + id;
  }
}
