/**
 * Transcript normalisation for YouTube videos (src/podflix/utils/youtube.py):
 * the WebVTT cue parser, the snippet formatter of the transcript API and the
 * video-id extraction.  Times are seconds as exact reals.
 */
module YouTube {
  import opened Wrappers
  import opened Strings
  import opened Numbers

  /** One time-stamped span of transcript text. */
  datatype AudioSegment = AudioSegment(id: int, start: real, end: real, text: string)

  /** A transcript: the full text and its segments in order. */
  datatype Transcription = Transcription(text: string, segments: seq<AudioSegment>)

  /** A snippet as the transcript API returns it: text, start and duration. */
  datatype Snippet = Snippet(text: string, start: real, duration: real)

  /** The `ValueError` raised by `int()` or `float()`, with the literal it rejected. */
  datatype VttError = InvalidInt(literal: string) | InvalidFloat(literal: string)

  const Arrow := "-->"
  const Nbsp := "&nbsp;"

  /** The characters `lstrip("- ")` removes from the start of a cue text. */
  const DashSpace: set<char> := {'-', ' '}

  function Int(s: string): Result<int, VttError> {
    match ParseInt(s)
    case Some(v) => Success(v)
    case None => Failure(InvalidInt(s))
  }

  function Float(s: string): Result<real, VttError> {
    match ParseFloat(s)
    case Some(v) => Success(v)
    case None => Failure(InvalidFloat(s))
  }

  /** The number of seconds in `hours:minutes:seconds`. */
  function Clock(hours: int, minutes: int, seconds: real): real {
    hours as real * 3600.0 + minutes as real * 60.0 + seconds
  }

  /** `_vtt_time_to_seconds`: `HH:MM:SS.mmm`, `MM:SS.mmm`, or anything else read by `float()`. */
  function TimeToSeconds(vttTime: string): Result<real, VttError> {
    var parts := Split(vttTime, ":");
    if |parts| == 3 then
      var hours :- Int(parts[0]);
      var minutes :- Int(parts[1]);
      var seconds :- Float(parts[2]);
      Success(Clock(hours, minutes, seconds))
    else if |parts| == 2 then
      var minutes :- Int(parts[0]);
      var seconds :- Float(parts[1]);
      Success(Clock(0, minutes, seconds))
    else
      Float(vttTime)
  }

  lemma NoColonInDecimal(ss: string, fff: string)
    requires AllDigits(ss) && AllDigits(fff)
    ensures ':' !in ss + "." + fff
  {
    var s := ss + "." + fff;
    forall k | 0 <= k < |s| ensures s[k] != ':' {
      if k < |ss| { assert s[k] == ss[k]; }
      else if k > |ss| { assert s[k] == fff[k - |ss| - 1]; }
    }
  }

  /** Splitting `a:b:c` on the colon, when none of the three holds one. */
  lemma SplitColons3(a: string, b: string, c: string)
    requires ':' !in a && ':' !in b && ':' !in c
    ensures Split(a + ":" + b + ":" + c, ":") == [a, b, c]
  {
    JoinCons(b, [c], ":");
    assert [b, c] == [a, b, c][1..];
    JoinCons(a, [b, c], ":");
    assert Join([a, b, c], ":") == a + ":" + b + ":" + c;
    SplitJoin([a, b, c], ':');
  }

  /** Splitting `a:b` on the colon, when neither holds one. */
  lemma SplitColons2(a: string, b: string)
    requires ':' !in a && ':' !in b
    ensures Split(a + ":" + b, ":") == [a, b]
  {
    JoinCons(a, [b], ":");
    SplitJoin([a, b], ':');
  }

  lemma NoColonInDigits(ds: string)
    requires AllDigits(ds)
    ensures ':' !in ds
  {
  }

  lemma TimeOfThreeParts(t: string, a: string, b: string, c: string, h: int, m: int, x: real)
    requires Split(t, ":") == [a, b, c]
    requires ParseInt(a) == Some(h) && ParseInt(b) == Some(m) && ParseFloat(c) == Some(x)
    ensures TimeToSeconds(t) == Success(Clock(h, m, x))
  {
  }

  lemma TimeOfTwoParts(t: string, a: string, b: string, m: int, x: real)
    requires Split(t, ":") == [a, b]
    requires ParseInt(a) == Some(m) && ParseFloat(b) == Some(x)
    ensures TimeToSeconds(t) == Success(Clock(0, m, x))
  {
  }

  /** A timing with neither one nor two colons is read by `float()` as a whole. */
  lemma TimeOfOtherShape(t: string)
    requires |Split(t, ":")| != 2 && |Split(t, ":")| != 3
    ensures TimeToSeconds(t) == Float(t)
  {
  }

  /** A malformed `HH:MM:SS.mmm` timing raises the error of its first field that does not read. */
  lemma TimeErrorOfThreeParts(t: string)
    requires |Split(t, ":")| == 3
    ensures var p := Split(t, ":");
      (ParseInt(p[0]).None? ==> TimeToSeconds(t) == Failure(InvalidInt(p[0])))
      && (ParseInt(p[0]).Some? && ParseInt(p[1]).None? ==> TimeToSeconds(t) == Failure(InvalidInt(p[1])))
      && (ParseInt(p[0]).Some? && ParseInt(p[1]).Some? && ParseFloat(p[2]).None?
          ==> TimeToSeconds(t) == Failure(InvalidFloat(p[2])))
  {
  }

  /** A malformed `MM:SS.mmm` timing raises the error of its first field that does not read. */
  lemma TimeErrorOfTwoParts(t: string)
    requires |Split(t, ":")| == 2
    ensures var p := Split(t, ":");
      (ParseInt(p[0]).None? ==> TimeToSeconds(t) == Failure(InvalidInt(p[0])))
      && (ParseInt(p[0]).Some? && ParseFloat(p[1]).None? ==> TimeToSeconds(t) == Failure(InvalidFloat(p[1])))
  {
  }

  /**
   * The long cue-timing form of WebVTT (section 4 "cue timings" of the W3C WebVTT
   * format), `hh:mm:ss.ttt`, denotes hh*3600 + mm*60 + ss.ttt seconds.
   */
  lemma TimeToSecondsLongForm(hh: string, mm: string, ss: string, fff: string)
    requires |hh| > 0 && |mm| > 0 && |ss| + |fff| > 0
    requires AllDigits(hh) && AllDigits(mm) && AllDigits(ss) && AllDigits(fff)
    ensures TimeToSeconds(hh + ":" + mm + ":" + (ss + "." + fff))
         == Success(Clock(DigitsValue(hh), DigitsValue(mm), DecimalValue(ss, fff)))
  {
    NoColonInDecimal(ss, fff);
    NoColonInDigits(hh);
    NoColonInDigits(mm);
    var sec := ss + "." + fff;
    SplitColons3(hh, mm, sec);
    ParseIntDigits(hh);
    ParseIntDigits(mm);
    ParseFloatDecimal(ss, fff);
    TimeOfThreeParts(hh + ":" + mm + ":" + sec, hh, mm, sec, DigitsValue(hh), DigitsValue(mm), DecimalValue(ss, fff));
  }

  /** The short cue-timing form `mm:ss.ttt` denotes mm*60 + ss.ttt seconds. */
  lemma TimeToSecondsShortForm(mm: string, ss: string, fff: string)
    requires |mm| > 0 && |ss| + |fff| > 0
    requires AllDigits(mm) && AllDigits(ss) && AllDigits(fff)
    ensures TimeToSeconds(mm + ":" + (ss + "." + fff))
         == Success(Clock(0, DigitsValue(mm), DecimalValue(ss, fff)))
  {
    NoColonInDecimal(ss, fff);
    NoColonInDigits(mm);
    var sec := ss + "." + fff;
    SplitColons2(mm, sec);
    ParseIntDigits(mm);
    ParseFloatDecimal(ss, fff);
    TimeOfTwoParts(mm + ":" + sec, mm, sec, DigitsValue(mm), DecimalValue(ss, fff));
  }

  // ---------------------------------------------------------------------------
  // WebVTT cue parsing (`convert_vtt_to_segments`)

  /** The input lines: the content stripped, then split on newlines. */
  function Lines(content: string): seq<string> {
    Split(Strip(content), "\n")
  }

  /** A line whose `strip()` is empty: nothing but whitespace. */
  predicate IsBlank(line: string) { forall k :: 0 <= k < |line| ==> IsSpace(line[k]) }

  lemma IsBlankIff(line: string)
    ensures IsBlank(line) <==> Strip(line) == ""
  {
    StripEmptyIff(line);
  }

  /** A line holding a cue timing `start --> end`. */
  predicate IsCueTiming(line: string) { Contains(line, Arrow) }

  /** A leading line skipped before parsing: blank once the arrows are taken out. */
  predicate IsHeaderFiller(line: string) { Strip(Replace(Strip(line), Arrow, "")) == "" }

  /** A line that belongs to the text of the cue above it. */
  predicate IsBodyLine(line: string) { !IsBlank(line) && !IsCueTiming(line) }

  /** Index of the first line at or after `i` that is not header filler. */
  function HeaderEnd(lines: seq<string>, i: nat): (e: nat)
    requires i <= |lines|
    ensures i <= e <= |lines|
    decreases |lines| - i
  {
    if i < |lines| && IsHeaderFiller(lines[i]) then HeaderEnd(lines, i + 1) else i
  }

  /** Every line `HeaderEnd` passes over is header filler. */
  lemma {:induction false} HeaderEndSkipsFiller(lines: seq<string>, i: nat, k: nat)
    requires i <= |lines| && i <= k < HeaderEnd(lines, i)
    ensures IsHeaderFiller(lines[k])
    decreases k - i
  {
    if k > i {
      HeaderEndSkipsFiller(lines, i + 1, k);
    }
  }

  /** `HeaderEnd` stops at the end or at the first line that is not filler. */
  lemma {:induction false} HeaderEndStops(lines: seq<string>, i: nat)
    requires i <= |lines|
    ensures HeaderEnd(lines, i) < |lines| ==> !IsHeaderFiller(lines[HeaderEnd(lines, i)])
    decreases |lines| - i
  {
    if i < |lines| && IsHeaderFiller(lines[i]) {
      HeaderEndStops(lines, i + 1);
    }
  }

  /** Index of the first line at or after `j` that ends a cue body. */
  function BodyEnd(lines: seq<string>, j: nat): (e: nat)
    requires j <= |lines|
    ensures j <= e <= |lines|
    decreases |lines| - j
  {
    if j < |lines| && IsBodyLine(lines[j]) then BodyEnd(lines, j + 1) else j
  }

  /** Every line of a cue body is neither blank nor a cue timing. */
  lemma {:induction false} BodyEndSkipsText(lines: seq<string>, j: nat, k: nat)
    requires j <= |lines| && j <= k < BodyEnd(lines, j)
    ensures IsBodyLine(lines[k])
    decreases k - j
  {
    if k > j {
      BodyEndSkipsText(lines, j + 1, k);
    }
  }

  /** A cue body ends at the end of the input, at a blank line or at the next cue timing. */
  lemma {:induction false} BodyEndStops(lines: seq<string>, j: nat)
    requires j <= |lines|
    ensures BodyEnd(lines, j) < |lines| ==> !IsBodyLine(lines[BodyEnd(lines, j)])
    decreases |lines| - j
  {
    if j < |lines| && IsBodyLine(lines[j]) {
      BodyEndStops(lines, j + 1);
    }
  }

  /** A body line stripped, with every `&nbsp;` removed. */
  function CleanLine(line: string): string {
    Replace(Strip(line), Nbsp, "")
  }

  function CleanLines(body: seq<string>): seq<string> {
    Mapped(body, CleanLine)
  }

  /** `[f(x) for x in xs]`. */
  function Mapped<T, U>(xs: seq<T>, f: T -> U): (r: seq<U>)
    ensures |r| == |xs| && forall k :: 0 <= k < |xs| ==> r[k] == f(xs[k])
    decreases |xs|
  {
    if xs == [] then [] else Mapped(xs[..|xs| - 1], f) + [f(xs[|xs| - 1])]
  }

  /** The text of a cue: cleaned body lines joined by blanks, leading dashes and blanks removed. */
  function CueText(body: seq<string>): string {
    LStripSet(Join(CleanLines(body), " "), DashSpace)
  }

  /** A cue text never starts with a dash or a blank. */
  lemma CueTextStart(body: seq<string>)
    ensures CueText(body) != [] ==> CueText(body)[0] != '-' && CueText(body)[0] != ' '
  {
    LStripSetSpec(Join(CleanLines(body), " "), DashSpace);
  }

  lemma CueTimingSplits(line: string)
    requires IsCueTiming(line)
    ensures |Split(line, Arrow)| >= 2
  {
    SplitCount(line, Arrow);
  }

  /** The segment numbered `id` for the cue whose timing line is `lines[i]`. */
  function CueAt(lines: seq<string>, i: nat, id: int): (r: Result<AudioSegment, VttError>)
    requires i < |lines| && IsCueTiming(lines[i])
    ensures r.Success? ==> r.value.id == id
  {
    CueTimingSplits(lines[i]);
    var parts := Split(lines[i], Arrow);
    var start :- TimeToSeconds(Strip(parts[0]));
    var end :- TimeToSeconds(Strip(parts[1]));
    Success(AudioSegment(id, start, end, CueText(lines[i + 1..BodyEnd(lines, i + 1)])))
  }

  /**
   * A cue's start and end are the two pieces of its timing line around the first
   * arrow, stripped and converted; it fails exactly when one of them does not
   * convert, and its text is read from the lines up to the end of its body.
   */
  lemma CueAtFields(lines: seq<string>, i: nat, id: int)
    requires i < |lines| && IsCueTiming(lines[i])
    ensures |Split(lines[i], Arrow)| >= 2
    ensures var parts := Split(lines[i], Arrow);
      var start, end := TimeToSeconds(Strip(parts[0])), TimeToSeconds(Strip(parts[1]));
      (CueAt(lines, i, id).Success? <==> start.Success? && end.Success?) &&
      (CueAt(lines, i, id).Success? ==>
        CueAt(lines, i, id).value == AudioSegment(id, start.value, end.value, CueText(lines[i + 1..BodyEnd(lines, i + 1)])))
  {
    CueTimingSplits(lines[i]);
  }

  /** Puts `segs` in front of a successful result; keeps a failure. */
  function Prepend(segs: seq<AudioSegment>, r: Result<seq<AudioSegment>, VttError>): Result<seq<AudioSegment>, VttError> {
    match r
    case Success(rest) => Success(segs + rest)
    case Failure(e) => Failure(e)
  }

  /** The segments of the cues from line `i` on, numbered from `id`, as the parsing loop finds them. */
  function ParseCues(lines: seq<string>, i: nat, id: int): Result<seq<AudioSegment>, VttError>
    requires i <= |lines|
    decreases |lines| - i
  {
    if i == |lines| then Success([])
    else if IsBlank(lines[i]) then ParseCues(lines, i + 1, id)
    else if IsCueTiming(lines[i]) then
      match CueAt(lines, i, id)
      case Failure(e) => Failure(e)
      case Success(seg) => Prepend([seg], ParseCues(lines, BodyEnd(lines, i + 1), id + 1))
    else ParseCues(lines, i + 1, id)
  }

  /** The texts of the segments, each followed by one blank, concatenated. */
  function SpacedText(segs: seq<AudioSegment>): string {
    if segs == [] then "" else SpacedText(segs[..|segs| - 1]) + segs[|segs| - 1].text + " "
  }

  /** The transcription `convert_vtt_to_segments` returns, or the error it raises. */
  function ParseVtt(content: string): Result<Transcription, VttError> {
    var lines := Lines(content);
    ToTranscription(ParseCues(lines, HeaderEnd(lines, 0), 0))
  }

  // Reference reading: one segment per line that holds an arrow, in order.

  /** The indices, from `i` on, of the lines that hold a cue-timing arrow. */
  function ArrowLines(lines: seq<string>, i: nat): seq<nat>
    requires i <= |lines|
    decreases |lines| - i
  {
    if i == |lines| then []
    else if IsCueTiming(lines[i]) then [i] + ArrowLines(lines, i + 1)
    else ArrowLines(lines, i + 1)
  }

  /** `ArrowLines` lists exactly the arrow lines from `i` on. */
  lemma {:induction false} ArrowLinesMembers(lines: seq<string>, i: nat, k: nat)
    requires i <= |lines|
    ensures k in ArrowLines(lines, i) <==> i <= k < |lines| && IsCueTiming(lines[k])
    decreases |lines| - i
  {
    if i < |lines| {
      ArrowLinesMembers(lines, i + 1, k);
    }
  }

  /** `ArrowLines` lists them in strictly increasing order. */
  lemma {:induction false} ArrowLinesIncreasing(lines: seq<string>, i: nat)
    requires i <= |lines|
    ensures forall m, n :: 0 <= m < n < |ArrowLines(lines, i)| ==> ArrowLines(lines, i)[m] < ArrowLines(lines, i)[n]
    decreases |lines| - i
  {
    if i < |lines| {
      ArrowLinesIncreasing(lines, i + 1);
      var rest := ArrowLines(lines, i + 1);
      forall n | 0 <= n < |rest| ensures i < rest[n] {
        ArrowLinesMembers(lines, i + 1, rest[n]);
      }
    }
  }

  predicate AllCueTimings(lines: seq<string>, idxs: seq<nat>) {
    forall n :: 0 <= n < |idxs| ==> idxs[n] < |lines| && IsCueTiming(lines[idxs[n]])
  }

  lemma ArrowLinesAreCueTimings(lines: seq<string>, i: nat)
    requires i <= |lines|
    ensures AllCueTimings(lines, ArrowLines(lines, i))
  {
    var a := ArrowLines(lines, i);
    forall n | 0 <= n < |a| ensures a[n] < |lines| && IsCueTiming(lines[a[n]]) {
      ArrowLinesMembers(lines, i, a[n]);
    }
  }

  /** The cue of each given timing line, numbered from `id`. */
  function Cues(lines: seq<string>, idxs: seq<nat>, id: int): seq<Result<AudioSegment, VttError>>
    requires AllCueTimings(lines, idxs)
    decreases |idxs|
  {
    if idxs == [] then [] else [CueAt(lines, idxs[0], id)] + Cues(lines, idxs[1..], id + 1)
  }

  lemma {:induction false} CuesLength(lines: seq<string>, idxs: seq<nat>, id: int)
    requires AllCueTimings(lines, idxs)
    ensures |Cues(lines, idxs, id)| == |idxs|
    decreases |idxs|
  {
    if idxs != [] {
      CuesLength(lines, idxs[1..], id + 1);
    }
  }

  /** The n-th entry of `Cues` is the cue of the n-th timing line, numbered `k`, which is `id + n`. */
  lemma {:induction false} CueNth(lines: seq<string>, idxs: seq<nat>, id: int, n: nat, k: int)
    requires AllCueTimings(lines, idxs) && n < |idxs| && k == id + n
    ensures n < |Cues(lines, idxs, id)| && Cues(lines, idxs, id)[n] == CueAt(lines, idxs[n], k)
    decreases n
  {
    var rest := Cues(lines, idxs[1..], id + 1);
    assert Cues(lines, idxs, id) == [CueAt(lines, idxs[0], id)] + rest;
    CuesLength(lines, idxs[1..], id + 1);
    if n > 0 {
      CueNth(lines, idxs[1..], id + 1, n - 1, k);
      assert idxs[1..][n - 1] == idxs[n];
      assert Cues(lines, idxs, id)[n] == rest[n - 1];
    }
  }

  /** A blank line holds no arrow. */
  lemma BlankHasNoArrow(line: string)
    requires IsBlank(line)
    ensures !IsCueTiming(line)
  {
    if IsCueTiming(line) {
      OccursHead(line, Arrow, IndexOf(line, Arrow).value);
    }
  }

  /** The body of a cue holds no arrow line. */
  lemma {:induction false} NoArrowsInBody(lines: seq<string>, j: nat)
    requires j <= |lines|
    ensures ArrowLines(lines, j) == ArrowLines(lines, BodyEnd(lines, j))
    decreases |lines| - j
  {
    if j < |lines| && IsBodyLine(lines[j]) {
      NoArrowsInBody(lines, j + 1);
    }
  }

  /**
   * The parsing loop yields the cues of the arrow lines after line `i`, in order: every line
   * that holds `-->` starts a cue, because a cue body stops at the next such line.
   */
  lemma {:induction false} ParseCuesByArrows(lines: seq<string>, i: nat, id: int)
    requires i <= |lines|
    ensures AllCueTimings(lines, ArrowLines(lines, i))
    ensures ParseCues(lines, i, id) == AllSuccesses(Cues(lines, ArrowLines(lines, i), id))
    decreases |lines| - i
  {
    ArrowLinesAreCueTimings(lines, i);
    if i < |lines| {
      if IsBlank(lines[i]) {
        BlankHasNoArrow(lines[i]);
        ParseCuesByArrows(lines, i + 1, id);
      } else if IsCueTiming(lines[i]) {
        var e := BodyEnd(lines, i + 1);
        NoArrowsInBody(lines, i + 1);
        ParseCuesByArrows(lines, e, id + 1);
        assert ([i] + ArrowLines(lines, e))[1..] == ArrowLines(lines, e);
      } else {
        ParseCuesByArrows(lines, i + 1, id);
      }
    }
  }

  /** `convert_vtt_to_segments` returns one segment per arrow line after the header, and its text is the segment texts, each followed by a blank. */
  lemma ParseVttLength(content: string)
    requires ParseVtt(content).Success?
    ensures var lines := Lines(content);
      var t := ParseVtt(content).value;
      |t.segments| == |ArrowLines(lines, HeaderEnd(lines, 0))| && t.text == SpacedText(t.segments)
  {
    var lines := Lines(content);
    var h := HeaderEnd(lines, 0);
    ParseCuesByArrows(lines, h, 0);
    CuesLength(lines, ArrowLines(lines, h), 0);
    AllSuccessesValues(Cues(lines, ArrowLines(lines, h), 0));
  }

  /** The n-th segment is numbered n and is the cue read from the n-th arrow line after the header. */
  lemma ParseVttSegment(content: string, n: nat)
    requires ParseVtt(content).Success? && n < |ParseVtt(content).value.segments|
    ensures var lines := Lines(content);
      var arrows := ArrowLines(lines, HeaderEnd(lines, 0));
      var seg := ParseVtt(content).value.segments[n];
      AllCueTimings(lines, arrows) && n < |arrows| && seg.id == n && Success(seg) == CueAt(lines, arrows[n], n)
  {
    var lines := Lines(content);
    var h := HeaderEnd(lines, 0);
    var arrows := ArrowLines(lines, h);
    ParseCuesByArrows(lines, h, 0);
    ParseVttLength(content);
    CueNth(lines, arrows, 0, n, n);
    AllSuccessesValues(Cues(lines, arrows, 0));
  }

  /** `convert_vtt_to_segments` raises exactly when the timing of some arrow line after the header does not parse. */
  lemma ParseVttFails(content: string)
    ensures var lines := Lines(content);
      var arrows := ArrowLines(lines, HeaderEnd(lines, 0));
      AllCueTimings(lines, arrows) && |Cues(lines, arrows, 0)| == |arrows| &&
      (ParseVtt(content).Failure? <==> exists n :: 0 <= n < |arrows| && Cues(lines, arrows, 0)[n].Failure?)
  {
    var lines := Lines(content);
    var h := HeaderEnd(lines, 0);
    ParseCuesByArrows(lines, h, 0);
    CuesLength(lines, ArrowLines(lines, h), 0);
    AllSuccessesFails(Cues(lines, ArrowLines(lines, h), 0));
  }

  /** A line of the content that holds an arrow means the content holds one. */
  lemma LineOfContent(content: string, k: nat)
    requires k < |Lines(content)| && Contains(Lines(content)[k], Arrow)
    ensures Contains(content, Arrow)
  {
    var t := Strip(content);
    var a, b := SplitPieceSlice(t, "\n", k);
    ContainsInfix(t, a, b, Arrow);
    var c, d := StripSlice(content);
    ContainsInfix(content, c, d, Arrow);
  }

  /** Content without any arrow gives an empty transcription. */
  lemma NoArrowNoSegments(content: string)
    requires !Contains(content, Arrow)
    ensures ParseVtt(content) == Success(Transcription("", []))
  {
    var lines := Lines(content);
    var h := HeaderEnd(lines, 0);
    ParseCuesByArrows(lines, h, 0);
    if ArrowLines(lines, h) != [] {
      var k := ArrowLines(lines, h)[0];
      ArrowLinesMembers(lines, h, k);
      LineOfContent(content, k);
    }
  }

  lemma PrependNothing(r: Result<seq<AudioSegment>, VttError>)
    ensures Prepend([], r) == r
  {
    if r.Success? {
      assert [] + r.value == r.value;
    }
  }

  lemma PrependTwice(a: seq<AudioSegment>, b: seq<AudioSegment>, r: Result<seq<AudioSegment>, VttError>)
    ensures Prepend(a, Prepend(b, r)) == Prepend(a + b, r)
  {
    if r.Success? {
      assert a + (b + r.value) == (a + b) + r.value;
    }
  }

  /** The inner loop of `convert_vtt_to_segments`: collects the cleaned text lines of one cue. */
  method ReadCueBody(lines: seq<string>, start: nat) returns (textLines: seq<string>, next: nat)
    requires start <= |lines|
    ensures next == BodyEnd(lines, start)
    ensures textLines == CleanLines(lines[start..next])
  {
    var clean := CleanLine;
    textLines := [];
    next := start;
    while next < |lines| && IsBodyLine(lines[next])
      invariant start <= next <= |lines|
      invariant BodyEnd(lines, next) == BodyEnd(lines, start)
      invariant |textLines| == next - start
      invariant forall k :: 0 <= k < |textLines| ==> textLines[k] == clean(lines[start + k])
      decreases |lines| - next
    {
      BodyEndStep(lines, next);
      textLines := textLines + [clean(lines[next])];
      next := next + 1;
    }
  }

  /** A body line does not end the body. */
  lemma BodyEndStep(lines: seq<string>, j: nat)
    requires j < |lines| && IsBodyLine(lines[j])
    ensures BodyEnd(lines, j + 1) == BodyEnd(lines, j)
  {
  }

  /** One cue of `convert_vtt_to_segments`: its timing line at `i`, then its text lines. */
  method ReadCue(lines: seq<string>, i: nat, segmentId: int) returns (r: Result<AudioSegment, VttError>, next: nat)
    requires i < |lines| && IsCueTiming(lines[i])
    ensures r == CueAt(lines, i, segmentId)
    ensures r.Success? ==> next == BodyEnd(lines, i + 1)
  {
    CueTimingSplits(lines[i]);
    var timeParts := Split(lines[i], Arrow);
    var startTime := TimeToSeconds(Strip(timeParts[0]));
    if startTime.Failure? {
      return Failure(startTime.error), i;
    }
    var endTime := TimeToSeconds(Strip(timeParts[1]));
    if endTime.Failure? {
      return Failure(endTime.error), i;
    }
    var textLines;
    textLines, next := ReadCueBody(lines, i + 1);
    var text := Join(textLines, " ");
    text := LStripSet(text, DashSpace);
    r := Success(AudioSegment(segmentId, startTime.value, endTime.value, text));
  }

  /** The header-skipping loop of `convert_vtt_to_segments`. */
  method SkipHeader(lines: seq<string>) returns (i: nat)
    ensures i == HeaderEnd(lines, 0)
  {
    i := 0;
    while i < |lines| && IsHeaderFiller(lines[i])
      invariant i <= |lines|
      invariant HeaderEnd(lines, 0) == HeaderEnd(lines, i)
      decreases |lines| - i
    {
      i := i + 1;
    }
  }

  /** The transcription made of the segments of a successful parse. */
  function ToTranscription(r: Result<seq<AudioSegment>, VttError>): Result<Transcription, VttError> {
    match r
    case Success(segs) => Success(Transcription(SpacedText(segs), segs))
    case Failure(e) => Failure(e)
  }

  /** The main loop of `convert_vtt_to_segments`, from the first line after the header. */
  method ParseCueLines(lines: seq<string>, first: nat) returns (r: Result<Transcription, VttError>)
    requires first <= |lines|
    ensures r == ToTranscription(ParseCues(lines, first, 0))
  {
    PrependNothing(ParseCues(lines, first, 0));
    var i := first;
    var segments: seq<AudioSegment> := [];
    var text := "";
    var segmentId := 0;
    while i < |lines|
      invariant first <= i <= |lines|
      invariant segmentId == |segments|
      invariant text == SpacedText(segments)
      invariant ParseCues(lines, first, 0) == Prepend(segments, ParseCues(lines, i, segmentId))
      decreases |lines| - i
    {
      if IsBlank(lines[i]) {
        i := i + 1;
        continue;
      }
      if IsCueTiming(lines[i]) {
        var cue, next := ReadCue(lines, i, segmentId);
        if cue.Failure? {
          return Failure(cue.error);
        }
        var seg := cue.value;
        PrependTwice(segments, [seg], ParseCues(lines, next, segmentId + 1));
        text := text + seg.text + " ";
        assert (segments + [seg])[..|segments|] == segments;
        segments := segments + [seg];
        segmentId := segmentId + 1;
        i := next;
      } else {
        i := i + 1;
      }
    }
    assert segments + [] == segments;
    r := Success(Transcription(text, segments));
  }

  /** `convert_vtt_to_segments`: strip and split the content, skip the header, parse the cues. */
  method ConvertVttToSegments(vttContent: string) returns (r: Result<Transcription, VttError>)
    ensures r == ParseVtt(vttContent)
  {
    var lines := Split(Strip(vttContent), "\n");
    var i := SkipHeader(lines);
    r := ParseCueLines(lines, i);
  }

  // A worked transcript: one cue with one line of text.

  /** The requirements on a cue time, or on a text line, in a transcript of one-line cues. */
  predicate PlainPiece(x: string) {
    x != [] && !IsSpace(x[0]) && !IsSpace(x[|x| - 1]) && '-' !in x && '&' !in x && '\n' !in x
  }

  /** What the parsing reads from a timing line `a --> b`. */
  predicate TimingOf(t: string, a: string, b: string) {
    IsCueTiming(t) && Split(t, Arrow) == [a + " ", " " + b] && !IsHeaderFiller(t) &&
    t != [] && !IsSpace(t[0]) && !IsSpace(t[|t| - 1]) && '\n' !in t
  }

  /** A string without a dash holds no arrow. */
  lemma NoDashNoArrow(x: string)
    requires '-' !in x
    ensures !Contains(x, Arrow)
  {
    if Contains(x, Arrow) {
      OccursHead(x, Arrow, IndexOf(x, Arrow).value);
    }
  }

  /** A timing line `a --> b` whose times hold no dash splits into `a ` and ` b`. */
  lemma TimingLineSplit(a: string, b: string)
    requires '-' !in a && '-' !in b
    ensures IsCueTiming(a + " --> " + b)
    ensures Split(a + " --> " + b, Arrow) == [a + " ", " " + b]
  {
    var pre, rest := a + " ", " " + b;
    var s := a + " --> " + b;
    assert s == pre + Arrow + rest;
    IndexOfAfter(pre, Arrow, rest);
    SplitFound(s, Arrow, |pre|);
    assert s[..|pre|] == pre && s[|pre| + |Arrow|..] == rest;
    NoDashNoArrow(rest);
    SplitCount(rest, Arrow);
    assert Split(s, Arrow) == [pre] + [rest];
  }

  /** Stripping the pieces of a timing line gives back the two times. */
  lemma TimingPiecesStrip(a: string, b: string)
    requires a != [] && !IsSpace(a[0]) && !IsSpace(a[|a| - 1])
    requires b != [] && !IsSpace(b[0]) && !IsSpace(b[|b| - 1])
    ensures Strip(a + " ") == a && Strip(" " + b) == b
  {
    assert (a + " ")[..|a|] == a;
    assert RStripSpace(a + " ") == RStripSpace(a);
    StripUnchanged(a);
    assert (" " + b)[1..] == b;
    assert LStripSpace(" " + b) == LStripSpace(b);
    StripUnchanged(b);
  }

  /** A timing line `a --> b` of plain times is read as the times `a` and `b`. */
  lemma TimingLine(a: string, b: string)
    requires PlainPiece(a) && PlainPiece(b)
    ensures TimingOf(a + " --> " + b, a, b)
  {
    var s := a + " --> " + b;
    assert s[0] == a[0] && s[|s| - 1] == b[|b| - 1];
    assert '\n' !in " --> ";
    StripUnchanged(s);
    TimingLineSplit(a, b);
    var t := Replace(s, Arrow, "");
    JoinCons(a + " ", [" " + b], "");
    assert [a + " "] + [" " + b] == [a + " ", " " + b];
    assert t == (a + " ") + "" + (" " + b);
    assert t[0] == a[0] && t[|t| - 1] == b[|b| - 1];
    StripUnchanged(t);
  }

  /** A one-line cue body with no dash, `&` or surrounding whitespace is its own text. */
  lemma PlainCueText(w: string)
    requires w != [] && !IsSpace(w[0]) && !IsSpace(w[|w| - 1]) && '-' !in w && '&' !in w
    ensures CueText([w]) == w
  {
    StripUnchanged(w);
    if Contains(w, Nbsp) {
      OccursHead(w, Nbsp, IndexOf(w, Nbsp).value);
    }
    SplitCount(w, Nbsp);
    assert CleanLine(w) == w;
    assert CleanLines([w]) == [w];
  }

  /** A one-line cue body followed by a blank line or the end of the input. */
  lemma OneLineBody(lines: seq<string>, j: nat, w: string)
    requires j < |lines| && lines[j] == w && (j + 1 == |lines| || IsBlank(lines[j + 1]))
    requires PlainPiece(w)
    ensures BodyEnd(lines, j) == j + 1 && CueText(lines[j..j + 1]) == w
  {
    NoDashNoArrow(w);
    assert IsBodyLine(lines[j]);
    assert BodyEnd(lines, j) == BodyEnd(lines, j + 1);
    assert lines[j..j + 1] == [w];
    PlainCueText(w);
  }

  /** A line holding a cue timing whose cue reads as `seg` and whose body ends at line `e`. */
  predicate CueReads(lines: seq<string>, i: nat, id: int, seg: AudioSegment, e: nat)
    requires i < |lines|
  {
    !IsBlank(lines[i]) && IsCueTiming(lines[i]) && BodyEnd(lines, i + 1) == e && CueAt(lines, i, id) == Success(seg)
  }

  /**
   * The cue whose timing line reads `a --> b` and whose one text line `w` is
   * followed by a blank line or the end of the input is the segment of the two
   * times and that line.
   */
  lemma OneLineCue(lines: seq<string>, i: nat, id: int, a: string, b: string, w: string, x: real, y: real)
    requires i + 2 <= |lines| && TimingOf(lines[i], a, b) && lines[i + 1] == w
    requires i + 2 == |lines| || IsBlank(lines[i + 2])
    requires PlainPiece(a) && PlainPiece(b) && PlainPiece(w)
    requires TimeToSeconds(a) == Success(x) && TimeToSeconds(b) == Success(y)
    ensures CueReads(lines, i, id, AudioSegment(id, x, y, w), i + 2)
  {
    TimingPiecesStrip(a, b);
    OneLineBody(lines, i + 1, w);
    CueAtFields(lines, i, id);
  }

  /** The parsing loop puts the segment of a cue in front of what it reads after the cue's body. */
  lemma CueReadsStep(lines: seq<string>, i: nat, id: int, seg: AudioSegment, e: nat)
    requires i < |lines| && i + 1 <= e <= |lines| && CueReads(lines, i, id, seg, e)
    ensures ParseCues(lines, i, id) == Prepend([seg], ParseCues(lines, e, id + 1))
  {
  }

  /** The lines of a content made by joining lines that hold no newline are those lines. */
  lemma LinesOfJoin(lines: seq<string>)
    requires |lines| >= 1 && forall k :: 0 <= k < |lines| ==> '\n' !in lines[k]
    requires lines[0] != [] && !IsSpace(lines[0][0])
    requires lines[|lines| - 1] != [] && !IsSpace(lines[|lines| - 1][|lines[|lines| - 1]| - 1])
    ensures Lines(Join(lines, "\n")) == lines
  {
    SplitJoin(lines, '\n');
    JoinFirst(lines, "\n");
    JoinLast(lines, "\n");
    StripUnchanged(Join(lines, "\n"));
  }

  /** The lines of the content of one one-line cue. */
  lemma OneCueLines(t: string, w: string)
    requires t != [] && !IsSpace(t[0]) && '\n' !in t && PlainPiece(w)
    ensures Lines(Join([t, w], "\n")) == [t, w]
  {
    var lines := [t, w];
    assert forall k :: 0 <= k < 2 ==> '\n' !in lines[k];
    LinesOfJoin(lines);
  }

  /** The header and the parsing loop over one one-line cue. */
  lemma OneCueParse(lines: seq<string>, a: string, b: string, w: string, x: real, y: real)
    requires |lines| == 2 && TimingOf(lines[0], a, b) && lines[1] == w
    requires PlainPiece(a) && PlainPiece(b) && PlainPiece(w)
    requires TimeToSeconds(a) == Success(x) && TimeToSeconds(b) == Success(y)
    ensures HeaderEnd(lines, 0) == 0
    ensures ParseCues(lines, 0, 0) == Success([AudioSegment(0, x, y, w)])
  {
    OneLineCue(lines, 0, 0, a, b, w, x, y);
    CueReadsStep(lines, 0, 0, AudioSegment(0, x, y, w), 2);
    assert [AudioSegment(0, x, y, w)] + [] == [AudioSegment(0, x, y, w)];
  }

  /**
   * A transcript of one cue with one text line: one segment, numbered 0, with the
   * converted times and the text line as its text; the transcript text is that
   * line followed by a blank, which the conversion never strips.
   */
  lemma OneCueTranscript(a: string, b: string, w: string, x: real, y: real)
    requires PlainPiece(a) && PlainPiece(b) && PlainPiece(w)
    requires TimeToSeconds(a) == Success(x) && TimeToSeconds(b) == Success(y)
    ensures ParseVtt(Join([a + " --> " + b, w], "\n")) == Success(Transcription(w + " ", [AudioSegment(0, x, y, w)]))
  {
    var t := a + " --> " + b;
    var seg := AudioSegment(0, x, y, w);
    TimingLine(a, b);
    OneCueLines(t, w);
    OneCueParse([t, w], a, b, w, x, y);
    SpacedTextOne(seg);
    assert ParseVtt(Join([t, w], "\n")) == ToTranscription(Success([seg]));
  }

  /** The text of one segment. */
  lemma SpacedTextOne(seg: AudioSegment)
    ensures SpacedText([seg]) == seg.text + " "
  {
    assert [seg][..0] == [];
  }

  // ---------------------------------------------------------------------------
  // Snippet formatting (`TranscriptionFormatter.format_transcript`)

  /** The segment made of the snippet at position `k`: numbered `k`, from its start to start + duration, text stripped. */
  function SnippetSegment(k: int, snippet: Snippet): AudioSegment {
    AudioSegment(k, snippet.start, snippet.start + snippet.duration, Strip(snippet.text))
  }

  /** The segments of the snippets, one per snippet, as the formatting loop appends them. */
  function SnippetSegments(snippets: seq<Snippet>): seq<AudioSegment>
    decreases |snippets|
  {
    if snippets == [] then []
    else SnippetSegments(snippets[..|snippets| - 1]) + [SnippetSegment(|snippets| - 1, snippets[|snippets| - 1])]
  }

  /** The transcription `format_transcript` returns. */
  function FormattedTranscript(snippets: seq<Snippet>): Transcription {
    var segs := SnippetSegments(snippets);
    Transcription(Strip(SpacedText(segs)), segs)
  }

  /** The texts of the segments, in order. */
  function SegmentTexts(segs: seq<AudioSegment>): (r: seq<string>)
    ensures |r| == |segs|
    decreases |segs|
  {
    if segs == [] then [] else SegmentTexts(segs[..|segs| - 1]) + [segs[|segs| - 1].text]
  }

  /** There is one segment per snippet: the n-th is numbered n, ends at start + duration and holds the stripped text. */
  lemma {:induction false} SnippetSegmentsNth(snippets: seq<Snippet>, n: nat)
    requires n < |snippets|
    ensures |SnippetSegments(snippets)| == |snippets|
    ensures SnippetSegments(snippets)[n] == SnippetSegment(n, snippets[n])
    decreases |snippets|
  {
    var m := |snippets| - 1;
    var init := SnippetSegments(snippets[..m]);
    var last := SnippetSegment(m, snippets[m]);
    assert SnippetSegments(snippets) == init + [last];
    if m > 0 {
      SnippetSegmentsNth(snippets[..m], if n < m then n else 0);
    }
    if n < m {
      assert snippets[..m][n] == snippets[n];
      assert (init + [last])[n] == init[n];
    }
  }

  /** Each text followed by one blank, concatenated, is the texts joined by blanks plus one trailing blank. */
  lemma {:induction false} SpacedTextJoin(segs: seq<AudioSegment>)
    requires segs != []
    ensures SpacedText(segs) == Join(SegmentTexts(segs), " ") + " "
    decreases |segs|
  {
    var init := segs[..|segs| - 1];
    var last := segs[|segs| - 1];
    if init != [] {
      SpacedTextJoin(init);
      JoinSnoc(SegmentTexts(init), last.text, " ");
    }
  }

  /** The full text of a formatted transcript is the segment texts joined by blanks, stripped. */
  lemma FormattedTextIsJoin(snippets: seq<Snippet>)
    ensures var t := FormattedTranscript(snippets);
      t.text == Strip(Join(SegmentTexts(t.segments), " "))
  {
    var segs := SnippetSegments(snippets);
    if segs != [] {
      SpacedTextJoin(segs);
      StripTrailingBlank(Join(SegmentTexts(segs), " "));
    }
  }

  /** `format_transcript`: one segment per snippet, the full text grown by each stripped text and a blank. */
  method FormatTranscript(snippets: seq<Snippet>) returns (r: Transcription)
    ensures r == FormattedTranscript(snippets)
  {
    var segments: seq<AudioSegment> := [];
    var fullText := "";
    var i := 0;
    while i < |snippets|
      invariant i <= |snippets|
      invariant segments == SnippetSegments(snippets[..i])
      invariant fullText == SpacedText(segments)
      decreases |snippets| - i
    {
      var snippet := snippets[i];
      var startTime := snippet.start;
      var endTime := snippet.start + snippet.duration;
      var text := Strip(snippet.text);
      SnippetSegmentsStep(snippets, i);
      SpacedTextStep(segments, AudioSegment(i, startTime, endTime, text));
      segments := segments + [AudioSegment(i, startTime, endTime, text)];
      fullText := fullText + text + " ";
      i := i + 1;
    }
    assert snippets[..i] == snippets;
    r := Transcription(Strip(fullText), segments);
  }

  lemma SnippetSegmentsStep(snippets: seq<Snippet>, i: nat)
    requires i < |snippets|
    ensures SnippetSegments(snippets[..i + 1]) == SnippetSegments(snippets[..i]) + [SnippetSegment(i, snippets[i])]
  {
    assert snippets[..i + 1][..i] == snippets[..i];
  }

  lemma SpacedTextStep(segs: seq<AudioSegment>, s: AudioSegment)
    ensures SpacedText(segs + [s]) == SpacedText(segs) + s.text + " "
  {
    assert (segs + [s])[..|segs|] == segs;
  }

  /** `format_transcripts`: each transcript formatted on its own, in order. */
  method FormatTranscripts(transcripts: seq<seq<Snippet>>) returns (r: seq<Transcription>)
    ensures |r| == |transcripts|
    ensures forall k :: 0 <= k < |r| ==> r[k] == FormattedTranscript(transcripts[k])
  {
    r := [];
    var i := 0;
    while i < |transcripts|
      invariant i <= |transcripts| && |r| == i
      invariant forall k :: 0 <= k < i ==> r[k] == FormattedTranscript(transcripts[k])
      decreases |transcripts| - i
    {
      var t := FormatTranscript(transcripts[i]);
      r := r + [t];
      i := i + 1;
    }
  }

  // ---------------------------------------------------------------------------
  // Video-id extraction (`fetch_youtube_transcription`)

  /** The characters of the class `[a-zA-Z0-9_-]`. */
  predicate IsIdChar(c: char) {
    IsAsciiUpper(c) || IsAsciiLower(c) || IsDigit(c) || c == '_' || c == '-'
  }

  const IdLength := 11

  /** Eleven id characters start at `j`. */
  predicate IdRun(s: string, j: nat) {
    j + IdLength <= |s| && forall k :: j <= k < j + IdLength ==> IsIdChar(s[k])
  }

  /**
   * Where the group of `(?:v=|/)([a-zA-Z0-9_-]{11})` starts when the pattern
   * matches at position `p`: after `v=` or after `/`.
   */
  function MatchAt(s: string, p: nat): (g: Option<nat>)
    ensures g.Some? ==> IdRun(s, g.value)
  {
    if p + 2 <= |s| && s[p] == 'v' && s[p + 1] == '=' && IdRun(s, p + 2) then Some(p + 2)
    else if p < |s| && s[p] == '/' && IdRun(s, p + 1) then Some(p + 1)
    else None
  }

  /** `re.search`: the leftmost position at or after `p` where the pattern matches. */
  function SearchFrom(s: string, p: nat): (r: Option<nat>)
    ensures r.Some? ==> p <= r.value && MatchAt(s, r.value).Some?
    decreases |s| - p
  {
    if p >= |s| then None
    else if MatchAt(s, p).Some? then Some(p)
    else SearchFrom(s, p + 1)
  }

  /** The video id: the eleven characters of the first match, or the whole input when nothing matches. */
  function VideoIdOf(urlOrId: string): string {
    match SearchFrom(urlOrId, 0)
    case Some(p) =>
      var g := MatchAt(urlOrId, p).value;
      urlOrId[g..g + IdLength]
    case None => urlOrId
  }

  /** A match at `q` means the search from any `p <= q` succeeds, at `q` or before. */
  lemma {:induction false} SearchFromLeftmost(s: string, p: nat, q: nat)
    requires p <= q && MatchAt(s, q).Some?
    ensures SearchFrom(s, p).Some? && SearchFrom(s, p).value <= q
    decreases q - p
  {
    if p < q && MatchAt(s, p).None? {
      SearchFromLeftmost(s, p + 1, q);
    }
  }

  /** Nothing matches between `p` and the position the search returns. */
  lemma {:induction false} SearchFromFirst(s: string, p: nat, q: nat)
    requires SearchFrom(s, p).Some? && p <= q < SearchFrom(s, p).value
    ensures MatchAt(s, q).None?
    decreases q - p
  {
    if p < q {
      SearchFromFirst(s, p + 1, q);
    }
  }

  /** A found id is eleven id characters right after `v=` or `/`, at the leftmost such place. */
  lemma VideoIdFound(urlOrId: string)
    requires SearchFrom(urlOrId, 0).Some?
    ensures var p := SearchFrom(urlOrId, 0).value;
      var id := VideoIdOf(urlOrId);
      |id| == IdLength && (forall k :: 0 <= k < |id| ==> IsIdChar(id[k])) &&
      ((urlOrId[p..p + 2] == "v=" && id == urlOrId[p + 2..p + 2 + IdLength]) ||
       (urlOrId[p] == '/' && id == urlOrId[p + 1..p + 1 + IdLength])) &&
      forall q :: 0 <= q < p ==> MatchAt(urlOrId, q).None?
  {
    var p := SearchFrom(urlOrId, 0).value;
    forall q | 0 <= q < p ensures MatchAt(urlOrId, q).None? {
      SearchFromFirst(urlOrId, 0, q);
    }
  }

  /** The search succeeds exactly when the pattern matches somewhere; otherwise the input is returned unchanged. */
  lemma VideoIdMatchIff(urlOrId: string)
    ensures SearchFrom(urlOrId, 0).Some? <==> exists q :: 0 <= q < |urlOrId| && MatchAt(urlOrId, q).Some?
    ensures SearchFrom(urlOrId, 0).None? ==> VideoIdOf(urlOrId) == urlOrId
  {
    if SearchFrom(urlOrId, 0).None? {
      forall q | 0 <= q < |urlOrId| ensures MatchAt(urlOrId, q).None? {
        if MatchAt(urlOrId, q).Some? {
          SearchFromLeftmost(urlOrId, 0, q);
        }
      }
    }
  }

  /** A string of id characters only, such as a bare video id, holds no `v=` or `/` and comes back unchanged. */
  lemma BareIdUnchanged(urlOrId: string)
    requires forall k :: 0 <= k < |urlOrId| ==> IsIdChar(urlOrId[k])
    ensures VideoIdOf(urlOrId) == urlOrId
  {
    forall q | 0 <= q < |urlOrId| ensures MatchAt(urlOrId, q).None? {
      assert !IsIdChar('/') && !IsIdChar('=');
    }
    VideoIdMatchIff(urlOrId);
  }

  /** `fetch_youtube_transcription`: extract the id, fetch its snippets with `fetch`, format them. */
  method FetchYoutubeTranscription(videoUrlOrId: string, fetch: string -> seq<Snippet>) returns (r: Transcription)
    ensures r == FormattedTranscript(fetch(VideoIdOf(videoUrlOrId)))
  {
    var m := SearchFrom(videoUrlOrId, 0);
    var videoId := videoUrlOrId;
    if m.Some? {
      var g := MatchAt(videoUrlOrId, m.value).value;
      videoId := videoUrlOrId[g..g + IdLength];
    }
    var transcript := fetch(videoId);
    r := FormatTranscript(transcript);
  }
}
