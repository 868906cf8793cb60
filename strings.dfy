/**
 * Python and JavaScript string operations the program relies on: `strip`,
 * `lstrip`/`rstrip` with a character set, `split`/`join`, `replace`, `in`,
 * `title`, decimal digits and `padStart`.  Strings are sequences of characters.
 */
module Strings {
  import opened Wrappers

  /** Python's `str.isspace()`; `str.strip()` without arguments removes these characters. */
  predicate IsSpace(c: char) {
    c == ' ' || '\t' <= c <= '\r' || '\U{1C}' <= c <= '\U{1F}' || c == '\U{85}' || c == '\U{A0}'
    || c == '\U{1680}' || '\U{2000}' <= c <= '\U{200A}' || c == '\U{2028}' || c == '\U{2029}'
    || c == '\U{202F}' || c == '\U{205F}' || c == '\U{3000}'
  }

  /** `s.lstrip(chars)` for a set of characters `cs`. */
  function LStripSet(s: string, cs: set<char>): string
    decreases |s|
  {
    if s != [] && s[0] in cs then LStripSet(s[1..], cs) else s
  }

  /** `lstrip` removes a prefix of characters of `cs` and stops at the first character outside it. */
  lemma {:induction false} LStripSetSpec(s: string, cs: set<char>)
    ensures var r := LStripSet(s, cs);
      |r| <= |s| && r == s[|s| - |r|..] && (forall k :: 0 <= k < |s| - |r| ==> s[k] in cs) && (r != [] ==> r[0] !in cs)
    decreases |s|
  {
    if s != [] && s[0] in cs {
      LStripSetSpec(s[1..], cs);
    }
  }

  /** `s.rstrip(chars)` for a set of characters `cs`. */
  function RStripSet(s: string, cs: set<char>): string
    decreases |s|
  {
    if s != [] && s[|s| - 1] in cs then RStripSet(s[..|s| - 1], cs) else s
  }

  /** `rstrip` removes a suffix of characters of `cs` and stops at the last character outside it. */
  lemma {:induction false} RStripSetSpec(s: string, cs: set<char>)
    ensures var r := RStripSet(s, cs);
      |r| <= |s| && r == s[..|r|] && (forall k :: |r| <= k < |s| ==> s[k] in cs) && (r != [] ==> r[|r| - 1] !in cs)
    decreases |s|
  {
    if s != [] && s[|s| - 1] in cs {
      RStripSetSpec(s[..|s| - 1], cs);
    }
  }

  /** `s.lstrip()` without arguments: drop leading whitespace. */
  function LStripSpace(s: string): string
    decreases |s|
  {
    if s != [] && IsSpace(s[0]) then LStripSpace(s[1..]) else s
  }

  /** `lstrip()` removes a prefix of whitespace and stops at the first other character. */
  lemma {:induction false} LStripSpaceSpec(s: string)
    ensures var r := LStripSpace(s);
      |r| <= |s| && r == s[|s| - |r|..] && (forall k :: 0 <= k < |s| - |r| ==> IsSpace(s[k])) && (r != [] ==> !IsSpace(r[0]))
    decreases |s|
  {
    if s != [] && IsSpace(s[0]) {
      LStripSpaceSpec(s[1..]);
    }
  }

  /** `s.rstrip()` without arguments: drop trailing whitespace. */
  function RStripSpace(s: string): string
    decreases |s|
  {
    if s != [] && IsSpace(s[|s| - 1]) then RStripSpace(s[..|s| - 1]) else s
  }

  /** `rstrip()` removes a suffix of whitespace and stops at the last other character. */
  lemma {:induction false} RStripSpaceSpec(s: string)
    ensures var r := RStripSpace(s);
      |r| <= |s| && r == s[..|r|] && (forall k :: |r| <= k < |s| ==> IsSpace(s[k])) && (r != [] ==> !IsSpace(r[|r| - 1]))
    decreases |s|
  {
    if s != [] && IsSpace(s[|s| - 1]) {
      RStripSpaceSpec(s[..|s| - 1]);
    }
  }

  /** `s.strip()` without arguments. */
  function Strip(s: string): string {
    LStripSpace(RStripSpace(s))
  }

  /** Stripping a string that neither starts nor ends with whitespace changes nothing. */
  lemma StripUnchanged(s: string)
    requires s != [] ==> !IsSpace(s[0]) && !IsSpace(s[|s| - 1])
    ensures Strip(s) == s
  {
  }

  /** `strip` returns a slice of its input. */
  lemma StripSlice(s: string) returns (a: nat, b: nat)
    ensures a <= b <= |s| && Strip(s) == s[a..b]
  {
    var r := RStripSpace(s);
    RStripSpaceSpec(s);
    LStripSpaceSpec(r);
    a, b := |r| - |Strip(s)|, |r|;
    assert r[a..] == s[a..b];
  }

  /** A stripped string neither starts nor ends with whitespace. */
  lemma StripEnds(s: string)
    ensures Strip(s) != [] ==> !IsSpace(Strip(s)[0]) && !IsSpace(Strip(s)[|Strip(s)| - 1])
  {
    var r := RStripSpace(s);
    RStripSpaceSpec(s);
    LStripSpaceSpec(r);
    if Strip(s) != [] {
      assert Strip(s)[|Strip(s)| - 1] == r[|r| - 1];
    }
  }

  /** `strip` of a string that ends in one more blank gives the same result. */
  lemma StripTrailingBlank(s: string)
    ensures Strip(s + " ") == Strip(s)
  {
    var t := s + " ";
    assert t[..|t| - 1] == s;
  }

  /** A stripped string is blank only when every character of the input was whitespace. */
  lemma StripEmptyIff(s: string)
    ensures Strip(s) == "" <==> forall k :: 0 <= k < |s| ==> IsSpace(s[k])
  {
    var r := RStripSpace(s);
    RStripSpaceSpec(s);
    LStripSpaceSpec(r);
    if Strip(s) == "" {
      forall k | 0 <= k < |s| ensures IsSpace(s[k]) {
      }
    } else {
      assert r != [] && !IsSpace(r[|r| - 1]);
      assert s[|r| - 1] == r[|r| - 1];
    }
  }

  /** `sub` occurs in `s` starting at index `j`. */
  predicate OccursAt(s: string, sub: string, j: nat) {
    j + |sub| <= |s| && s[j..j + |sub|] == sub
  }

  /** An index at or after `from` where `sub` occurs, the leftmost one (Python's `str.find`). */
  function IndexOfFrom(s: string, sub: string, from: nat): (r: Option<nat>)
    ensures r.Some? ==> from <= r.value && OccursAt(s, sub, r.value)
    decreases |s| - from
  {
    if from + |sub| > |s| then None
    else if s[from..from + |sub|] == sub then Some(from)
    else IndexOfFrom(s, sub, from + 1)
  }

  /** `IndexOfFrom` finds an occurrence at or before every occurrence after `from`: it is the leftmost. */
  lemma {:induction false} IndexOfFromFirst(s: string, sub: string, from: nat, j: nat)
    requires from <= j && OccursAt(s, sub, j)
    ensures IndexOfFrom(s, sub, from).Some? && IndexOfFrom(s, sub, from).value <= j
    decreases |s| - from
  {
    if from + |sub| <= |s| && s[from..from + |sub|] != sub {
      IndexOfFromFirst(s, sub, from + 1, j);
    }
  }

  function IndexOf(s: string, sub: string): Option<nat> {
    IndexOfFrom(s, sub, 0)
  }

  /** Python's `sub in s`. */
  predicate Contains(s: string, sub: string) {
    IndexOf(s, sub).Some?
  }

  lemma ContainsIff(s: string, sub: string)
    ensures Contains(s, sub) <==> exists j: nat :: OccursAt(s, sub, j)
  {
    if j: nat :| OccursAt(s, sub, j) {
      IndexOfFirst(s, sub, j);
    }
  }

  /** `IndexOf` is at or before every occurrence. */
  lemma IndexOfFirst(s: string, sub: string, j: nat)
    requires OccursAt(s, sub, j)
    ensures IndexOf(s, sub).Some? && IndexOf(s, sub).value <= j
  {
    IndexOfFromFirst(s, sub, 0, j);
  }

  lemma OccursInPrefix(s: string, sub: string, k: nat, j: nat)
    requires k <= |s| && OccursAt(s[..k], sub, j)
    ensures OccursAt(s, sub, j)
  {
    assert s[..k][j..j + |sub|] == s[j..j + |sub|];
  }

  lemma OccursInSuffix(s: string, sub: string, k: nat, j: nat)
    requires k <= |s| && OccursAt(s[k..], sub, j)
    ensures OccursAt(s, sub, k + j)
  {
    assert s[k..][j..j + |sub|] == s[k + j..k + j + |sub|];
  }

  /** A piece of a string contains `sub` only if the whole string does. */
  lemma ContainsInfix(s: string, i: nat, j: nat, sub: string)
    requires i <= j <= |s| && Contains(s[i..j], sub)
    ensures Contains(s, sub)
  {
    var p := IndexOf(s[i..j], sub).value;
    assert s[i..j] == s[i..][..j - i];
    OccursInPrefix(s[i..], sub, j - i, p);
    OccursInSuffix(s, sub, i, p);
    IndexOfFirst(s, sub, i + p);
  }

  /** The text before the first occurrence does not contain `sub`. */
  lemma NotContainsBeforeIndex(s: string, sub: string, k: nat)
    requires |sub| > 0 && IndexOf(s, sub) == Some(k)
    ensures !Contains(s[..k], sub)
  {
    if Contains(s[..k], sub) {
      var j := IndexOf(s[..k], sub).value;
      OccursInPrefix(s, sub, k, j);
      IndexOfFirst(s, sub, j);
    }
  }

  /** A string is found first right after a prefix that does not hold its first character. */
  lemma IndexOfAfter(pre: string, sep: string, rest: string)
    requires |sep| > 0 && sep[0] !in pre
    ensures IndexOf(pre + sep + rest, sep) == Some(|pre|)
  {
    var s := pre + sep + rest;
    assert s[|pre|..|pre| + |sep|] == sep;
    IndexOfFirst(s, sep, |pre|);
  }

  /** Python's `s.split(sep)` for a non-empty separator: scans left to right, non-overlapping. */
  function Split(s: string, sep: string): (r: seq<string>)
    requires |sep| > 0
    ensures |r| >= 1
    decreases |s|
  {
    match IndexOf(s, sep)
    case None => [s]
    case Some(k) => [s[..k]] + Split(s[k + |sep|..], sep)
  }

  /** No piece that `Split` returns contains the separator. */
  lemma {:induction false} SplitPiecesFree(s: string, sep: string)
    requires |sep| > 0
    ensures forall k :: 0 <= k < |Split(s, sep)| ==> !Contains(Split(s, sep)[k], sep)
    decreases |s|
  {
    match IndexOf(s, sep)
    case None =>
    case Some(k) =>
      NotContainsBeforeIndex(s, sep, k);
      SplitPiecesFree(s[k + |sep|..], sep);
  }

  /** Every piece of a split is a slice of the input. */
  lemma {:induction false} SplitPieceSlice(s: string, sep: string, n: nat) returns (a: nat, b: nat)
    requires |sep| > 0 && n < |Split(s, sep)|
    ensures a <= b <= |s| && Split(s, sep)[n] == s[a..b]
    decreases |s|
  {
    var found := IndexOf(s, sep);
    if found.None? {
      a, b := 0, |s|;
    } else {
      var k := found.value;
      var rest := s[k + |sep|..];
      SplitFound(s, sep, k);
      if n == 0 {
        a, b := 0, k;
      } else {
        var a', b' := SplitPieceSlice(rest, sep, n - 1);
        a, b := k + |sep| + a', k + |sep| + b';
        SliceOfSuffix(s, k + |sep|, a', b');
      }
    }
  }

  lemma SliceOfSuffix(s: string, i: nat, a: nat, b: nat)
    requires i <= |s| && a <= b <= |s| - i
    ensures s[i..][a..b] == s[i + a..i + b]
  {
  }

  /** A string splits into at least two pieces exactly when it contains the separator. */
  lemma SplitCount(s: string, sep: string)
    requires |sep| > 0
    ensures Contains(s, sep) <==> |Split(s, sep)| >= 2
    ensures !Contains(s, sep) ==> Split(s, sep) == [s]
  {
    if Contains(s, sep) {
      var k := IndexOf(s, sep).value;
      assert Split(s, sep) == [s[..k]] + Split(s[k + |sep|..], sep);
    }
  }

  /** `sep.join(xs)`. */
  function Join(xs: seq<string>, sep: string): string
    decreases |xs|
  {
    if |xs| == 0 then "" else if |xs| == 1 then xs[0] else xs[0] + sep + Join(xs[1..], sep)
  }

  /** One step of `Split` when the separator is found at `k`. */
  lemma SplitFound(s: string, sep: string, k: nat)
    requires |sep| > 0 && IndexOf(s, sep) == Some(k)
    ensures Split(s, sep) == [s[..k]] + Split(s[k + |sep|..], sep)
  {
  }

  lemma FoundSplitsAt(s: string, sep: string, k: nat)
    requires OccursAt(s, sep, k)
    ensures s == s[..k] + sep + s[k + |sep|..]
  {
    assert s == s[..k] + s[k..k + |sep|] + s[k + |sep|..];
  }

  lemma JoinCons(h: string, tail: seq<string>, sep: string)
    requires |tail| >= 1
    ensures Join([h] + tail, sep) == h + sep + Join(tail, sep)
  {
    assert ([h] + tail)[1..] == tail;
  }

  /** Joining with one more piece at the end appends the separator and that piece. */
  lemma {:induction false} JoinSnoc(xs: seq<string>, x: string, sep: string)
    requires |xs| >= 1
    ensures Join(xs + [x], sep) == Join(xs, sep) + sep + x
    decreases |xs|
  {
    if |xs| > 1 {
      JoinSnoc(xs[1..], x, sep);
      assert (xs + [x])[1..] == xs[1..] + [x];
    } else {
      assert xs + [x] == [xs[0], x];
    }
  }

  /** Joining the pieces of a split with the same separator gives back the input. */
  lemma {:induction false} JoinSplit(s: string, sep: string)
    requires |sep| > 0
    ensures Join(Split(s, sep), sep) == s
    decreases |s|
  {
    var i := IndexOf(s, sep);
    if i.Some? {
      var k := i.value;
      var rest := s[k + |sep|..];
      JoinSplit(rest, sep);
      SplitFound(s, sep, k);
      FoundSplitsAt(s, sep, k);
      JoinCons(s[..k], Split(rest, sep), sep);
    }
  }

  /** A join starts with the start of its first piece. */
  lemma JoinFirst(xs: seq<string>, sep: string)
    requires |xs| >= 1 && xs[0] != []
    ensures Join(xs, sep) != [] && Join(xs, sep)[0] == xs[0][0]
  {
  }

  /** A join ends with the end of its last piece. */
  lemma {:induction false} JoinLast(xs: seq<string>, sep: string)
    requires |xs| >= 1 && xs[|xs| - 1] != []
    ensures var j := Join(xs, sep); j != [] && j[|j| - 1] == xs[|xs| - 1][|xs[|xs| - 1]| - 1]
    decreases |xs|
  {
    if |xs| > 1 {
      JoinLast(xs[1..], sep);
    }
  }

  lemma OccursHead(x: string, sub: string, j: nat)
    requires |sub| > 0 && OccursAt(x, sub, j)
    ensures x[j] == sub[0]
  {
    assert x[j..j + |sub|][0] == x[j];
  }

  lemma NoCharNoOccurrence(x: string, c: char)
    requires c !in x
    ensures !Contains(x, [c])
  {
    if Contains(x, [c]) {
      OccursHead(x, [c], IndexOf(x, [c]).value);
    }
  }

  /** Splitting on one character undoes joining pieces that do not contain it. */
  lemma {:induction false} SplitJoin(xs: seq<string>, c: char)
    requires |xs| >= 1
    requires forall k :: 0 <= k < |xs| ==> c !in xs[k]
    ensures Split(Join(xs, [c]), [c]) == xs
    decreases |xs|
  {
    if |xs| == 1 {
      NoCharNoOccurrence(xs[0], c);
    } else {
      var tail := Join(xs[1..], [c]);
      SplitJoin(xs[1..], c);
      IndexOfAfter(xs[0], [c], tail);
      var s := xs[0] + [c] + tail;
      assert s[..|xs[0]|] == xs[0];
      assert s[|xs[0]| + 1..] == tail;
      assert xs == [xs[0]] + xs[1..];
    }
  }

  /** Python's `s.replace(pat, repl)` for a non-empty `pat`. */
  function Replace(s: string, pat: string, repl: string): string
    requires |pat| > 0
  {
    Join(Split(s, pat), repl)
  }

  /** Every occurrence of character `c` replaced by `d`. */
  function MapChar(s: string, c: char, d: char): (r: string)
    ensures |r| == |s|
    ensures forall k :: 0 <= k < |s| ==> r[k] == if s[k] == c then d else s[k]
  {
    seq(|s|, k requires 0 <= k < |s| => if s[k] == c then d else s[k])
  }

  /** Replacing a one-character string by another is character substitution. */
  lemma {:induction false} ReplaceCharIsMapChar(s: string, c: char, d: char)
    ensures Replace(s, [c], [d]) == MapChar(s, c, d)
    decreases |s|
  {
    var i := IndexOf(s, [c]);
    if i.None? {
      NoCharBeforeIndex(s, c, |s|);
      MapCharIdentity(s, c, d);
      assert s[..|s|] == s;
    } else {
      var k := i.value;
      var rest := s[k + 1..];
      ReplaceCharIsMapChar(rest, c, d);
      ReplaceCharStep(s, c, d, k);
    }
  }

  lemma ReplaceCharStep(s: string, c: char, d: char, k: nat)
    requires IndexOf(s, [c]) == Some(k)
    requires Replace(s[k + 1..], [c], [d]) == MapChar(s[k + 1..], c, d)
    ensures Replace(s, [c], [d]) == MapChar(s, c, d)
  {
    ReplaceCharUnfold(s, c, d, k);
    MapCharUnfold(s, c, d, k);
  }

  lemma ReplaceCharUnfold(s: string, c: char, d: char, k: nat)
    requires IndexOf(s, [c]) == Some(k)
    requires Replace(s[k + 1..], [c], [d]) == MapChar(s[k + 1..], c, d)
    ensures Replace(s, [c], [d]) == s[..k] + [d] + MapChar(s[k + 1..], c, d)
  {
    var rest := s[k + 1..];
    SplitFound(s, [c], k);
    JoinCons(s[..k], Split(rest, [c]), [d]);
  }

  lemma MapCharUnfold(s: string, c: char, d: char, k: nat)
    requires IndexOf(s, [c]) == Some(k)
    ensures MapChar(s, c, d) == s[..k] + [d] + MapChar(s[k + 1..], c, d)
  {
    var m, rest := MapChar(s, c, d), MapChar(s[k + 1..], c, d);
    assert s[k..k + 1] == [c] && s[k] == c;
    NoCharBeforeIndex(s, c, k);
    var r := s[..k] + [d] + rest;
    forall j | 0 <= j < |s|
      ensures r[j] == m[j]
    {
      if j < k {
        assert r[j] == s[..k][j] == s[j];
        assert s[j] in s[..k];
      } else if j > k {
        assert r[j] == rest[j - k - 1];
      }
    }
    assert r == m;
  }

  /** Character `c` does not occur before index `k` when `k` is at most its first occurrence. */
  lemma NoCharBeforeIndex(s: string, c: char, k: nat)
    requires k <= |s|
    requires IndexOf(s, [c]).Some? ==> k <= IndexOf(s, [c]).value
    ensures c !in s[..k]
  {
    forall j | 0 <= j < k ensures s[j] != c {
      if s[j] == c {
        assert s[j..j + 1] == [c];
        IndexOfFirst(s, [c], j);
      }
    }
  }

  lemma MapCharIdentity(a: string, c: char, d: char)
    requires c !in a
    ensures MapChar(a, c, d) == a
  {
  }

  function Repeat(c: char, n: nat): (r: string)
    ensures |r| == n && forall k :: 0 <= k < n ==> r[k] == c
  {
    seq(n, _ => c)
  }

  /** JavaScript's `s.padStart(width, c)` for a one-character pad. */
  function PadStart(s: string, width: nat, c: char): (r: string)
    ensures |r| == if |s| < width then width else |s|
    ensures r == Repeat(c, |r| - |s|) + s
  {
    if |s| < width then Repeat(c, width - |s|) + s else s
  }

  predicate IsDigit(c: char) { '0' <= c <= '9' }

  predicate AllDigits(s: string) { forall k :: 0 <= k < |s| ==> IsDigit(s[k]) }

  function DigitValue(c: char): nat
    requires IsDigit(c)
  {
    c as int - '0' as int
  }

  function DigitChar(d: nat): (c: char)
    requires d < 10
    ensures IsDigit(c) && DigitValue(c) == d
  {
    ('0' as int + d) as char
  }

  /** The number a string of decimal digits denotes. */
  function DigitsValue(s: string): nat
    requires AllDigits(s)
    decreases |s|
  {
    if s == [] then 0 else DigitsValue(s[..|s| - 1]) * 10 + DigitValue(s[|s| - 1])
  }

  /** The shortest decimal spelling of `n`. */
  function NatToString(n: nat): (r: string)
    ensures |r| >= 1 && AllDigits(r) && DigitsValue(r) == n
    ensures r[0] == '0' ==> n == 0
    decreases n
  {
    if n < 10 then [DigitChar(n)]
    else
      var p := NatToString(n / 10);
      var r := p + [DigitChar(n % 10)];
      assert r[..|r| - 1] == p;
      r
  }

  /** JavaScript's `String(i)` for an integer value. */
  function IntToString(i: int): string {
    if i < 0 then "-" + NatToString(-i) else NatToString(i)
  }

  /** Leading zeros do not change the value of a digit string. */
  lemma {:induction false} LeadingZeros(z: nat, ds: string)
    requires AllDigits(ds)
    ensures AllDigits(Repeat('0', z) + ds)
    ensures DigitsValue(Repeat('0', z) + ds) == DigitsValue(ds)
    decreases |ds|
  {
    var s := Repeat('0', z) + ds;
    if ds == [] {
      assert s == Repeat('0', z);
      ZerosValue(z);
    } else {
      var init := ds[..|ds| - 1];
      LeadingZeros(z, init);
      assert s[..|s| - 1] == Repeat('0', z) + init;
    }
  }

  lemma {:induction false} ZerosValue(z: nat)
    ensures DigitsValue(Repeat('0', z)) == 0
  {
    if z > 0 {
      ZerosValue(z - 1);
      assert Repeat('0', z)[..z - 1] == Repeat('0', z - 1);
    }
  }

  predicate IsAsciiUpper(c: char) { 'A' <= c <= 'Z' }
  predicate IsAsciiLower(c: char) { 'a' <= c <= 'z' }

  function ToUpper(c: char): char {
    if IsAsciiLower(c) then (c as int - 32) as char else c
  }

  function ToLower(c: char): char {
    if IsAsciiUpper(c) then (c as int + 32) as char else c
  }

  /**
   * Python's `str.title()` on ASCII text, after a character that is (`prevCased`)
   * or is not a letter: a letter is upper-cased when it starts a run of letters
   * and lower-cased otherwise; every other character is kept and ends the run.
   */
  function TitleFrom(s: string, prevCased: bool): (r: string)
    ensures |r| == |s|
    ensures forall k :: 0 <= k < |s| ==> (IsAsciiUpper(r[k]) || IsAsciiLower(r[k])) == (IsAsciiUpper(s[k]) || IsAsciiLower(s[k]))
    ensures forall k :: 0 <= k < |s| && !IsAsciiUpper(s[k]) && !IsAsciiLower(s[k]) ==> r[k] == s[k]
    decreases |s|
  {
    if s == [] then []
    else
      var c := s[0];
      if IsAsciiUpper(c) || IsAsciiLower(c) then
        [if prevCased then ToLower(c) else ToUpper(c)] + TitleFrom(s[1..], true)
      else
        [c] + TitleFrom(s[1..], false)
  }

  function Title(s: string): string {
    TitleFrom(s, false)
  }

  /** Title-casing and substituting one non-letter for another commute. */
  lemma {:induction false} TitleMapChar(s: string, prevCased: bool, c: char, d: char)
    requires !IsAsciiUpper(c) && !IsAsciiLower(c) && !IsAsciiUpper(d) && !IsAsciiLower(d)
    ensures TitleFrom(MapChar(s, c, d), prevCased) == MapChar(TitleFrom(s, prevCased), c, d)
    decreases |s|
  {
    if s != [] {
      var m := MapChar(s, c, d);
      assert m[1..] == MapChar(s[1..], c, d);
      var cased := IsAsciiUpper(s[0]) || IsAsciiLower(s[0]);
      TitleMapChar(s[1..], cased, c, d);
      var t := TitleFrom(s, prevCased);
      assert t[1..] == TitleFrom(s[1..], cased);
      assert MapChar(t, c, d)[1..] == MapChar(t[1..], c, d);
    }
  }
}
