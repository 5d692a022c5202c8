/**
  The backend's indexing-progress helpers: the batch percentage, the guards
  of the completion estimate, and the scan of processing logs for OCR
  progress (whether OCR runs, the page counters, per-page times, when OCR
  started and for which file).

  Python floats are modelled as exact rationals (`real`), wall-clock readings
  as parameters in seconds, and a parsed datetime by the timestamp text it
  was parsed from (the text determines it).
 */
module ProgressHelpers {
  import opened Wrappers
  import opened Text
  import opened LogPatterns

  // ---------------------------------------------------------------------
  // Batch percentage
  // ---------------------------------------------------------------------

  /** What the indexing coordination reports for an attempt. */
  datatype CoordinationStatus = CoordinationStatus(found: bool, totalBatches: Option<int>, completedBatches: int)

  /** Python's `int(a / b)`: the exact quotient truncated toward zero. */
  function TruncDiv(a: int, b: int): (q: int)
    requires b != 0
    ensures a >= 0 && b > 0 ==> b * q <= a < b * q + b
  {
    var m := (if a < 0 then -a else a) / (if b < 0 then -b else b);
    if (a < 0) == (b < 0) then m else -m
  }

  /** min(99, int(completed / total * 100)), 0 without data, 100 for no batches. */
  function CalculateProgressPercentage(status: CoordinationStatus): int {
    if !status.found || status.totalBatches.None? then 0
    else if status.totalBatches.value == 0 then 100
    else
      var p := TruncDiv(100 * status.completedBatches, status.totalBatches.value);
      if p < 99 then p else 99
  }

  /** 0 without data; 100 exactly when there are no batches at all. */
  lemma ProgressPercentageCases(status: CoordinationStatus)
    ensures !status.found || status.totalBatches.None? ==> CalculateProgressPercentage(status) == 0
    ensures CalculateProgressPercentage(status) == 100 <==> status.found && status.totalBatches == Some(0)
  {
  }

  lemma DivMono(a: int, b: int, t: int)
    requires 0 <= a <= b && t > 0
    ensures a / t <= b / t
  {
    var qa, qb := a / t, b / t;
    assert a == t * qa + a % t && b == t * qb + b % t;
    if qa > qb {
      assert t * qa >= t * (qb + 1) by { MulLe(t, qb + 1, qa); }
      assert false;
    }
  }

  lemma MulLe(a: int, x: int, y: int)
    requires a > 0 && x <= y
    ensures a * x <= a * y
  {
  }

  /** With batches to do and none done below zero, the percentage lies in
      [0, 99] and does not decrease as batches complete. */
  lemma ProgressPercentageRange(status: CoordinationStatus, more: int)
    requires status.found && status.totalBatches.Some? && status.totalBatches.value > 0
    requires 0 <= status.completedBatches <= more
    ensures 0 <= CalculateProgressPercentage(status) <= 99
    ensures CalculateProgressPercentage(status)
         <= CalculateProgressPercentage(status.(completedBatches := more))
  {
    var t := status.totalBatches.value;
    DivMono(100 * status.completedBatches, 100 * more, t);
  }

  // ---------------------------------------------------------------------
  // Completion estimate
  // ---------------------------------------------------------------------

  /** How `estimate_completion_time` ends. */
  datatype EstimateOutcome = Returns(eta: Option<real>) | RaisesAttributeError

  /** The estimate as written: past its guards, the call
      `datetime.now(datetime.timezone.utc)` looks up `timezone` on the
      `datetime` class, which has no such attribute, and raises. */
  function EstimateCompletionTimeAsWritten(status: CoordinationStatus, timeStarted: Option<real>): EstimateOutcome {
    if !status.found || status.totalBatches.None? then Returns(None)
    else if timeStarted.None? || status.completedBatches == 0 then Returns(None)
    else RaisesAttributeError
  }

  /** No input that passes the guards gets an estimate from the code as written. */
  lemma EstimateAsWrittenRaises(status: CoordinationStatus, timeStarted: Option<real>)
    requires status.found && status.totalBatches.Some? && timeStarted.Some? && status.completedBatches != 0
    ensures EstimateCompletionTimeAsWritten(status, timeStarted) == RaisesAttributeError
  {
  }

  /** The estimate as evidently intended, with the current time `now` in
      seconds: None without data, before any batch completes, within the
      first five seconds, or at a non-positive rate; otherwise `now` plus the
      remaining batches at the rate observed so far. */
  function EstimateCompletionTime(status: CoordinationStatus, timeStarted: Option<real>, now: real): (eta: Option<real>)
    ensures !status.found || status.totalBatches.None? || timeStarted.None? || status.completedBatches == 0
            ==> eta == None
  {
    if !status.found || status.totalBatches.None? then None
    else if timeStarted.None? || status.completedBatches == 0 then None
    else
      var elapsed := now - timeStarted.value;
      if elapsed < 5.0 then None
      else
        var batchesPerSecond := status.completedBatches as real / elapsed;
        var remainingBatches := status.totalBatches.value - status.completedBatches;
        if batchesPerSecond <= 0.0 then None
        else Some(now + remainingBatches as real / batchesPerSecond)
  }

  /** An estimate, when given, lies no earlier than now for an attempt that has
      not done more batches than it has, and is exactly now once all are done;
      it is given whenever the guards pass, five seconds have elapsed and some
      batches have completed. */
  lemma EstimateMeaning(status: CoordinationStatus, timeStarted: Option<real>, now: real)
    requires status.found && status.totalBatches.Some? && timeStarted.Some?
    requires now - timeStarted.value >= 5.0 && status.completedBatches > 0
    ensures EstimateCompletionTime(status, timeStarted, now).Some?
    ensures status.completedBatches <= status.totalBatches.value ==>
      EstimateCompletionTime(status, timeStarted, now).value >= now
    ensures status.completedBatches == status.totalBatches.value ==>
      EstimateCompletionTime(status, timeStarted, now).value == now
  {
    var elapsed := now - timeStarted.value;
    var rate := status.completedBatches as real / elapsed;
    assert rate > 0.0;
    var remaining := (status.totalBatches.value - status.completedBatches) as real;
    if remaining >= 0.0 {
      assert remaining / rate >= 0.0;
    }
  }

  /** The code as written against the evident intent, on an attempt 20 seconds
      in with 5 of 10 batches done. */
  lemma EstimateDiscrepancy()
    ensures EstimateCompletionTimeAsWritten(CoordinationStatus(true, Some(10), 5), Some(100.0))
            == RaisesAttributeError
    ensures EstimateCompletionTime(CoordinationStatus(true, Some(10), 5), Some(100.0), 120.0) == Some(140.0)
  {
    assert 5.0 / 20.0 == 0.25;
    assert 5.0 / 0.25 == 20.0;
  }

  // ---------------------------------------------------------------------
  // OCR information from logs
  // ---------------------------------------------------------------------

  const ImageBasedMarker: string := "PDF appears to be image-based"
  const OllamaOcrMarker: string := "=== PDF EXTRACTION WITH OLLAMA OCR ==="

  /** (\d{2}/\d{2}/\d{4} \d{2}:\d{2}:\d{2} [AP]M) */
  const TimestampPattern: seq<Token> :=
    [DigitsN(2), Lit("/"), DigitsN(2), Lit("/"), DigitsN(4), Lit(" "),
     DigitsN(2), Lit(":"), DigitsN(2), Lit(":"), DigitsN(2), Lit(" "), OneOf("AP"), Lit("M")]
  /** PDF has (\d+) pages */
  const PdfPagesPattern: seq<Token> := [Lit("PDF has "), Digits, Lit(" pages")]
  /** Processing page (\d+)/(\d+); only the first group is used, and a match of
      (\d+)/ followed by a digit exists exactly when one of (\d+)/(\d+) does, with
      the same first group. */
  const CurrentPagePattern: seq<Token> := [Lit("Processing page "), Digits, Lit("/"), DigitsN(1)]
  /** Page \d+: Extracted \d+ characters in (\d+\.\d+)s */
  const PageTimePattern: seq<Token> :=
    [Lit("Page "), Digits, Lit(": Extracted "), Digits, Lit(" characters in "), Digits, Lit("."), Digits, Lit("s")]
  /** Creating TextSection for ([^ ]+) with link */
  const FilePattern: seq<Token> := [Lit("Creating TextSection for "), NonSpaces, Lit(" with link")]

  /** The patterns are well separated, so the matcher finds what Python's regex engine finds. */
  lemma PatternsWellSeparated()
    ensures WellSeparated(PdfPagesPattern) && WellSeparated(CurrentPagePattern)
    ensures WellSeparated(FilePattern)
  {
    assert PdfPagesPattern[1..][1..] == [Lit(" pages")];
    assert CurrentPagePattern[1..][1..][1..] == [DigitsN(1)];
    assert FilePattern[1..][1..] == [Lit(" with link")];
  }

  lemma TimestampPatternWellSeparated()
    ensures WellSeparated(TimestampPattern)
  {
    var p := TimestampPattern;
    forall k | 0 <= k < |p|
      ensures SeparatedAt(p, k)
    {
    }
    SeparatedEverywhere(p);
  }

  lemma PageTimePatternWellSeparated()
    ensures WellSeparated(PageTimePattern)
  {
    var p := PageTimePattern;
    forall k | 0 <= k < |p|
      ensures SeparatedAt(p, k)
    {
    }
    SeparatedEverywhere(p);
  }

  /** The number in a digits-only capture. */
  function NumberIn(log: string, pat: seq<Token>): Option<nat>
    requires pat != [] && pat[0].Lit? && |pat| >= 2 && pat[1].Digits?
  {
    match Search(log, pat)
    case Some((i, m)) =>
      MatchAtSound(log, i, pat);
      var text := log[i..m.end];
      assert Matches(pat[1..], text[|pat[0].text|..], m.captures);
      Some(DecimalValue(m.captures[0]))
    case None => None
  }

  /** `int(re.search(r"PDF has (\d+) pages", log).group(1))`. */
  function TotalPagesIn(log: string): Option<nat> {
    NumberIn(log, PdfPagesPattern)
  }

  /** `int(re.search(r"Processing page (\d+)/(\d+)", log).group(1))`. */
  function CurrentPageIn(log: string): Option<nat> {
    NumberIn(log, CurrentPagePattern)
  }

  /** The `[^ ]+` group of the file-name pattern. */
  function FileNameIn(log: string): (r: Option<string>)
    ensures r.Some? ==> r.value != []
  {
    match Search(log, FilePattern)
    case Some((i, m)) =>
      MatchAtSound(log, i, FilePattern);
      var text := log[i..m.end];
      assert Matches(FilePattern[1..], text[|FilePattern[0].text|..], m.captures);
      Some(m.captures[0])
    case None => None
  }

  /** The page count is read back from the line the OCR step logs. */
  lemma TotalPagesOfLine(n: nat)
    ensures TotalPagesIn("PDF has " + NatToDecimal(n) + " pages") == Some(n)
  {
    var d := NatToDecimal(n);
    var s := "PDF has " + d + " pages";
    var p := PdfPagesPattern;
    assert s[..8] == "PDF has " && s[8..] == d + " pages";
    assert (d + " pages")[..|d|] == d && (d + " pages")[|d|..] == " pages";
    assert Matches(p[1..][1..], " pages", []) by {
      assert p[1..][1..] == [Lit(" pages")] && " pages"[6..] == [];
    }
    assert Matches(p, s[0..|s|], [d]) by {
      assert s[0..|s|] == s && p[1..][0] == Digits && [d][1..] == [];
    }
    PatternsWellSeparated();
    SearchLeftmost(s, p, 0, |s|, [d]);
    DecimalRoundTrip(n);
  }

  /** A line of the current-page pattern with any leading literal matches it. */
  lemma CurrentPageMatches(pre: string, c: string, d: char)
    requires |c| >= 1 && AllDigits(c) && IsDigit(d)
    ensures Matches([Lit(pre), Digits, Lit("/"), DigitsN(1)], pre + c + "/" + [d], [c])
  {
    var tail := "/" + [d];
    var empty: seq<Token> := [];
    assert Matches(empty, [], []);
    MatchesDigitsN([d], empty, [], []);
    assert [DigitsN(|[d]|)] + empty == [DigitsN(1)] && [d] + [] == [d];
    MatchesLit("/", [DigitsN(1)], [d], []);
    assert [Lit("/")] + [DigitsN(1)] == [Lit("/"), DigitsN(1)];
    MatchesDigits(c, [Lit("/"), DigitsN(1)], tail, []);
    assert [Digits] + [Lit("/"), DigitsN(1)] == [Digits, Lit("/"), DigitsN(1)];
    assert [c] + [] == [c];
    MatchesLit(pre, [Digits, Lit("/"), DigitsN(1)], c + tail, [c]);
    assert [Lit(pre)] + [Digits, Lit("/"), DigitsN(1)] == [Lit(pre), Digits, Lit("/"), DigitsN(1)];
    AppendAssoc(pre, c, tail);
    AppendAssoc(pre + c, "/", [d]);
  }

  /** The current page is read back from the line the OCR step logs. */
  lemma CurrentPageOfLine(current: nat, total: nat)
    ensures CurrentPageIn("Processing page " + NatToDecimal(current) + "/" + NatToDecimal(total))
            == Some(current)
  {
    var c, t := NatToDecimal(current), NatToDecimal(total);
    var s := "Processing page " + c + "/" + t;
    var j := 16 + |c| + 2;
    CurrentPageMatches("Processing page ", c, t[0]);
    assert s[0..j] == "Processing page " + c + "/" + [t[0]];
    PatternsWellSeparated();
    SearchLeftmost(s, CurrentPagePattern, 0, j, [c]);
    DecimalRoundTrip(current);
  }

  /** A space-free file name is read back from the line the indexer logs. */
  lemma FileNameOfLine(name: string)
    requires name != [] && ' ' !in name
    ensures FileNameIn("Creating TextSection for " + name + " with link") == Some(name)
  {
    var s := "Creating TextSection for " + name + " with link";
    var p := FilePattern;
    assert s[..25] == "Creating TextSection for " && s[25..] == name + " with link";
    assert (name + " with link")[..|name|] == name && (name + " with link")[|name|..] == " with link";
    assert AllInClass(name, false) by {
      forall k | 0 <= k < |name| ensures name[k] != ' ' {
        assert name[k] in name;
      }
    }
    assert Matches(p[1..][1..], " with link", []) by {
      assert p[1..][1..] == [Lit(" with link")] && " with link"[10..] == [];
    }
    assert Matches(p, s[0..|s|], [name]) by {
      assert s[0..|s|] == s && p[1..][0] == NonSpaces && [name][1..] == [];
    }
    PatternsWellSeparated();
    SearchLeftmost(s, p, 0, |s|, [name]);
  }

  function Pow10(n: nat): (p: nat)
    ensures p >= 1
  {
    if n == 0 then 1 else 10 * Pow10(n - 1)
  }

  /** The exact value of the decimal `whole.fraction`. */
  function DecimalSeconds(whole: string, fraction: string): real
    requires AllDigits(whole) && AllDigits(fraction)
  {
    DecimalValue(whole) as real + DecimalValue(fraction) as real / Pow10(|fraction|) as real
  }

  /** Seconds logged as `W.F` with W written in decimal are W + F / 10^|F|. */
  lemma DecimalSecondsOfNat(whole: nat, fraction: string)
    requires AllDigits(fraction)
    ensures DecimalSeconds(NatToDecimal(whole), fraction)
            == whole as real + DecimalValue(fraction) as real / Pow10(|fraction|) as real
  {
    DecimalRoundTrip(whole);
  }

  /** The seconds of the page-time pattern, read exactly from `\d+\.\d+`. */
  function PageTimeIn(log: string): Option<real> {
    match Search(log, PageTimePattern)
    case Some((i, m)) =>
      MatchAtSound(log, i, PageTimePattern);
      PageTimeCaptures(log[i..m.end], m.captures);
      Some(DecimalSeconds(m.captures[2], m.captures[3]))
    case None => None
  }

  /** A literal, a digit run, a literal and a digit run in front of a match. */
  lemma TwoRunsInFront(l1: string, a: string, l2: string, b: string,
                       rest: seq<Token>, text: string, caps: seq<string>)
    requires |a| >= 1 && AllDigits(a) && |b| >= 1 && AllDigits(b) && Matches(rest, text, caps)
    ensures Matches([Lit(l1), Digits, Lit(l2), Digits] + rest, l1 + a + l2 + b + text, [a, b] + caps)
  {
    MatchesDigits(b, rest, text, caps);
    MatchesLit(l2, [Digits] + rest, b + text, [b] + caps);
    MatchesDigits(a, [Lit(l2)] + ([Digits] + rest), l2 + (b + text), [b] + caps);
    MatchesLit(l1, [Digits] + ([Lit(l2)] + ([Digits] + rest)), a + (l2 + (b + text)), [a] + ([b] + caps));
    assert [Lit(l1)] + ([Digits] + ([Lit(l2)] + ([Digits] + rest))) == [Lit(l1), Digits, Lit(l2), Digits] + rest;
    assert [a] + ([b] + caps) == [a, b] + caps;
    SixAssoc(l1, a, l2, b, text);
  }

  /** Four digit runs between five literals match their concatenation. */
  lemma FourRunsMatch(l1: string, a: string, l2: string, b: string, l3: string, c: string,
                      l4: string, d: string, l5: string)
    requires |a| >= 1 && AllDigits(a) && |b| >= 1 && AllDigits(b)
    requires |c| >= 1 && AllDigits(c) && |d| >= 1 && AllDigits(d)
    ensures Matches([Lit(l1), Digits, Lit(l2), Digits, Lit(l3), Digits, Lit(l4), Digits, Lit(l5)],
                    l1 + a + l2 + b + l3 + c + l4 + d + l5, [a, b, c, d])
  {
    var empty: seq<Token> := [];
    var none: seq<string> := [];
    assert Matches(empty, [], none);
    MatchesLit(l5, empty, [], none);
    assert [Lit(l5)] + empty == [Lit(l5)] && l5 + [] == l5;
    TwoRunsInFront(l3, c, l4, d, [Lit(l5)], l5, none);
    var tail := l3 + c + l4 + d + l5;
    TwoRunsInFront(l1, a, l2, b, [Lit(l3), Digits, Lit(l4), Digits] + [Lit(l5)], tail, [c, d] + none);
    assert [Lit(l1), Digits, Lit(l2), Digits] + ([Lit(l3), Digits, Lit(l4), Digits] + [Lit(l5)])
        == [Lit(l1), Digits, Lit(l2), Digits, Lit(l3), Digits, Lit(l4), Digits, Lit(l5)];
    assert [a, b] + ([c, d] + none) == [a, b, c, d];
    FiveAssoc(l1 + a + l2 + b, l3, c, l4, d, l5);
  }

  lemma SixAssoc(l1: string, a: string, l2: string, b: string, rest: string)
    ensures l1 + (a + (l2 + (b + rest))) == l1 + a + l2 + b + rest
  {
    AppendAssoc(l2, b, rest);
    AppendAssoc(a, l2 + b, rest);
    AppendAssoc(a, l2, b);
    AppendAssoc(l1, a + l2 + b, rest);
    AppendAssoc(l1, a + l2, b);
    AppendAssoc(l1, a, l2);
  }

  lemma FiveAssoc(x: string, l3: string, c: string, l4: string, d: string, l5: string)
    ensures x + (l3 + c + l4 + d + l5) == x + l3 + c + l4 + d + l5
  {
    AppendAssoc(x, l3 + c + l4 + d, l5);
    AppendAssoc(x, l3 + c + l4, d);
    AppendAssoc(x, l3 + c, l4);
    AppendAssoc(x, l3, c);
  }

  /** A whole-line match of the page-time pattern is read as its last two groups. */
  lemma PageTimeOfMatch(s: string, caps: seq<string>)
    requires |caps| == 4 && AllDigits(caps[2]) && AllDigits(caps[3])
    requires Search(s, PageTimePattern) == Some((0, Match(|s|, caps)))
    ensures PageTimeIn(s) == Some(DecimalSeconds(caps[2], caps[3]))
  {
  }

  /** The line the OCR step logs for a page: `Page P: Extracted C characters in W.Fs`. */
  function PageTimeLine(p: string, c: string, w: string, fraction: string): string {
    "Page " + p + ": Extracted " + c + " characters in " + w + "." + fraction + "s"
  }

  /** The whole of a page-time line is the leftmost match, with its four groups. */
  lemma PageTimeLineFound(p: string, c: string, w: string, fraction: string)
    requires |p| >= 1 && AllDigits(p) && |c| >= 1 && AllDigits(c)
    requires |w| >= 1 && AllDigits(w) && |fraction| >= 1 && AllDigits(fraction)
    ensures var s := PageTimeLine(p, c, w, fraction);
            Search(s, PageTimePattern) == Some((0, Match(|s|, [p, c, w, fraction])))
  {
    var s := PageTimeLine(p, c, w, fraction);
    FourRunsMatch("Page ", p, ": Extracted ", c, " characters in ", w, ".", fraction, "s");
    assert s[0..|s|] == s;
    PageTimePatternWellSeparated();
    SearchLeftmost(s, PageTimePattern, 0, |s|, [p, c, w, fraction]);
  }

  /** The seconds are read back from the line the OCR step logs for a page. */
  lemma PageTimeOfLine(page: nat, chars: nat, whole: nat, fraction: string)
    requires |fraction| >= 1 && AllDigits(fraction)
    ensures PageTimeIn("Page " + NatToDecimal(page) + ": Extracted " + NatToDecimal(chars) + " characters in "
                       + NatToDecimal(whole) + "." + fraction + "s")
            == Some(DecimalSeconds(NatToDecimal(whole), fraction))
  {
    var p, c, w := NatToDecimal(page), NatToDecimal(chars), NatToDecimal(whole);
    PageTimeLineFound(p, c, w, fraction);
    PageTimeOfMatch(PageTimeLine(p, c, w, fraction), [p, c, w, fraction]);
  }

  lemma PageTimeCaptures(text: string, caps: seq<string>)
    requires Matches(PageTimePattern, text, caps)
    ensures |caps| == 4 && AllDigits(caps[2]) && AllDigits(caps[3])
  {
    var p := PageTimePattern;
    var t1 := text[|"Page "|..];
    assert Matches(p[1..], t1, caps);
    var t2 := t1[|caps[0]|..];
    assert Matches(p[2..], t2, caps[1..]) by { assert p[1..][1..] == p[2..]; }
    var t3 := t2[|": Extracted "|..];
    assert Matches(p[3..], t3, caps[1..]) by { assert p[2..][1..] == p[3..]; }
    var t4 := t3[|caps[1]|..];
    assert Matches(p[4..], t4, caps[2..]) by { assert p[3..][1..] == p[4..]; assert caps[1..][1..] == caps[2..]; }
    var t5 := t4[|" characters in "|..];
    assert Matches(p[5..], t5, caps[2..]) by { assert p[4..][1..] == p[5..]; }
    assert AllDigits(caps[2]);
    var t6 := t5[|caps[2]|..];
    assert Matches(p[6..], t6, caps[3..]) by { assert p[5..][1..] == p[6..]; assert caps[2..][1..] == caps[3..]; }
    var t7 := t6[1..];
    assert Matches(p[7..], t7, caps[3..]) by { assert p[6..][1..] == p[7..]; }
    assert AllDigits(caps[3]);
    var t8 := t7[|caps[3]|..];
    assert Matches(p[8..], t8, caps[4..]) by { assert p[7..][1..] == p[8..]; assert caps[3..][1..] == caps[4..]; }
    assert caps[4..] == [] by { assert p[8..][1..] == []; }
  }

  /** `re.search` of the timestamp pattern: the whole matched text. */
  function TimestampIn(log: string): Option<string> {
    match Search(log, TimestampPattern)
    case Some((i, m)) => Some(log[i..m.end])
    case None => None
  }

  function FieldAt(ts: string, from: nat, width: nat): nat
    requires from + width <= |ts|
  {
    if AllDigits(ts[from..from + width]) then DecimalValue(ts[from..from + width]) else 0
  }

  function DaysInMonth(year: nat, month: nat): nat {
    if month == 2 then (if (year % 4 == 0 && year % 100 != 0) || year % 400 == 0 then 29 else 28)
    else if month == 4 || month == 6 || month == 9 || month == 11 then 30
    else 31
  }

  /** Whether `datetime.strptime(ts, '%m/%d/%Y %I:%M:%S %p')` succeeds on a
      text the timestamp pattern matched: a real calendar date in a year from
      1, an hour from 01 to 12, minutes and seconds below 60. */
  predicate ValidTimestamp(ts: string) {
    |ts| == 22 &&
    var month, day, year := FieldAt(ts, 0, 2), FieldAt(ts, 3, 2), FieldAt(ts, 6, 4);
    var hour, minute, second := FieldAt(ts, 11, 2), FieldAt(ts, 14, 2), FieldAt(ts, 17, 2);
    && 1 <= month <= 12 && 1 <= day <= DaysInMonth(year, month) && year >= 1
    && 1 <= hour <= 12 && minute <= 59 && second <= 59
  }

  predicate HasOcrMarker(log: string) {
    Contains(log, ImageBasedMarker) || Contains(log, OllamaOcrMarker)
  }

  /** The start time a line offers: an OCR line with a timestamp that parses. */
  function StartIn(log: string): Option<string> {
    if HasOcrMarker(log) then
      match TimestampIn(log)
      case Some(ts) => if ValidTimestamp(ts) then Some(ts) else None
      case None => None
    else None
  }

  /** The dictionary the scan fills in. */
  datatype OcrInfo = OcrInfo(
    isOcr: bool,
    currentPage: Option<nat>,
    totalPages: Option<nat>,
    avgTimePerPage: Option<real>,
    pageTimes: seq<real>,
    startedAt: Option<string>,
    fileName: Option<string>)

  const DefaultOcrInfo: OcrInfo := OcrInfo(false, None, None, None, [], None, None)

  /** The value of the last line that offers one. */
  function LastOf(logs: seq<string>, f: string -> Option<nat>): (r: Option<nat>)
    ensures r.Some? ==>
              exists j :: 0 <= j < |logs| && f(logs[j]) == r && forall k :: j < k < |logs| ==> f(logs[k]).None?
    ensures r.None? ==> forall k :: 0 <= k < |logs| ==> f(logs[k]).None?
  {
    if logs == [] then None
    else if f(logs[|logs| - 1]).Some? then f(logs[|logs| - 1])
    else LastOf(logs[..|logs| - 1], f)
  }

  /** The value of the first line that offers one. */
  function FirstOf(logs: seq<string>, f: string -> Option<string>): (r: Option<string>)
    ensures r.Some? ==>
              exists j :: 0 <= j < |logs| && f(logs[j]) == r && forall k :: 0 <= k < j ==> f(logs[k]).None?
    ensures r.None? ==> forall k :: 0 <= k < |logs| ==> f(logs[k]).None?
  {
    if logs == [] then None
    else if f(logs[0]).Some? then f(logs[0])
    else FirstOf(logs[1..], f)
  }

  lemma {:induction false} FirstOfSnoc(logs: seq<string>, log: string, f: string -> Option<string>)
    ensures FirstOf(logs + [log], f) == if FirstOf(logs, f).Some? then FirstOf(logs, f) else f(log)
  {
    if logs != [] {
      assert (logs + [log])[0] == logs[0] && (logs + [log])[1..] == logs[1..] + [log];
      FirstOfSnoc(logs[1..], log, f);
    } else {
      assert (logs + [log])[1..] == [];
    }
  }

  lemma LastOfSnoc(logs: seq<string>, log: string, f: string -> Option<nat>)
    ensures LastOf(logs + [log], f) == if f(log).Some? then f(log) else LastOf(logs, f)
  {
    assert (logs + [log])[..|logs|] == logs;
  }

  lemma PageTimesSnoc(logs: seq<string>, log: string)
    ensures PageTimes(logs + [log])
            == PageTimes(logs) + match PageTimeIn(log) case Some(t) => [t] case None => []
  {
    assert (logs + [log])[..|logs|] == logs;
  }

  /** Some line carries an OCR marker. */
  predicate AnyMarker(logs: seq<string>) {
    exists j :: 0 <= j < |logs| && HasOcrMarker(logs[j])
  }

  lemma AnyMarkerSnoc(logs: seq<string>, log: string)
    ensures AnyMarker(logs + [log]) == (AnyMarker(logs) || HasOcrMarker(log))
  {
    if AnyMarker(logs) {
      var j :| 0 <= j < |logs| && HasOcrMarker(logs[j]);
      assert (logs + [log])[j] == logs[j];
    }
    if HasOcrMarker(log) {
      assert (logs + [log])[|logs|] == log;
    }
  }

  /** The page times of the lines that report one, in log order. */
  function PageTimes(logs: seq<string>): (r: seq<real>)
    ensures |r| <= |logs|
  {
    if logs == [] then []
    else PageTimes(logs[..|logs| - 1])
         + match PageTimeIn(logs[|logs| - 1]) case Some(t) => [t] case None => []
  }

  function Sum(xs: seq<real>): real {
    if xs == [] then 0.0 else Sum(xs[..|xs| - 1]) + xs[|xs| - 1]
  }

  /** The OCR flag and start time after one more line: a marker line turns
      the flag on and, while no start is known, offers its timestamp if that
      parses as a date. */
  method ScanMarker(isOcr: bool, startedAt: Option<string>, log: string)
    returns (isOcr': bool, startedAt': Option<string>)
    ensures isOcr' == (isOcr || HasOcrMarker(log))
    ensures startedAt' == if startedAt.Some? then startedAt else StartIn(log)
  {
    isOcr', startedAt' := isOcr, startedAt;
    if HasOcrMarker(log) {
      isOcr' := true;
      var timestamp := TimestampIn(log);
      if timestamp.Some? && startedAt.None? {
        if ValidTimestamp(timestamp.value) {
          startedAt' := timestamp;
        }
      }
    }
  }

  /** A later match replaces the value held so far. */
  method KeepLast<T>(held: Option<T>, found: Option<T>) returns (r: Option<T>)
    ensures r == if found.Some? then found else held
  {
    r := held;
    if found.Some? {
      r := found;
    }
  }

  /** Only the first match is kept. */
  method KeepFirst<T>(held: Option<T>, found: Option<T>) returns (r: Option<T>)
    ensures r == if held.Some? then held else found
  {
    r := held;
    if found.Some? && held.None? {
      r := found;
    }
  }

  /** One pass of the loop body on one line. */
  method ScanLine(info: OcrInfo, log: string) returns (next: OcrInfo)
    ensures next.isOcr == (info.isOcr || HasOcrMarker(log))
    ensures next.totalPages == if TotalPagesIn(log).Some? then TotalPagesIn(log) else info.totalPages
    ensures next.currentPage == if CurrentPageIn(log).Some? then CurrentPageIn(log) else info.currentPage
    ensures next.startedAt == if info.startedAt.Some? then info.startedAt else StartIn(log)
    ensures next.fileName == if info.fileName.Some? then info.fileName else FileNameIn(log)
    ensures next.pageTimes == info.pageTimes + match PageTimeIn(log) case Some(t) => [t] case None => []
    ensures next.avgTimePerPage == info.avgTimePerPage
  {
    var isOcr, startedAt := ScanMarker(info.isOcr, info.startedAt, log);
    var totalPages := KeepLast(info.totalPages, TotalPagesIn(log));
    var currentPage := KeepLast(info.currentPage, CurrentPageIn(log));
    var pageTimes := info.pageTimes;
    var pageTime := PageTimeIn(log);
    if pageTime.Some? {
      pageTimes := pageTimes + [pageTime.value];
    }
    var fileName := KeepFirst(info.fileName, FileNameIn(log));
    next := OcrInfo(isOcr, currentPage, totalPages, info.avgTimePerPage, pageTimes, startedAt, fileName);
  }

  /** What the scan has gathered after reading `logs`. */
  predicate ScannedAs(logs: seq<string>, info: OcrInfo) {
    && info.isOcr == AnyMarker(logs)
    && info.totalPages == LastOf(logs, TotalPagesIn)
    && info.currentPage == LastOf(logs, CurrentPageIn)
    && info.startedAt == FirstOf(logs, StartIn)
    && info.fileName == FirstOf(logs, FileNameIn)
    && info.pageTimes == PageTimes(logs)
  }

  /** Reading one more line with `ScanLine` keeps `ScannedAs`. */
  lemma ScannedSnoc(logs: seq<string>, log: string, info: OcrInfo, next: OcrInfo)
    requires ScannedAs(logs, info)
    requires next.isOcr == (info.isOcr || HasOcrMarker(log))
    requires next.totalPages == if TotalPagesIn(log).Some? then TotalPagesIn(log) else info.totalPages
    requires next.currentPage == if CurrentPageIn(log).Some? then CurrentPageIn(log) else info.currentPage
    requires next.startedAt == if info.startedAt.Some? then info.startedAt else StartIn(log)
    requires next.fileName == if info.fileName.Some? then info.fileName else FileNameIn(log)
    requires next.pageTimes == info.pageTimes + match PageTimeIn(log) case Some(t) => [t] case None => []
    ensures ScannedAs(logs + [log], next)
  {
    AnyMarkerSnoc(logs, log);
    LastOfSnoc(logs, log, TotalPagesIn);
    LastOfSnoc(logs, log, CurrentPageIn);
    FirstOfSnoc(logs, log, StartIn);
    FirstOfSnoc(logs, log, FileNameIn);
    PageTimesSnoc(logs, log);
  }

  /** Scans the logs from first to last, as `extract_ocr_info_from_logs` does:
      OCR is detected if any line carries a marker, the page counters come from
      the last line reporting them, the start time and file name from the
      first, and the average page time is the mean of all page times. */
  method ExtractOcrInfoFromLogs(logs: seq<string>) returns (info: OcrInfo)
    ensures info.isOcr == AnyMarker(logs)
    ensures info.totalPages == LastOf(logs, TotalPagesIn)
    ensures info.currentPage == LastOf(logs, CurrentPageIn)
    ensures info.startedAt == FirstOf(logs, StartIn)
    ensures info.fileName == FirstOf(logs, FileNameIn)
    ensures info.pageTimes == PageTimes(logs)
    ensures info.avgTimePerPage ==
      if info.pageTimes == [] then None else Some(Sum(info.pageTimes) / |info.pageTimes| as real)
    ensures logs == [] ==> info == DefaultOcrInfo
  {
    info := DefaultOcrInfo;
    for i := 0 to |logs|
      invariant ScannedAs(logs[..i], info)
      invariant info.avgTimePerPage == None
    {
      var log := logs[i];
      TakeSnoc(logs, i);
      var next := ScanLine(info, log);
      ScannedSnoc(logs[..i], log, info, next);
      info := next;
    }
    assert logs[..|logs|] == logs;
    if info.pageTimes != [] {
      info := info.(avgTimePerPage := Some(Sum(info.pageTimes) / |info.pageTimes| as real));
    }
  }
}
