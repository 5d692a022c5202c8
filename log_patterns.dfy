/**
  The regular expressions that the backend's log scan searches for, matched by
  hand. Each pattern is a sequence of tokens: literal text, a run of one or
  more digits (`\d+`), a run of one or more non-space characters (`[^ ]+`),
  exactly n digits (`\d{n}`) and one character of a class (`[AP]`). The runs
  are the capture groups.

  `MatchAt` takes every run as long as it goes. In the patterns used here each
  run is followed by literal text starting with a character the run cannot
  contain ("well separated"), so the greedy run is the only one that can lead
  to a match, and `MatchAt` finds exactly the match that a backtracking regex
  engine finds (`MatchAtComplete`); `Search` takes the leftmost start, as
  Python's `re.search` does. Digits are ASCII digits.
 */
module LogPatterns {
  import opened Wrappers
  import opened Text

  datatype Token =
    | Lit(text: string)
    | Digits               // (\d+), captured
    | NonSpaces            // ([^ ]+), captured
    | DigitsN(count: nat)  // \d{count}
    | OneOf(chars: string) // [chars]

  /** Where a match ends, and the text of its runs in order. */
  datatype Match = Match(end: nat, captures: seq<string>)

  /** The character class of a run: digits, or anything but a space. */
  predicate InClass(c: char, digits: bool) {
    if digits then IsDigit(c) else c != ' '
  }

  predicate AllInClass(s: string, digits: bool) {
    forall k :: 0 <= k < |s| ==> InClass(s[k], digits)
  }

  /** The end of the longest run of class characters starting at i. */
  function RunEnd(s: string, i: nat, digits: bool): (r: nat)
    requires i <= |s|
    ensures i <= r <= |s|
    ensures forall k :: i <= k < r ==> InClass(s[k], digits)
    ensures r == |s| || !InClass(s[r], digits)
    decreases |s| - i
  {
    if i < |s| && InClass(s[i], digits) then RunEnd(s, i + 1, digits) else i
  }

  /** What the pattern matches: `text` is matched as a whole with these captures. */
  predicate Matches(pat: seq<Token>, text: string, caps: seq<string>)
    decreases |pat|
  {
    if pat == [] then text == [] && caps == []
    else
      match pat[0]
      case Lit(t) =>
        StartsWith(text, t) && Matches(pat[1..], text[|t|..], caps)
      case Digits =>
        |caps| >= 1 && |caps[0]| >= 1 && StartsWith(text, caps[0]) && AllInClass(caps[0], true)
        && Matches(pat[1..], text[|caps[0]|..], caps[1..])
      case NonSpaces =>
        |caps| >= 1 && |caps[0]| >= 1 && StartsWith(text, caps[0]) && AllInClass(caps[0], false)
        && Matches(pat[1..], text[|caps[0]|..], caps[1..])
      case DigitsN(n) =>
        n <= |text| && AllDigits(text[..n]) && Matches(pat[1..], text[n..], caps)
      case OneOf(cs) =>
        |text| >= 1 && text[0] in cs && Matches(pat[1..], text[1..], caps)
  }

  /** Every run is followed by literal text whose first character the run cannot contain. */
  predicate WellSeparated(pat: seq<Token>)
    decreases |pat|
  {
    if pat == [] then true
    else
      (match pat[0]
       case Digits => |pat| >= 2 && pat[1].Lit? && |pat[1].text| >= 1 && !InClass(pat[1].text[0], true)
       case NonSpaces => |pat| >= 2 && pat[1].Lit? && |pat[1].text| >= 1 && !InClass(pat[1].text[0], false)
       case _ => true)
      && WellSeparated(pat[1..])
  }

  /** The token at k is not a run, or is followed by literal text its class excludes. */
  predicate SeparatedAt(pat: seq<Token>, k: nat)
    requires k < |pat|
  {
    match pat[k]
    case Digits => k + 1 < |pat| && pat[k + 1].Lit? && |pat[k + 1].text| >= 1 && !InClass(pat[k + 1].text[0], true)
    case NonSpaces => k + 1 < |pat| && pat[k + 1].Lit? && |pat[k + 1].text| >= 1 && !InClass(pat[k + 1].text[0], false)
    case _ => true
  }

  /** A pattern separated at every position is well separated. */
  lemma {:induction false} SeparatedEverywhere(pat: seq<Token>)
    requires forall k :: 0 <= k < |pat| ==> SeparatedAt(pat, k)
    ensures WellSeparated(pat)
    decreases |pat|
  {
    if pat != [] {
      assert SeparatedAt(pat, 0);
      forall k | 0 <= k < |pat| - 1
        ensures SeparatedAt(pat[1..], k)
      {
        assert SeparatedAt(pat, k + 1);
      }
      SeparatedEverywhere(pat[1..]);
    }
  }

  /** Matches the pattern at index i, taking every run as long as it goes. */
  function MatchAt(s: string, i: nat, pat: seq<Token>): (r: Option<Match>)
    requires i <= |s|
    ensures r.Some? ==> i <= r.value.end <= |s|
    decreases |pat|
  {
    if pat == [] then Some(Match(i, []))
    else
      match pat[0]
      case Lit(t) =>
        if OccursAt(s, t, i) then MatchAt(s, i + |t|, pat[1..]) else None
      case Digits => RunAt(s, i, pat, true)
      case NonSpaces => RunAt(s, i, pat, false)
      case DigitsN(n) =>
        if i + n <= |s| && AllDigits(s[i..i + n]) then MatchAt(s, i + n, pat[1..]) else None
      case OneOf(cs) =>
        if i < |s| && s[i] in cs then MatchAt(s, i + 1, pat[1..]) else None
  }

  /** A run token at the head of the pattern: the longest run, then the rest. */
  function RunAt(s: string, i: nat, pat: seq<Token>, digits: bool): (r: Option<Match>)
    requires i <= |s| && pat != []
    ensures r.Some? ==> i <= r.value.end <= |s|
    decreases |pat|, 0
  {
    var j := RunEnd(s, i, digits);
    if j == i then None
    else
      match MatchAt(s, j, pat[1..])
      case Some(m) => Some(Match(m.end, [s[i..j]] + m.captures))
      case None => None
  }

  /** What MatchAt finds is a match of the pattern. */
  lemma {:induction false} MatchAtSound(s: string, i: nat, pat: seq<Token>)
    requires i <= |s| && MatchAt(s, i, pat).Some?
    ensures Matches(pat, s[i..MatchAt(s, i, pat).value.end], MatchAt(s, i, pat).value.captures)
    decreases |pat|, 1
  {
    if pat != [] {
      match pat[0]
      case Lit(t) => LitSound(s, i, pat, t);
      case Digits => RunSound(s, i, pat, true);
      case NonSpaces => RunSound(s, i, pat, false);
      case DigitsN(n) => DigitsNSound(s, i, pat, n);
      case OneOf(cs) => OneOfSound(s, i, pat, cs);
    }
  }

  /** The case of literal text at the head of the pattern. */
  lemma {:induction false} LitSound(s: string, i: nat, pat: seq<Token>, t: string)
    requires i <= |s| && pat != [] && pat[0] == Lit(t) && MatchAt(s, i, pat).Some?
    ensures Matches(pat, s[i..MatchAt(s, i, pat).value.end], MatchAt(s, i, pat).value.captures)
    decreases |pat|, 0
  {
    var m := MatchAt(s, i, pat).value;
    assert OccursAt(s, t, i) && MatchAt(s, i + |t|, pat[1..]) == Some(m);
    MatchAtSound(s, i + |t|, pat[1..]);
    var text := s[i..m.end];
    assert text[|t|..] == s[i + |t|..m.end];
    assert text[..|t|] == s[i..i + |t|];
  }

  /** The case of exactly n digits at the head of the pattern. */
  lemma {:induction false} DigitsNSound(s: string, i: nat, pat: seq<Token>, n: nat)
    requires i <= |s| && pat != [] && pat[0] == DigitsN(n) && MatchAt(s, i, pat).Some?
    ensures Matches(pat, s[i..MatchAt(s, i, pat).value.end], MatchAt(s, i, pat).value.captures)
    decreases |pat|, 0
  {
    var m := MatchAt(s, i, pat).value;
    assert i + n <= |s| && AllDigits(s[i..i + n]) && MatchAt(s, i + n, pat[1..]) == Some(m);
    MatchAtSound(s, i + n, pat[1..]);
    var text := s[i..m.end];
    assert text[n..] == s[i + n..m.end];
    assert text[..n] == s[i..i + n];
  }

  /** The case of one character of a class at the head of the pattern. */
  lemma {:induction false} OneOfSound(s: string, i: nat, pat: seq<Token>, cs: string)
    requires i <= |s| && pat != [] && pat[0] == OneOf(cs) && MatchAt(s, i, pat).Some?
    ensures Matches(pat, s[i..MatchAt(s, i, pat).value.end], MatchAt(s, i, pat).value.captures)
    decreases |pat|, 0
  {
    var m := MatchAt(s, i, pat).value;
    assert i < |s| && s[i] in cs && MatchAt(s, i + 1, pat[1..]) == Some(m);
    MatchAtSound(s, i + 1, pat[1..]);
    var text := s[i..m.end];
    assert text[1..] == s[i + 1..m.end];
    assert text[0] == s[i];
  }

  lemma {:induction false} RunSound(s: string, i: nat, pat: seq<Token>, digits: bool)
    requires i <= |s| && pat != [] && (if digits then pat[0].Digits? else pat[0].NonSpaces?)
    requires MatchAt(s, i, pat).Some?
    ensures Matches(pat, s[i..MatchAt(s, i, pat).value.end], MatchAt(s, i, pat).value.captures)
    decreases |pat|, 0
  {
    var j := RunEnd(s, i, digits);
    assert MatchAt(s, i, pat) == RunAt(s, i, pat, digits);
    var m := MatchAt(s, i, pat).value;
    var rest := MatchAt(s, j, pat[1..]).value;
    MatchAtSound(s, j, pat[1..]);
    var text := s[i..m.end];
    assert m.captures[0] == s[i..j] && m.captures[1..] == rest.captures;
    assert text[..j - i] == s[i..j];
    assert text[j - i..] == s[j..m.end];
    assert AllInClass(s[i..j], digits);
  }

  /** A well-separated pattern matched at i is found there by MatchAt, with the same end and captures. */
  lemma {:induction false} MatchAtComplete(s: string, i: nat, j: nat, pat: seq<Token>, caps: seq<string>)
    requires i <= j <= |s| && WellSeparated(pat) && Matches(pat, s[i..j], caps)
    ensures MatchAt(s, i, pat) == Some(Match(j, caps))
    decreases |pat|, 1
  {
    if pat != [] {
      match pat[0]
      case Lit(t) => LitComplete(s, i, j, pat, caps, t);
      case Digits => RunComplete(s, i, j, pat, caps, true);
      case NonSpaces => RunComplete(s, i, j, pat, caps, false);
      case DigitsN(n) => DigitsNComplete(s, i, j, pat, caps, n);
      case OneOf(cs) => OneOfComplete(s, i, j, pat, caps, cs);
    }
  }

  /** The case of literal text at the head of the pattern. */
  lemma {:induction false} LitComplete(s: string, i: nat, j: nat, pat: seq<Token>, caps: seq<string>, t: string)
    requires i <= j <= |s| && pat != [] && pat[0] == Lit(t)
    requires WellSeparated(pat) && Matches(pat, s[i..j], caps)
    ensures MatchAt(s, i, pat) == Some(Match(j, caps))
    decreases |pat|, 0
  {
    var text := s[i..j];
    assert StartsWith(text, t) && Matches(pat[1..], text[|t|..], caps);
    assert text[|t|..] == s[i + |t|..j] && text[..|t|] == s[i..i + |t|];
    MatchAtComplete(s, i + |t|, j, pat[1..], caps);
  }

  /** The case of exactly n digits at the head of the pattern. */
  lemma {:induction false} DigitsNComplete(s: string, i: nat, j: nat, pat: seq<Token>, caps: seq<string>, n: nat)
    requires i <= j <= |s| && pat != [] && pat[0] == DigitsN(n)
    requires WellSeparated(pat) && Matches(pat, s[i..j], caps)
    ensures MatchAt(s, i, pat) == Some(Match(j, caps))
    decreases |pat|, 0
  {
    var text := s[i..j];
    assert n <= |text| && AllDigits(text[..n]) && Matches(pat[1..], text[n..], caps);
    assert text[n..] == s[i + n..j] && text[..n] == s[i..i + n];
    MatchAtComplete(s, i + n, j, pat[1..], caps);
  }

  /** The case of one character of a class at the head of the pattern. */
  lemma {:induction false} OneOfComplete(s: string, i: nat, j: nat, pat: seq<Token>, caps: seq<string>, cs: string)
    requires i <= j <= |s| && pat != [] && pat[0] == OneOf(cs)
    requires WellSeparated(pat) && Matches(pat, s[i..j], caps)
    ensures MatchAt(s, i, pat) == Some(Match(j, caps))
    decreases |pat|, 0
  {
    var text := s[i..j];
    assert |text| >= 1 && text[0] in cs && Matches(pat[1..], text[1..], caps);
    assert text[1..] == s[i + 1..j] && text[0] == s[i];
    MatchAtComplete(s, i + 1, j, pat[1..], caps);
  }

  lemma {:induction false} RunComplete(s: string, i: nat, j: nat, pat: seq<Token>, caps: seq<string>, digits: bool)
    requires i <= j <= |s| && pat != [] && (if digits then pat[0].Digits? else pat[0].NonSpaces?)
    requires WellSeparated(pat) && Matches(pat, s[i..j], caps)
    ensures MatchAt(s, i, pat) == Some(Match(j, caps))
    decreases |pat|, 0
  {
    var text := s[i..j];
    var k := |caps[0]|;
    var t := pat[1].text;
    assert text[..k] == caps[0] && text[..k] == s[i..i + k];
    assert Matches(pat[1..], text[k..], caps[1..]);
    assert text[k..] == s[i + k..j];
    // the literal after the run starts right after it, with a character outside the class
    assert StartsWith(s[i + k..j], t);
    assert s[i + k] == t[0] && !InClass(s[i + k], digits);
    forall q | i <= q < i + k ensures InClass(s[q], digits) {
      assert s[q] == caps[0][q - i];
    }
    RunEndAt(s, i, i + k, digits);
    assert WellSeparated(pat[1..]);
    MatchAtComplete(s, i + k, j, pat[1..], caps[1..]);
    assert [s[i..i + k]] + caps[1..] == caps;
  }

  /** A run that stops at a character outside its class ends there. */
  lemma {:induction false} RunEndAt(s: string, i: nat, e: nat, digits: bool)
    requires i <= e < |s| && !InClass(s[e], digits)
    requires forall q :: i <= q < e ==> InClass(s[q], digits)
    ensures RunEnd(s, i, digits) == e
    decreases e - i
  {
    if i < e {
      RunEndAt(s, i + 1, e, digits);
    }
  }

  /** The leftmost index at or after i where the pattern matches, and that match. */
  function SearchFrom(s: string, i: nat, pat: seq<Token>): (r: Option<(nat, Match)>)
    requires i <= |s|
    ensures r.Some? ==>
      && i <= r.value.0 <= |s| && MatchAt(s, r.value.0, pat) == Some(r.value.1)
      && forall k :: i <= k < r.value.0 ==> MatchAt(s, k, pat).None?
    ensures r.None? ==> forall k :: i <= k <= |s| ==> MatchAt(s, k, pat).None?
    decreases |s| - i
  {
    match MatchAt(s, i, pat)
    case Some(m) => Some((i, m))
    case None => if i == |s| then None else SearchFrom(s, i + 1, pat)
  }

  /** Python's `re.search(pattern, s)`: the leftmost match. */
  function Search(s: string, pat: seq<Token>): Option<(nat, Match)> {
    SearchFrom(s, 0, pat)
  }

  /** For a well-separated pattern, Search finds a match exactly when the pattern
      matches some part of the line, and no part starting further left matches. */
  lemma SearchLeftmost(s: string, pat: seq<Token>, i: nat, j: nat, caps: seq<string>)
    requires WellSeparated(pat) && i <= j <= |s| && Matches(pat, s[i..j], caps)
    ensures Search(s, pat).Some? && Search(s, pat).value.0 <= i
    ensures Search(s, pat).value.0 == i ==> Search(s, pat).value.1 == Match(j, caps)
  {
    MatchAtComplete(s, i, j, pat, caps);
  }

  /** The number of capture groups of a pattern. */
  function CaptureCount(pat: seq<Token>): nat {
    if pat == [] then 0
    else (if pat[0].Digits? || pat[0].NonSpaces? then 1 else 0) + CaptureCount(pat[1..])
  }

  lemma {:induction false} CapturesCounted(pat: seq<Token>, text: string, caps: seq<string>)
    requires Matches(pat, text, caps)
    ensures |caps| == CaptureCount(pat)
    decreases |pat|
  {
    if pat != [] {
      match pat[0]
      case Lit(t) => CapturesCounted(pat[1..], text[|t|..], caps);
      case Digits => CapturesCounted(pat[1..], text[|caps[0]|..], caps[1..]);
      case NonSpaces => CapturesCounted(pat[1..], text[|caps[0]|..], caps[1..]);
      case DigitsN(n) => CapturesCounted(pat[1..], text[n..], caps);
      case OneOf(cs) => CapturesCounted(pat[1..], text[1..], caps);
    }
  }

  /** A literal in front of a match matches the literal's text in front of it. */
  lemma MatchesLit(t: string, rest: seq<Token>, text: string, caps: seq<string>)
    requires Matches(rest, text, caps)
    ensures Matches([Lit(t)] + rest, t + text, caps)
  {
    assert ([Lit(t)] + rest)[1..] == rest;
    assert (t + text)[..|t|] == t && (t + text)[|t|..] == text;
  }

  /** A digit run in front of a match captures the digits in front of it. */
  lemma MatchesDigits(c: string, rest: seq<Token>, text: string, caps: seq<string>)
    requires |c| >= 1 && AllDigits(c) && Matches(rest, text, caps)
    ensures Matches([Digits] + rest, c + text, [c] + caps)
  {
    assert ([Digits] + rest)[1..] == rest && ([c] + caps)[1..] == caps;
    assert (c + text)[..|c|] == c && (c + text)[|c|..] == text;
    assert AllInClass(c, true);
  }

  /** Exactly n digits in front of a match. */
  lemma MatchesDigitsN(d: string, rest: seq<Token>, text: string, caps: seq<string>)
    requires AllDigits(d) && Matches(rest, text, caps)
    ensures Matches([DigitsN(|d|)] + rest, d + text, caps)
  {
    assert ([DigitsN(|d|)] + rest)[1..] == rest;
    assert (d + text)[..|d|] == d && (d + text)[|d|..] == text;
  }
}
