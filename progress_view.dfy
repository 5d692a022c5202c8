/**
  The progress widget of the web client (`FileUploadProgress`), as a pure
  function from the tracker's four state fields to what the widget shows: the
  error, "ready", "no data", the OCR page view of one file, or the averaged
  view of all files.

  JavaScript iterates an object with integer-like keys in ascending key
  order, so "the first value" of a snapshot is the entry of its least file id.
 */
module ProgressView {
  import opened Wrappers
  import opened UploadProgress

  // ---------------------------------------------------------------------
  // Key order of a snapshot
  // ---------------------------------------------------------------------

  /** A least id of a non-empty set, found by recursion: it exists. */
  ghost function Least(ks: set<FileId>): (k: FileId)
    requires ks != {}
    ensures k in ks && forall j :: j in ks ==> k <= j
    decreases |ks|
  {
    var x :| x in ks;
    if ks == {x} then x
    else
      var m := Least(ks - {x});
      assert forall j :: j in ks ==> j == x || j in ks - {x};
      if x < m then x else m
  }

  /** The least id of a non-empty set of ids. */
  function MinKey(ks: set<FileId>): (k: FileId)
    requires ks != {}
    ensures k in ks && forall j :: j in ks ==> k <= j
  {
    assert Least(ks) in ks && forall j :: j in ks ==> Least(ks) <= j;
    var k :| k in ks && forall j :: j in ks ==> k <= j;
    k
  }

  /** The ids of a set in ascending order: JavaScript's `Object.keys` order. */
  function SortedKeys(ks: set<FileId>): (r: seq<FileId>)
    ensures |r| == |ks|
    ensures forall i :: 0 <= i < |r| ==> r[i] in ks
    ensures forall k :: k in ks ==> k in r
    decreases |ks|
  {
    if ks == {} then []
    else
      var m := MinKey(ks);
      assert |ks - {m}| == |ks| - 1;
      [m] + SortedKeys(ks - {m})
  }

  predicate Ascending(r: seq<FileId>) {
    forall i, j :: 0 <= i < j < |r| ==> r[i] < r[j]
  }

  /** The ids come out strictly ascending, so each appears once. */
  lemma {:induction false} SortedKeysAscending(ks: set<FileId>)
    ensures Ascending(SortedKeys(ks))
    decreases |ks|
  {
    if ks != {} {
      var m := MinKey(ks);
      var rest := SortedKeys(ks - {m});
      SortedKeysAscending(ks - {m});
      var r := SortedKeys(ks);
      assert r == [m] + rest;
      forall i, j | 0 <= i < j < |r| ensures r[i] < r[j] {
        assert r[j] == rest[j - 1] && rest[j - 1] in ks - {m};
        if i > 0 {
          assert r[i] == rest[i - 1] && 0 <= i - 1 < j - 1 < |rest| && Ascending(rest);
        } else {
          assert r[i] == m && m <= rest[j - 1] && m != rest[j - 1];
        }
      }
    }
  }

  /** `Object.values(progress)`. */
  function Values(s: Snapshot): (vs: seq<FileProgress>)
    ensures |vs| == |s|
  {
    var keys := SortedKeys(s.Keys);
    seq(|keys|, i requires 0 <= i < |keys| => s[keys[i]])
  }

  // ---------------------------------------------------------------------
  // Arithmetic of the view
  // ---------------------------------------------------------------------

  /** The floor of a / b. */
  function FloorDiv(a: int, b: int): (q: int)
    requires b != 0
    ensures b > 0 ==> b * q <= a < b * q + b
    ensures b < 0 ==> b * q >= a > b * q + b
  {
    if b > 0 then a / b else (-a) / (-b)
  }

  /** `Math.round(a / b)`: the floor of a / b + 1/2. */
  function RoundDiv(a: int, b: int): (r: int)
    requires b != 0
    ensures b > 0 ==> 2 * b * r - b <= 2 * a < 2 * b * r + b
  {
    FloorDiv(2 * a + b, 2 * b)
  }

  /** `Math.ceil(x)`. */
  function Ceil(x: real): (r: int)
    ensures (r - 1) as real < x <= r as real
  {
    -((-x).Floor)
  }

  /** JavaScript truthiness of an optional number: present and not zero. */
  predicate Truthy(n: Option<int>) {
    n.Some? && n.value != 0
  }

  /** `n || 1`. */
  function OrOne(n: Option<int>): (r: int)
    ensures r != 0
  {
    if Truthy(n) then n.value else 1
  }

  /** The OCR percentage: Math.round((current || 1) / (total || 1) * 100), unclamped. */
  function PageProgress(f: FileProgress): int {
    RoundDiv(100 * OrOne(f.ocrCurrentPage), OrOne(f.ocrTotalPages))
  }

  /** (total - current) * average seconds, when all three are truthy. */
  function EstimatedSecondsLeft(f: FileProgress): Option<real> {
    if f.ocrAvgPageTime.Some? && f.ocrAvgPageTime.value != 0.0
       && Truthy(f.ocrCurrentPage) && Truthy(f.ocrTotalPages)
    then Some((f.ocrTotalPages.value - f.ocrCurrentPage.value) as real * f.ocrAvgPageTime.value)
    else None
  }

  /** Whole minutes left, rounded up; none when there is no non-zero estimate. */
  function MinutesLeft(f: FileProgress): Option<int> {
    match EstimatedSecondsLeft(f)
    case Some(seconds) => if seconds != 0.0 then Some(Ceil(seconds / 60.0)) else None
    case None => None
  }

  /** The "~N minute(s) remaining" label. */
  datatype RemainingLabel = RemainingLabel(minutes: int, unit: string)

  function Remaining(minutesLeft: Option<int>): Option<RemainingLabel> {
    if Truthy(minutesLeft) then
      var m := minutesLeft.value;
      Some(RemainingLabel(m, if m == 1 then "minute" else "minutes"))
    else None
  }

  /** The sum of `progress_percentage || 0` over the entries. */
  function SumPercent(vs: seq<FileProgress>): int {
    if vs == [] then 0 else SumPercent(vs[..|vs| - 1]) + vs[|vs| - 1].progressPercentage.GetOr(0)
  }

  /** Math.round(sum / Math.max(1, count)). */
  function OverallProgress(s: Snapshot): int {
    RoundDiv(SumPercent(Values(s)), if |s| > 1 then |s| else 1)
  }

  // ---------------------------------------------------------------------
  // The view
  // ---------------------------------------------------------------------

  datatype FileRow = FileRow(fileName: Option<string>, progressPercentage: Option<int>)

  datatype View =
    | ErrorView(message: string)
    | ReadyView
    | NoDataView
    | OcrView(file: FileProgress, pageProgress: int, minutesLeft: Option<int>, remaining: Option<RemainingLabel>)
    | AveragedView(overall: int, rows: seq<FileRow>, estimatedCompletion: Option<string>)

  /** JavaScript truthiness of the error: present and not the empty string. */
  predicate ErrorShown(error: Option<string>) {
    error.Some? && error.value != ""
  }

  function OcrFiles(vs: seq<FileProgress>): (r: seq<FileProgress>)
    ensures |r| <= |vs|
  {
    if vs == [] then []
    else (if vs[0].isOcrProcessing then [vs[0]] else []) + OcrFiles(vs[1..])
  }

  function Rows(vs: seq<FileProgress>): (r: seq<FileRow>)
    ensures |r| == |vs|
    ensures forall i :: 0 <= i < |vs| ==> r[i] == FileRow(vs[i].fileName, vs[i].progressPercentage)
  {
    seq(|vs|, i requires 0 <= i < |vs| => FileRow(vs[i].fileName, vs[i].progressPercentage))
  }

  function OcrViewOf(f: FileProgress): View {
    var minutes := MinutesLeft(f);
    OcrView(f, PageProgress(f), minutes, Remaining(minutes))
  }

  /** The estimated completion of the first entry, when it has a non-empty one. */
  function FirstEstimate(vs: seq<FileProgress>): Option<string> {
    if |vs| > 0 && vs[0].estimatedCompletionTime.Some? && vs[0].estimatedCompletionTime.value != ""
    then vs[0].estimatedCompletionTime else None
  }

  /** The ids of the entries in OCR processing. */
  function OcrKeys(s: Snapshot): set<FileId> {
    set k | k in s && s[k].isOcrProcessing
  }

  /** What the widget shows for the tracker's state. */
  function Derive(progress: Snapshot, isPolling: bool, isComplete: bool, error: Option<string>): (v: View)
    ensures v.ErrorView? <==> ErrorShown(error)
    ensures v.ErrorView? ==> v.message == error.value
    ensures v.ReadyView? <==> !ErrorShown(error) && !isPolling && isComplete
    ensures v.NoDataView? <==> !ErrorShown(error) && !isPolling && !isComplete && progress == map[]
    ensures v.OcrView? <==>
      && !ErrorShown(error) && !(!isPolling && isComplete) && !(!isPolling && progress == map[])
      && OcrKeys(progress) != {}
    ensures v.OcrView? ==> v.file == progress[MinKey(OcrKeys(progress))]
    ensures v.OcrView? ==>
      && v.pageProgress == PageProgress(v.file)
      && v.minutesLeft == MinutesLeft(v.file)
      && v.remaining == Remaining(v.minutesLeft)
    ensures v.AveragedView? ==> v.overall == OverallProgress(progress) && |v.rows| == |progress|
    ensures v.AveragedView? ==>
      v.rows == Rows(Values(progress)) && v.estimatedCompletion == FirstEstimate(Values(progress))
  {
    if ErrorShown(error) then ErrorView(error.value)
    else if !isPolling && isComplete then ReadyView
    else if !isPolling && |progress| == 0 then NoDataView
    else
      var vs := Values(progress);
      var ocr := OcrFiles(vs);
      OcrChoice(progress);
      if |ocr| > 0 then OcrViewOf(ocr[0])
      else AveragedView(OverallProgress(progress), Rows(vs), FirstEstimate(vs))
  }

  // ---------------------------------------------------------------------
  // Properties
  // ---------------------------------------------------------------------

  /** The first OCR entry of a sequence is the one at its first OCR index. */
  lemma {:induction false} OcrFilesHead(vs: seq<FileProgress>)
    ensures OcrFiles(vs) == [] <==> forall i :: 0 <= i < |vs| ==> !vs[i].isOcrProcessing
    ensures OcrFiles(vs) != [] ==>
      exists j :: 0 <= j < |vs| && vs[j].isOcrProcessing && OcrFiles(vs)[0] == vs[j]
        && forall i :: 0 <= i < j ==> !vs[i].isOcrProcessing
  {
    if vs != [] {
      OcrFilesHead(vs[1..]);
      if !vs[0].isOcrProcessing && OcrFiles(vs[1..]) != [] {
        var j :| 0 <= j < |vs[1..]| && vs[1..][j].isOcrProcessing && OcrFiles(vs[1..])[0] == vs[1..][j]
          && forall i :: 0 <= i < j ==> !vs[1..][i].isOcrProcessing;
        assert vs[j + 1] == vs[1..][j];
        assert forall i :: 0 <= i < j + 1 ==> !vs[i].isOcrProcessing by {
          forall i | 0 <= i < j + 1 ensures !vs[i].isOcrProcessing {
            if i > 0 { assert vs[i] == vs[1..][i - 1]; }
          }
        }
      }
      if OcrFiles(vs[1..]) == [] && !vs[0].isOcrProcessing {
        forall i | 0 <= i < |vs| ensures !vs[i].isOcrProcessing {
          if i > 0 { assert vs[i] == vs[1..][i - 1]; }
        }
      }
    }
  }

  /** The least OCR id stands at some index of the values. */
  lemma OcrKeyIndexed(s: Snapshot, k: FileId)
    requires k in OcrKeys(s)
    ensures exists i ::
              0 <= i < |SortedKeys(s.Keys)| && SortedKeys(s.Keys)[i] == k && Values(s)[i].isOcrProcessing
  {
    var keys := SortedKeys(s.Keys);
    assert k in keys;
    var i :| 0 <= i < |keys| && keys[i] == k;
    assert Values(s)[i] == s[k];
  }

  /** In ascending keys, the first key of a set holding only listed keys is its least. */
  lemma FirstMarkedIsLeast(keys: seq<FileId>, marked: set<FileId>, j: nat)
    requires Ascending(keys) && j < |keys| && keys[j] in marked
    requires forall i :: 0 <= i < j ==> keys[i] !in marked
    requires forall k :: k in marked ==> k in keys
    ensures forall k :: k in marked ==> keys[j] <= k
  {
    forall k | k in marked ensures keys[j] <= k {
      var i :| 0 <= i < |keys| && keys[i] == k;
      if i > j {
        assert keys[j] < keys[i];
      }
    }
  }

  /** The first value in OCR processing is the entry of the least OCR id. */
  lemma FirstOcrIsLeast(s: Snapshot, j: nat)
    requires j < |Values(s)| && Values(s)[j].isOcrProcessing
    requires forall i :: 0 <= i < j ==> !Values(s)[i].isOcrProcessing
    ensures OcrKeys(s) != {} && Values(s)[j] == s[MinKey(OcrKeys(s))]
  {
    var keys := SortedKeys(s.Keys);
    var vs := Values(s);
    var ocr := OcrKeys(s);
    SortedKeysAscending(s.Keys);
    assert vs[j] == s[keys[j]];
    assert keys[j] in ocr;
    forall i | 0 <= i < j ensures keys[i] !in ocr {
      assert vs[i] == s[keys[i]];
    }
    assert forall k :: k in ocr ==> k in s.Keys;
    FirstMarkedIsLeast(keys, ocr, j);
    var least := MinKey(ocr);
    assert least <= keys[j] && keys[j] <= least;
  }

  /** The OCR view shows the entry with the least id among those in OCR processing. */
  lemma OcrChoice(s: Snapshot)
    ensures OcrFiles(Values(s)) != [] <==> OcrKeys(s) != {}
    ensures OcrFiles(Values(s)) != [] ==> OcrFiles(Values(s))[0] == s[MinKey(OcrKeys(s))]
  {
    var vs := Values(s);
    OcrFilesHead(vs);
    if OcrKeys(s) != {} {
      OcrKeyIndexed(s, MinKey(OcrKeys(s)));
    }
    if OcrFiles(vs) != [] {
      var j :| 0 <= j < |vs| && vs[j].isOcrProcessing && OcrFiles(vs)[0] == vs[j]
        && forall i :: 0 <= i < j ==> !vs[i].isOcrProcessing;
      FirstOcrIsLeast(s, j);
    }
  }


  /** Missing or zero page counters count as 1, and the result is not clamped. */
  lemma PageProgressExamples(f: FileProgress)
    ensures f.ocrCurrentPage == Some(3) && f.ocrTotalPages == Some(10) ==> PageProgress(f) == 30
    ensures f.ocrCurrentPage == None && f.ocrTotalPages == None ==> PageProgress(f) == 100
    ensures f.ocrCurrentPage == Some(0) && f.ocrTotalPages == Some(0) ==> PageProgress(f) == 100
    ensures f.ocrCurrentPage == Some(3) && f.ocrTotalPages == None ==> PageProgress(f) == 300
    ensures f.ocrCurrentPage == Some(11) && f.ocrTotalPages == Some(10) ==> PageProgress(f) == 110
  {
  }

  /** The page percentage is the exact ratio rounded half up, so it lies in
      [0, 100] when 0 <= current <= total and is at least 100 when current > total. */
  lemma PageProgressBounds(f: FileProgress)
    requires f.ocrCurrentPage.Some? && f.ocrTotalPages.Some?
    requires 0 < f.ocrCurrentPage.value && 0 < f.ocrTotalPages.value
    ensures f.ocrCurrentPage.value <= f.ocrTotalPages.value ==> 0 <= PageProgress(f) <= 100
    ensures f.ocrCurrentPage.value > f.ocrTotalPages.value ==> PageProgress(f) >= 100
  {
    var c, t := f.ocrCurrentPage.value, f.ocrTotalPages.value;
    assert PageProgress(f) == RoundDiv(100 * c, t);
    if c <= t {
      RoundDivBounds(100 * c, t);
    } else {
      RoundDivAtLeast(100 * c, t);
    }
  }

  /** Rounding a / n for a >= 100 * n gives at least 100. */
  lemma RoundDivAtLeast(a: int, n: int)
    requires n > 0 && a >= 100 * n
    ensures RoundDiv(a, n) >= 100
  {
    var r := RoundDiv(a, n);
    if r < 100 {
      MulMono(2 * n, r, 99);
      assert false;
    }
  }

  lemma MulMono(a: int, x: int, y: int)
    requires a > 0 && x <= y
    ensures a * x <= a * y
  {
  }

  /** The remaining minutes are the estimate in seconds rounded up to whole
      minutes, and appear exactly when the estimate exists and is not zero. */
  lemma MinutesLeftMeaning(f: FileProgress)
    ensures MinutesLeft(f).Some? <==> EstimatedSecondsLeft(f).Some? && EstimatedSecondsLeft(f).value != 0.0
    ensures MinutesLeft(f).Some? ==>
      var seconds := EstimatedSecondsLeft(f).value;
      (MinutesLeft(f).value - 1) as real * 60.0 < seconds <= MinutesLeft(f).value as real * 60.0
  {
  }

  /** Scenario: page 3 of 10 at 12 seconds a page shows 30% and "2 minutes". */
  lemma OcrScenario(f: FileProgress)
    requires f.isOcrProcessing && f.ocrCurrentPage == Some(3) && f.ocrTotalPages == Some(10)
    requires f.ocrAvgPageTime == Some(12.0)
    ensures OcrViewOf(f) == OcrView(f, 30, Some(2), Some(RemainingLabel(2, "minutes")))
  {
    assert EstimatedSecondsLeft(f) == Some(84.0);
    assert Ceil(84.0 / 60.0) == 2;
  }

  /** The label shows exactly for a non-zero number of minutes, singular only for one. */
  lemma RemainingUnit(m: int)
    ensures Remaining(Some(m)).Some? <==> m != 0
    ensures Remaining(Some(m)).Some? ==> Remaining(Some(m)).value.minutes == m
    ensures Remaining(Some(m)).Some? ==> (Remaining(Some(m)).value.unit == "minute" <==> m == 1)
    ensures Remaining(None) == None
  {
  }

  lemma {:induction false} SumPercentBounds(vs: seq<FileProgress>)
    requires forall i :: 0 <= i < |vs| ==> 0 <= vs[i].progressPercentage.GetOr(0) <= 100
    ensures 0 <= SumPercent(vs) <= 100 * |vs|
  {
    if vs != [] {
      SumPercentBounds(vs[..|vs| - 1]);
    }
  }

  /** The overall figure is the mean percentage rounded half up; an empty
      snapshot gives 0. */
  lemma OverallProgressMean(s: Snapshot)
    ensures s == map[] ==> OverallProgress(s) == 0
    ensures |s| > 0 ==>
      2 * |s| * OverallProgress(s) - |s| <= 2 * SumPercent(Values(s)) < 2 * |s| * OverallProgress(s) + |s|
  {
    if s == map[] {
      assert Values(s) == [];
    }
  }

  /** Percentages within [0, 100] give an overall figure within [0, 100]. */
  lemma OverallProgressBounds(s: Snapshot)
    requires forall k :: k in s ==> 0 <= s[k].progressPercentage.GetOr(0) <= 100
    ensures 0 <= OverallProgress(s) <= 100
  {
    var vs := Values(s);
    var keys := SortedKeys(s.Keys);
    forall i | 0 <= i < |vs| ensures 0 <= vs[i].progressPercentage.GetOr(0) <= 100 {
      assert vs[i] == s[keys[i]];
    }
    SumPercentBounds(vs);
    OverallProgressMean(s);
    RoundDivBounds(SumPercent(vs), if |s| > 1 then |s| else 1);
  }

  /** Rounding a / n for 0 <= a <= 100 * n stays within [0, 100]. */
  lemma RoundDivBounds(a: int, n: int)
    requires n > 0 && 0 <= a <= 100 * n
    ensures 0 <= RoundDiv(a, n) <= 100
  {
    var r := RoundDiv(a, n);
    if r > 100 {
      MulMono(2 * n, 101, r);
      assert false;
    }
    if r < 0 {
      MulMono(2 * n, r, -1);
      assert false;
    }
  }

  /** Two ids are enumerated smaller first. */
  lemma SortedKeysPair(x: FileId, y: FileId)
    requires x < y
    ensures SortedKeys({x, y}) == [x, y]
  {
    assert MinKey({x, y}) == x;
    assert {x, y} - {x} == {y};
    assert MinKey({y}) == y;
    assert {y} - {y} == {};
  }

  /** Scenario: two files at 40% and 60% average to 50%. */
  lemma AverageScenario(a: FileProgress, b: FileProgress)
    requires a.progressPercentage == Some(40) && b.progressPercentage == Some(60)
    ensures OverallProgress(map[101 := a, 102 := b]) == 50
  {
    var s := map[101 := a, 102 := b];
    assert Values(s) == [a, b] by {
      assert s.Keys == {101, 102};
      SortedKeysPair(101, 102);
      assert Values(s)[0] == a && Values(s)[1] == b;
    }
    assert SumPercent([a, b]) == 100 by {
      assert [a, b][..1] == [a] && [a][..0] == [];
      assert SumPercent([a]) == 40;
    }
  }
}
