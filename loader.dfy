/**
 * The loading loop of the report generator: walk the directory listing in
 * order, keep only the names ending in `-report.json`, read each of those as
 * a record and append it. The first selected file that cannot be read ends
 * the run; files with other names (screenshots, for one) are never read.
 */
module Loader {
  import opened Records

  const ReportSuffix := "-report.json"

  /** `name.endsWith(suffix)`. */
  predicate EndsWith(name: string, suffix: string)
  {
    |suffix| <= |name| && name[|name| - |suffix|..] == suffix
  }

  predicate IsReportFile(name: string)
  {
    EndsWith(name, ReportSuffix)
  }

  /** The entries the loop reads, in the order it reads them. */
  function Selected(entries: seq<Entry>): (sel: seq<Entry>)
    ensures |sel| <= |entries|
  {
    if entries == [] then []
    else
      var last := entries[|entries| - 1];
      Selected(entries[..|entries| - 1]) + (if IsReportFile(last.name) then [last] else [])
  }

  /** An entry is selected exactly when it is listed and has a report name. */
  lemma {:induction false} SelectedMembership(entries: seq<Entry>, e: Entry)
    ensures e in Selected(entries) <==> e in entries && IsReportFile(e.name)
  {
    if entries != [] {
      var n := |entries|;
      assert entries == entries[..n - 1] + [entries[n - 1]];
      SelectedMembership(entries[..n - 1], e);
    }
  }

  lemma {:induction false} SelectedConcat(a: seq<Entry>, b: seq<Entry>)
    ensures Selected(a + b) == Selected(a) + Selected(b)
  {
    if b == [] {
      assert a + b == a;
    } else {
      var n := |b|;
      assert (a + b)[..|a + b| - 1] == a + b[..n - 1];
      assert (a + b)[|a + b| - 1] == b[n - 1];
      SelectedConcat(a, b[..n - 1]);
    }
  }

  /** A file without a report name, wherever it is listed, is not selected. */
  lemma {:induction false} SelectedSkips(before: seq<Entry>, e: Entry, after: seq<Entry>)
    requires !IsReportFile(e.name)
    ensures Selected(before + [e] + after) == Selected(before + after)
  {
    SelectedConcat(before + [e], after);
    SelectedConcat(before, [e]);
    SelectedConcat(before, after);
    assert [e][..0] == [];
  }

  /** The positions, in increasing order, of the entries with a report name. */
  function ReportIndices(entries: seq<Entry>): (idx: seq<nat>)
    ensures forall k :: 0 <= k < |idx| ==> idx[k] < |entries| && IsReportFile(entries[idx[k]].name)
    ensures forall j, k :: 0 <= j < k < |idx| ==> idx[j] < idx[k]
    ensures forall i :: 0 <= i < |entries| && IsReportFile(entries[i].name) ==> i in idx
  {
    if entries == [] then []
    else
      var n := |entries|;
      ReportIndices(entries[..n - 1]) + (if IsReportFile(entries[n - 1].name) then [n - 1] else [])
  }

  /**
   * The selection is exactly the report-named entries, at increasing
   * positions: listing order is kept and nothing is reordered or repeated.
   */
  lemma {:induction false} SelectedInListingOrder(entries: seq<Entry>)
    ensures |Selected(entries)| == |ReportIndices(entries)|
    ensures forall k :: 0 <= k < |Selected(entries)| ==> Selected(entries)[k] == entries[ReportIndices(entries)[k]]
  {
    if entries != [] {
      var n := |entries|;
      var init := entries[..n - 1];
      SelectedInListingOrder(init);
      forall k | 0 <= k < |ReportIndices(init)|
        ensures entries[ReportIndices(init)[k]] == init[ReportIndices(init)[k]]
      {
      }
    }
  }

  /** `k` is the first selected entry that cannot be read. */
  predicate FailsFirstAt(sel: seq<Entry>, k: nat)
    requires k < |sel|
  {
    sel[k].content.Malformed? && forall j :: 0 <= j < k ==> sel[j].content.Parsed?
  }

  /**
   * Reading the selected entries one after another: every record in order,
   * or the name of the first file that cannot be read.
   */
  function LoadAll(sel: seq<Entry>): (res: Result<seq<Record>>)
    ensures res.Success? <==> forall k :: 0 <= k < |sel| ==> sel[k].content.Parsed?
    ensures res.Success? ==>
      |res.value| == |sel| && forall k :: 0 <= k < |sel| ==> res.value[k] == sel[k].content.record
    ensures res.Failure? ==>
      exists k :: 0 <= k < |sel| && FailsFirstAt(sel, k) && res.error == FileUnreadable(sel[k].name)
  {
    if sel == [] then Success([])
    else
      var init, last := sel[..|sel| - 1], sel[|sel| - 1];
      assert forall k :: 0 <= k < |init| ==> init[k] == sel[k];
      match LoadAll(init)
      case Failure(e) => Failure(e)
      case Success(rs) =>
        match last.content
        case Parsed(r) => Success(rs + [r])
        case Malformed => Failure(FileUnreadable(last.name))
  }

  /** Once reading has failed, later files do not matter. */
  lemma {:induction false} LoadAllFailureSticks(a: seq<Entry>, b: seq<Entry>)
    requires LoadAll(a).Failure?
    ensures LoadAll(a + b) == LoadAll(a)
  {
    if b == [] {
      assert a + b == a;
    } else {
      var n := |b|;
      assert (a + b)[..|a + b| - 1] == a + b[..n - 1];
      LoadAllFailureSticks(a, b[..n - 1]);
    }
  }

  /** The records the loop collects from a listing, or the error that stops it. */
  function Load(entries: seq<Entry>): Result<seq<Record>>
  {
    LoadAll(Selected(entries))
  }

  /** One more step of the loop, on the selection. */
  lemma {:induction false} SelectedStep(entries: seq<Entry>, i: nat)
    requires i < |entries|
    ensures IsReportFile(entries[i].name) ==> Selected(entries[..i + 1]) == Selected(entries[..i]) + [entries[i]]
    ensures !IsReportFile(entries[i].name) ==> Selected(entries[..i + 1]) == Selected(entries[..i])
  {
    assert entries[..i + 1][..i] == entries[..i];
    assert Selected(entries[..i]) + [] == Selected(entries[..i]);
  }

  /** One more step of the loop, on reading. */
  lemma {:induction false} LoadAllStep(sel: seq<Entry>, e: Entry, rs: seq<Record>)
    requires LoadAll(sel) == Success(rs)
    ensures LoadAll(sel + [e])
         == if e.content.Parsed? then Success(rs + [e.content.record]) else Failure(FileUnreadable(e.name))
  {
    assert (sel + [e])[..|sel|] == sel;
  }

  /** A selected file that cannot be read, after readable ones, ends loading with its name. */
  lemma {:induction false} LoadAbortsAt(entries: seq<Entry>, i: nat, rs: seq<Record>)
    requires i < |entries| && IsReportFile(entries[i].name) && entries[i].content.Malformed?
    requires LoadAll(Selected(entries[..i])) == Success(rs)
    ensures Load(entries) == Failure(FileUnreadable(entries[i].name))
  {
    SelectedStep(entries, i);
    LoadAllStep(Selected(entries[..i]), entries[i], rs);
    assert entries == entries[..i + 1] + entries[i + 1..];
    SelectedConcat(entries[..i + 1], entries[i + 1..]);
    LoadAllFailureSticks(Selected(entries[..i + 1]), Selected(entries[i + 1..]));
  }

  /** The source's `for (const file of reportFiles)` loop. */
  method LoadReports(entries: seq<Entry>) returns (res: Result<seq<Record>>)
    ensures res == Load(entries)
  {
    var reports: seq<Record> := [];
    for i := 0 to |entries|
      invariant LoadAll(Selected(entries[..i])) == Success(reports)
    {
      var e := entries[i];
      SelectedStep(entries, i);
      if IsReportFile(e.name) {
        match e.content {
          case Malformed =>
            LoadAbortsAt(entries, i, reports);
            return Failure(FileUnreadable(e.name));
          case Parsed(r) =>
            LoadAllStep(Selected(entries[..i]), e, reports);
            reports := reports + [r];
        }
      }
    }
    assert entries[..|entries|] == entries;
    res := Success(reports);
  }

  /** Three readable report files load as their three records, in order. */
  lemma {:induction false} LoadThree(ea: Entry, eb: Entry, ec: Entry)
    requires IsReportFile(ea.name) && IsReportFile(eb.name) && IsReportFile(ec.name)
    requires ea.content.Parsed? && eb.content.Parsed? && ec.content.Parsed?
    ensures Load([ea, eb, ec]) == Success([ea.content.record, eb.content.record, ec.content.record])
  {
    assert [ea, eb, ec][..2] == [ea, eb];
    assert [ea, eb][..1] == [ea];
    assert [ea][..0] == [];
    assert Selected([ea]) == [ea];
    assert Selected([ea, eb]) == [ea, eb];
    assert Selected([ea, eb, ec]) == [ea, eb, ec];
    var ra, rb, rc := ea.content.record, eb.content.record, ec.content.record;
    LoadAllStep([], ea, []);
    assert [] + [ea] == [ea] && [] + [ra] == [ra];
    LoadAllStep([ea], eb, [ra]);
    assert [ea] + [eb] == [ea, eb] && [ra] + [rb] == [ra, rb];
    LoadAllStep([ea, eb], ec, [ra, rb]);
    assert [ea, eb] + [ec] == [ea, eb, ec] && [ra, rb] + [rc] == [ra, rb, rc];
  }

  /** The report file the registration test writes for user `u`. */
  function ReportName(u: string): string
  {
    "TC001-" + u + ReportSuffix
  }

  /** The screenshot the registration test saves for user `u`. */
  function ScreenshotName(u: string): string
  {
    "TC001-registration-success-" + u + ".png"
  }

  /**
   * Whatever the user name, the test run's report file has a report name and
   * its screenshot does not.
   */
  lemma {:induction false} ProducerNames(u: string)
    ensures IsReportFile(ReportName(u))
    ensures !IsReportFile(ScreenshotName(u))
  {
    var r := ReportName(u);
    assert r[|r| - |ReportSuffix|..] == ReportSuffix;
    var shot := ScreenshotName(u);
    assert shot[|shot| - 1] == 'g';
    assert shot[|shot| - |ReportSuffix|..][|ReportSuffix| - 1] == shot[|shot| - 1];
  }

  /**
   * Three runs of the test, for users `u1`, `u2` and `u3`, with the first
   * run's screenshot (not JSON) listed after its report: the screenshot is
   * never read and the three records load in listing order.
   */
  lemma {:induction false} ScreenshotNeverRead(u1: string, u2: string, u3: string, a: Record, b: Record, c: Record)
    ensures Load([
        Entry(ReportName(u1), Parsed(a)),
        Entry(ScreenshotName(u1), Malformed),
        Entry(ReportName(u2), Parsed(b)),
        Entry(ReportName(u3), Parsed(c))]) == Success([a, b, c])
  {
    var ea := Entry(ReportName(u1), Parsed(a));
    var shot := Entry(ScreenshotName(u1), Malformed);
    var eb := Entry(ReportName(u2), Parsed(b));
    var ec := Entry(ReportName(u3), Parsed(c));
    ProducerNames(u1);
    ProducerNames(u2);
    ProducerNames(u3);
    SelectedSkips([ea], shot, [eb, ec]);
    assert [ea] + [shot] + [eb, ec] == [ea, shot, eb, ec];
    assert [ea] + [eb, ec] == [ea, eb, ec];
    LoadThree(ea, eb, ec);
  }
}
