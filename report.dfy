/**
 * One run of the report generator: list the results directory, load the
 * report files, summarise them and render the page. The first failure (the
 * listing, or a report file that cannot be read) ends the run with no page;
 * otherwise the whole page is built in memory and returned for writing.
 */
module Report {
  import opened Records
  import opened Loader
  import opened Aggregate
  import opened Render

  /**
   * The page the run produces, or why it produced none. The page's fixed text
   * is a parameter: the generator's own is `Template`, and the properties
   * below hold for any.
   */
  function Generate(t: PageText, dir: Listing, now: string, fmt: string -> string): (res: Result<string>)
  {
    match dir
    case ListFailed => Failure(DirectoryUnreadable)
    case Listed(entries) =>
      match Load(entries)
      case Failure(e) => Failure(e)
      case Success(rs) => Success(Page(t, rs, Summarize(rs), now, fmt))
  }

  /** `generateTestReport`, up to the file write. */
  method GenerateTestReport(dir: Listing, now: string, fmt: string -> string) returns (res: Result<string>)
    ensures res == Generate(Template, dir, now, fmt)
  {
    if dir.ListFailed? {
      return Failure(DirectoryUnreadable);
    }
    var loaded := LoadReports(dir.entries);
    if loaded.Failure? {
      return Failure(loaded.error);
    }
    var testReports := loaded.value;
    var summary := Summarize(testReports);
    res := Success(Page(Template, testReports, summary, now, fmt));
  }

  /**
   * A run fails exactly when the listing fails or some report file cannot be
   * read; the error names the listing, or the first such file in listing
   * order. Files that are not reports are never read, so they cannot fail it.
   */
  lemma {:induction false} FailFast(t: PageText, dir: Listing, now: string, fmt: string -> string)
    ensures dir.ListFailed? ==> Generate(t, dir, now, fmt) == Failure(DirectoryUnreadable)
    ensures dir.Listed? ==>
      var sel := Selected(dir.entries);
      && (Generate(t, dir, now, fmt).Failure? <==> exists k :: 0 <= k < |sel| && sel[k].content.Malformed?)
      && (Generate(t, dir, now, fmt).Failure? ==>
            exists k :: 0 <= k < |sel| && FailsFirstAt(sel, k) && Generate(t, dir, now, fmt).error == FileUnreadable(sel[k].name))
  {
  }

  /**
   * When every report file can be read, the page is rendered from their
   * records in listing order, with the summary of exactly those records.
   */
  lemma {:induction false} SuccessRendersSelected(t: PageText, entries: seq<Entry>, now: string, fmt: string -> string)
    requires forall e :: e in Selected(entries) ==> e.content.Parsed?
    ensures var sel, rs := Selected(entries), Load(entries).value;
      && Load(entries).Success?
      && |rs| == |sel| && (forall k :: 0 <= k < |sel| ==> rs[k] == sel[k].content.record)
      && Generate(t, Listed(entries), now, fmt) == Success(Page(t, rs, Summarize(rs), now, fmt))
  {
    var sel := Selected(entries);
    assert forall k :: 0 <= k < |sel| ==> sel[k] in sel;
  }

  /**
   * Adding a file whose name does not end in `-report.json` (a screenshot,
   * say) anywhere in the listing changes nothing: not the outcome, not the
   * page.
   */
  lemma {:induction false} NonReportFileIgnored(t: PageText, before: seq<Entry>, e: Entry, after: seq<Entry>, now: string, fmt: string -> string)
    requires !IsReportFile(e.name)
    ensures Generate(t, Listed(before + [e] + after), now, fmt) == Generate(t, Listed(before + after), now, fmt)
  {
    SelectedSkips(before, e, after);
  }

  /**
   * A directory with no report files is not an error: the page reports
   * 0 tests, 0 passed, 0 failed, 0% and has an empty detail section.
   */
  lemma {:induction false} NoReportFiles(t: PageText, entries: seq<Entry>, now: string, fmt: string -> string)
    requires forall k :: 0 <= k < |entries| ==> !IsReportFile(entries[k].name)
    ensures Generate(t, Listed(entries), now, fmt) == Success(Page(t, [], Summary(0, 0, 0, 0), now, fmt))
    ensures Details([], fmt) == ""
  {
    var idx := ReportIndices(entries);
    SelectedInListingOrder(entries);
    EmptySummary();
    DetailsOneCardPerRecord([], fmt);
  }

  /**
   * With the same records, two runs at different times give pages that
   * differ only in the generation time: every other fragment is the same.
   */
  lemma {:induction false} OnlyTimeVaries(t: PageText, entries: seq<Entry>, now1: string, now2: string, fmt: string -> string)
    requires Load(entries).Success?
    ensures var rs := Load(entries).value;
      && Generate(t, Listed(entries), now1, fmt) == Success(Page(t, rs, Summarize(rs), now1, fmt))
      && Generate(t, Listed(entries), now2, fmt) == Success(Page(t, rs, Summarize(rs), now2, fmt))
      && forall i :: 0 <= i < 14 && i != 2 ==>
           PageParts(t, rs, Summarize(rs), now1, fmt)[i] == PageParts(t, rs, Summarize(rs), now2, fmt)[i]
  {
    var rs := Load(entries).value;
    PagePartsOnlyTime(t, rs, Summarize(rs), now1, now2, fmt);
  }

  /**
   * The producer's situation: three runs of the registration test, for users
   * `u1`, `u2` and `u3`, two passed and one failed, with the first run's
   * screenshot (not JSON) listed after its report. The screenshot is never
   * read, and the page covers the three records in listing order: 3 tests,
   * 2 passed, 1 failed, 67%.
   */
  lemma {:induction false} ThreeReportsAndScreenshot(t: PageText, u1: string, u2: string, u3: string, a: Record, b: Record, c: Record,
                                  now: string, fmt: string -> string)
    requires IsPassed(a) && IsPassed(b) && !IsPassed(c)
    ensures var dir := Listed([
        Entry(ReportName(u1), Parsed(a)),
        Entry(ScreenshotName(u1), Malformed),
        Entry(ReportName(u2), Parsed(b)),
        Entry(ReportName(u3), Parsed(c))]);
      Generate(t, dir, now, fmt) == Success(Page(t, [a, b, c], Summary(3, 2, 1, 67), now, fmt))
  {
    ScreenshotNeverRead(u1, u2, u3, a, b, c);
    TwoOfThreeScenario(a, b, c);
  }
}
