/**
 * The HTML page of the report, character for character. The fixed text of
 * the page (stylesheet, chart script, footer) is kept as constant fragments;
 * the parts that depend on the data are built from small values (summary
 * cards, chart data, one detail card per record) so that what each part
 * shows can be stated. Field values are inserted as they are, without HTML
 * escaping, as the generator does.
 */
module Render {
  import opened Text
  import opened Records
  import opened Aggregate

  // ---------------------------------------------------------------------
  // Summary cards
  // ---------------------------------------------------------------------

  /** One of the four figures at the top of the page. */
  datatype SummaryCard = SummaryCard(classes: seq<string>, title: string, number: string)

  const CardClass := "summary-card"
  const FailedMark := "failed"

  /**
   * Total, Passed, Failed, Pass Rate. The Failed card's class list always has
   * a second entry, `failed` or empty, so that with no failures its class
   * attribute reads `summary-card ` (with the trailing space) as the
   * generator writes it.
   */
  function SummaryCards(s: Summary): (cards: seq<SummaryCard>)
    ensures |cards| == 4
    ensures cards[0].title == "Total Tests" && cards[1].title == "Passed"
    ensures cards[2].title == "Failed" && cards[3].title == "Pass Rate"
    ensures forall i :: 0 <= i < 4 && i != 2 ==> cards[i].classes == [CardClass]
    ensures |cards[2].classes| == 2 && cards[2].classes[0] == CardClass
    ensures FailedMark in cards[2].classes <==> s.failed > 0
    ensures s.failed == 0 ==> cards[2].classes[1] == ""
  {
    [ SummaryCard([CardClass], "Total Tests", Decimal(s.total)),
      SummaryCard([CardClass], "Passed", Decimal(s.passed)),
      SummaryCard([CardClass, if s.failed > 0 then FailedMark else ""], "Failed", Decimal(s.failed)),
      SummaryCard([CardClass], "Pass Rate", Decimal(s.passRate) + "%") ]
  }

  /**
   * The cards' numbers read back as the summary's figures: total, passed,
   * failed, and the pass rate followed by `%`.
   */
  lemma {:induction false} SummaryCardNumbers(s: Summary)
    ensures var cards := SummaryCards(s);
      && IsDecimal(cards[0].number) && DecimalValue(cards[0].number) == s.total
      && IsDecimal(cards[1].number) && DecimalValue(cards[1].number) == s.passed
      && IsDecimal(cards[2].number) && DecimalValue(cards[2].number) == s.failed
    ensures var n := SummaryCards(s)[3].number;
      |n| >= 2 && n[|n| - 1] == '%' && IsDecimal(n[..|n| - 1]) && DecimalValue(n[..|n| - 1]) == s.passRate
  {
    DecimalRoundTrip(s.total);
    DecimalRoundTrip(s.passed);
    DecimalRoundTrip(s.failed);
    DecimalRoundTrip(s.passRate);
    var rate := Decimal(s.passRate);
    assert (rate + "%")[..|rate|] == rate;
  }

  /** A summary card's opening tag: its classes joined by spaces. */
  function CardOpeningTag(classes: seq<string>): string
  {
    "                <div class=\"" + Join(classes, " ") + "\">"
  }

  /** A card's heading: its title. */
  function CardHeading(title: string): string
  {
    "<h3>" + title + "</h3>"
  }

  /** A card's figure. */
  function CardFigure(number: string): string
  {
    "<div class=\"number\">" + number + "</div>"
  }

  const CardIndent := "                    "

  function RenderCard(c: SummaryCard): string
  {
    CardOpeningTag(c.classes) + "\n"
    + CardIndent + CardHeading(c.title) + "\n"
    + CardIndent + CardFigure(c.number) + "\n"
    + "                </div>\n"
  }

  /** `s` shows the card's heading and its figure. */
  predicate CardShows(s: string, c: SummaryCard)
  {
    Shows(s, CardHeading(c.title)) && Shows(s, CardFigure(c.number))
  }

  /** A rendered card shows its title and its number. */
  lemma {:induction false} RenderCardShows(c: SummaryCard)
    ensures CardShows(RenderCard(c), c)
  {
    var head, fig := CardHeading(c.title), CardFigure(c.number);
    var x := CardOpeningTag(c.classes) + "\n" + CardIndent;
    var y := "\n" + CardIndent + fig + "\n" + "                </div>\n";
    assert RenderCard(c) == x + head + y;
    InfixOfConcat(x, head, y);
    var x' := x + head + "\n" + CardIndent;
    var y' := "\n" + "                </div>\n";
    assert RenderCard(c) == x' + fig + y';
    InfixOfConcat(x', fig, y');
  }

  /** Wherever a rendered card occurs, its title and number are shown. */
  lemma {:induction false} SummaryCardShowsThrough(s: string, c: SummaryCard, i: nat)
    requires IsInfixAt(RenderCard(c), s, i)
    ensures CardShows(s, c)
  {
    RenderCardShows(c);
    ShowsThrough(s, RenderCard(c), CardHeading(c.title), i);
    ShowsThrough(s, RenderCard(c), CardFigure(c.number), i);
  }

  predicate StartsWith(s: string, prefix: string)
  {
    |prefix| <= |s| && s[..|prefix|] == prefix
  }

  const FailedCardOpening := "                <div class=\"summary-card failed\">"
  const PlainCardOpening := "                <div class=\"summary-card\">"

  /** A rendered card opens with its class list joined by spaces. */
  lemma {:induction false} CardOpening(c: SummaryCard)
    ensures StartsWith(RenderCard(c), CardOpeningTag(c.classes))
  {
  }

  lemma {:induction false} PlainOpeningTag()
    ensures CardOpeningTag([CardClass]) == PlainCardOpening
  {
    assert Join([CardClass], " ") == CardClass;
  }

  /** The Failed card's opening with no failures: the class list ends in a space. */
  const UnmarkedCardOpening := "                <div class=\"summary-card \">"

  /**
   * The Failed card's opening tag: with the mark it is the `failed` opening;
   * without it the class attribute is `summary-card ` with its trailing space.
   */
  lemma {:induction false} FailedCardOpeningTag(mark: string)
    requires mark == FailedMark || mark == ""
    ensures var open := CardOpeningTag([CardClass, mark]);
      (mark == FailedMark ==> open == FailedCardOpening)
      && (mark == "" ==> open == UnmarkedCardOpening)
  {
    Join2(CardClass, mark, " ");
  }

  /** Total, Passed and Pass Rate always open with the plain class. */
  lemma {:induction false} PlainCardStyling(s: Summary)
    ensures forall i :: 0 <= i < 4 && i != 2 ==> StartsWith(RenderCard(SummaryCards(s)[i]), PlainCardOpening)
  {
    var cards := SummaryCards(s);
    PlainOpeningTag();
    forall i | 0 <= i < 4 && i != 2
      ensures StartsWith(RenderCard(cards[i]), PlainCardOpening)
    {
      CardOpening(cards[i]);
    }
  }

  /**
   * The Failed card opens with the `failed` class exactly when some test
   * failed; the other three cards always open with the plain class.
   */
  lemma {:induction false} SummaryCardStyling(s: Summary)
    ensures StartsWith(RenderCard(SummaryCards(s)[2]), FailedCardOpening) <==> s.failed > 0
    ensures forall i :: 0 <= i < 4 && i != 2 ==> StartsWith(RenderCard(SummaryCards(s)[i]), PlainCardOpening)
  {
    PlainCardStyling(s);
    var cards := SummaryCards(s);
    var mark := cards[2].classes[1];
    assert cards[2].classes == [CardClass, mark];
    CardOpening(cards[2]);
    FailedCardOpeningTag(mark);
    var open := CardOpeningTag([CardClass, mark]);
    var text := RenderCard(cards[2]);
    assert text[..|open|] == open;
    if s.failed == 0 {
      assert text[41] == UnmarkedCardOpening[41] != FailedCardOpening[41];
    }
  }

  // ---------------------------------------------------------------------
  // Chart data
  // ---------------------------------------------------------------------

  /** The data handed to the doughnut chart: one label, count and colour per slice. */
  datatype Chart = Chart(labels: seq<string>, data: seq<nat>, colors: seq<string>)

  const SuccessColor := "#28a745"
  const DangerColor := "#dc3545"

  /** Two slices, passed then failed, in green and red. */
  function ChartOf(s: Summary): (c: Chart)
    ensures |c.labels| == |c.data| == |c.colors| == 2
    ensures c.labels[0] == "Passed" && c.data[0] == s.passed && c.colors[0] == SuccessColor
    ensures c.labels[1] == "Failed" && c.data[1] == s.failed && c.colors[1] == DangerColor
  {
    Chart(["Passed", "Failed"], [s.passed, s.failed], [SuccessColor, DangerColor])
  }

  /** The slices of the chart add up to the number of tests. */
  lemma {:induction false} ChartCoversAllTests(rs: seq<Record>)
    ensures var c := ChartOf(Summarize(rs)); c.data[0] + c.data[1] == |rs|
  {
  }

  /** A JavaScript string literal in single quotes. */
  function Quoted(xs: seq<string>): (qs: seq<string>)
    ensures |qs| == |xs|
  {
    seq(|xs|, k requires 0 <= k < |xs| => "'" + xs[k] + "'")
  }

  function Decimals(ns: seq<nat>): (ds: seq<string>)
    ensures |ds| == |ns|
  {
    seq(|ns|, k requires 0 <= k < |ns| => Decimal(ns[k]))
  }

  function LabelsLine(labels: seq<string>): string
  {
    "                labels: [" + Join(Quoted(labels), ", ") + "],\n"
  }

  const DatasetsLine := "                datasets: [{\n"

  function DataLine(data: seq<nat>): string
  {
    "                    data: [" + Join(Decimals(data), ", ") + "],\n"
  }

  function ColorsLine(colors: seq<string>): string
  {
    "                    backgroundColor: [" + Join(Quoted(colors), ", ") + "],\n"
  }

  /** The `labels`, `data` and `backgroundColor` lines of the chart script. */
  function ChartHtml(c: Chart): string
  {
    LabelsLine(c.labels) + DatasetsLine + DataLine(c.data) + ColorsLine(c.colors)
  }

  lemma {:induction false} Join2(a: string, b: string, sep: string)
    ensures Join([a, b], sep) == a + sep + b
  {
    assert [a, b][1..] == [b];
  }

  lemma {:induction false} LabelsText()
    ensures LabelsLine(["Passed", "Failed"]) == "                labels: ['Passed', 'Failed'],\n"
  {
    var q := Quoted(["Passed", "Failed"]);
    assert q[0] == "'" + "Passed" + "'" == "'Passed'";
    assert q[1] == "'" + "Failed" + "'" == "'Failed'";
    assert q == ["'Passed'", "'Failed'"];
    Join2("'Passed'", "'Failed'", ", ");
  }

  lemma {:induction false} ColorsText()
    ensures ColorsLine([SuccessColor, DangerColor]) == "                    backgroundColor: ['#28a745', '#dc3545'],\n"
  {
    var q := Quoted([SuccessColor, DangerColor]);
    assert q[0] == "'" + SuccessColor + "'" == "'#28a745'";
    assert q[1] == "'" + DangerColor + "'" == "'#dc3545'";
    assert q == ["'#28a745'", "'#dc3545'"];
    Join2("'#28a745'", "'#dc3545'", ", ");
  }

  /**
   * Rendered, the chart data is the generator's fixed text with only the two
   * counts filled in: labels `'Passed', 'Failed'`, data `[passed, failed]`,
   * colours `'#28a745', '#dc3545'`, in that order.
   */
  lemma {:induction false} ChartText(s: Summary)
    ensures LabelsLine(ChartOf(s).labels) == "                labels: ['Passed', 'Failed'],\n"
    ensures DataLine(ChartOf(s).data) == "                    data: [" + Decimal(s.passed) + ", " + Decimal(s.failed) + "],\n"
    ensures ColorsLine(ChartOf(s).colors) == "                    backgroundColor: ['#28a745', '#dc3545'],\n"
  {
    LabelsText();
    ColorsText();
    assert Decimals(ChartOf(s).data) == [Decimal(s.passed), Decimal(s.failed)];
    Join2(Decimal(s.passed), Decimal(s.failed), ", ");
  }

  // ---------------------------------------------------------------------
  // Detail cards
  // ---------------------------------------------------------------------

  /** `steps.map(step => `<li>${step}</li>`)`. */
  function StepItems(steps: seq<string>): (items: seq<string>)
    ensures |items| == |steps|
  {
    seq(|steps|, k requires 0 <= k < |steps| => "<li>" + steps[k] + "</li>")
  }

  /** The items joined with no separator. */
  function StepsHtml(steps: seq<string>): string
  {
    Concat(StepItems(steps))
  }

  /**
   * The step list is every step as `<li>step</li>`, in the original order,
   * back to back with nothing in between.
   */
  lemma {:induction false} StepsInOrder(steps: seq<string>)
    ensures Offset(StepItems(steps), 0) == 0 && Offset(StepItems(steps), |steps|) == |StepsHtml(steps)|
    ensures forall k :: 0 <= k < |steps| ==>
      IsInfixAt("<li>" + steps[k] + "</li>", StepsHtml(steps), Offset(StepItems(steps), k))
      && Offset(StepItems(steps), k + 1) == Offset(StepItems(steps), k) + |steps[k]| + 9
  {
    var items := StepItems(steps);
    assert items[..|steps|] == items;
    forall k | 0 <= k < |steps|
      ensures IsInfixAt("<li>" + steps[k] + "</li>", StepsHtml(steps), Offset(items, k))
      ensures Offset(items, k + 1) == Offset(items, k) + |steps[k]| + 9
    {
      ConcatAt(items, k);
    }
  }

  // The fixed text of a detail card, around the record's fields.
  const CardTop := "\n                <div class=\"test-card\">\n                    <div class=\"test-header\">\n                        "
  const LineBreak := "\n                        "
  const BadgeOpen := "<span class=\"badge passed\" style=\"float: right;\">✅ "
  const BadgeClose := "</span>"
  const HeaderClose := "\n                    </div>\n                    <div class=\"test-body\">\n                        "
  const UsernameLabel := "<p><strong>Username:</strong> "
  const BrowserLabel := "<p><strong>Browser:</strong> "
  const TimeLabel := "<p><strong>Execution Time:</strong> "
  const ParagraphClose := "</p>"
  const StepsHeading := "\n                        <p><strong>Steps Executed:</strong></p>\n                        "
  const ListOpen := "<ul>\n                            "
  const ListClose := "\n                        </ul>"
  const CardBottom := "\n                    </div>\n                </div>\n                "

  /** The fragments of one detail card: the record's fields between fixed text. */
  function TestCardParts(r: Record, fmt: string -> string): (parts: seq<string>)
    ensures |parts| == 25
  {
    [ CardTop, r.testCaseId, " - ", r.testCaseName, LineBreak,
      BadgeOpen, r.status, BadgeClose, HeaderClose,
      UsernameLabel, r.username, ParagraphClose, LineBreak,
      BrowserLabel, r.browser, ParagraphClose, LineBreak,
      TimeLabel, fmt(r.executionTime), ParagraphClose,
      StepsHeading, ListOpen, StepsHtml(r.steps), ListClose, CardBottom ]
  }

  /** One record's card in the detail section. */
  function TestCard(r: Record, fmt: string -> string): string
  {
    Concat(TestCardParts(r, fmt))
  }

  /** `s` shows every field of `r` the way a detail card prints it. */
  predicate ShowsRecord(s: string, r: Record, fmt: string -> string)
  {
    && Shows(s, r.testCaseId + " - " + r.testCaseName)
    && Shows(s, BadgeOpen + r.status + BadgeClose)
    && Shows(s, UsernameLabel + r.username + ParagraphClose)
    && Shows(s, BrowserLabel + r.browser + ParagraphClose)
    && Shows(s, TimeLabel + fmt(r.executionTime) + ParagraphClose)
    && Shows(s, ListOpen + StepsHtml(r.steps) + ListClose)
  }

  /** A card shows `id - name`. */
  lemma {:induction false} TestCardShowsTitle(r: Record, fmt: string -> string)
    ensures Shows(TestCard(r, fmt), r.testCaseId + " - " + r.testCaseName)
  {
    WindowShows(TestCardParts(r, fmt), 1, r.testCaseId, " - ", r.testCaseName);
  }

  /** A card shows the status inside its badge. */
  lemma {:induction false} TestCardShowsBadge(r: Record, fmt: string -> string)
    ensures Shows(TestCard(r, fmt), BadgeOpen + r.status + BadgeClose)
  {
    WindowShows(TestCardParts(r, fmt), 5, BadgeOpen, r.status, BadgeClose);
  }

  /** A card shows the username. */
  lemma {:induction false} TestCardShowsUsername(r: Record, fmt: string -> string)
    ensures Shows(TestCard(r, fmt), UsernameLabel + r.username + ParagraphClose)
  {
    WindowShows(TestCardParts(r, fmt), 9, UsernameLabel, r.username, ParagraphClose);
  }

  /** A card shows the browser. */
  lemma {:induction false} TestCardShowsBrowser(r: Record, fmt: string -> string)
    ensures Shows(TestCard(r, fmt), BrowserLabel + r.browser + ParagraphClose)
  {
    WindowShows(TestCardParts(r, fmt), 13, BrowserLabel, r.browser, ParagraphClose);
  }

  /** A card shows the formatted execution time. */
  lemma {:induction false} TestCardShowsTime(r: Record, fmt: string -> string)
    ensures Shows(TestCard(r, fmt), TimeLabel + fmt(r.executionTime) + ParagraphClose)
  {
    WindowShows(TestCardParts(r, fmt), 17, TimeLabel, fmt(r.executionTime), ParagraphClose);
  }

  /** A card shows the step list. */
  lemma {:induction false} TestCardShowsSteps(r: Record, fmt: string -> string)
    ensures Shows(TestCard(r, fmt), ListOpen + StepsHtml(r.steps) + ListClose)
  {
    WindowShows(TestCardParts(r, fmt), 21, ListOpen, StepsHtml(r.steps), ListClose);
  }

  /**
   * A card shows every field of its record: `id - name` in the header, the
   * status verbatim in a badge that is always styled `badge passed` with a
   * check mark whatever the status says, the username, the browser, the
   * formatted execution time and the step list.
   */
  lemma {:induction false} TestCardShowsRecord(r: Record, fmt: string -> string)
    ensures ShowsRecord(TestCard(r, fmt), r, fmt)
  {
    TestCardShowsTitle(r, fmt);
    TestCardShowsBadge(r, fmt);
    TestCardShowsUsername(r, fmt);
    TestCardShowsBrowser(r, fmt);
    TestCardShowsTime(r, fmt);
    TestCardShowsSteps(r, fmt);
  }

  /** A string holding a fragment that shows a record shows the record too. */
  lemma {:induction false} ShowsRecordThrough(s: string, m: string, r: Record, fmt: string -> string, i: nat)
    requires IsInfixAt(m, s, i) && ShowsRecord(m, r, fmt)
    ensures ShowsRecord(s, r, fmt)
  {
    ShowsThrough(s, m, r.testCaseId + " - " + r.testCaseName, i);
    ShowsThrough(s, m, BadgeOpen + r.status + BadgeClose, i);
    ShowsThrough(s, m, UsernameLabel + r.username + ParagraphClose, i);
    ShowsThrough(s, m, BrowserLabel + r.browser + ParagraphClose, i);
    ShowsThrough(s, m, TimeLabel + fmt(r.executionTime) + ParagraphClose, i);
    ShowsThrough(s, m, ListOpen + StepsHtml(r.steps) + ListClose, i);
  }

  /** A string holding a record's card shows every field of the record. */
  lemma {:induction false} CardShowsThrough(s: string, r: Record, fmt: string -> string, i: nat)
    requires IsInfixAt(TestCard(r, fmt), s, i)
    ensures ShowsRecord(s, r, fmt)
  {
    TestCardShowsRecord(r, fmt);
    ShowsRecordThrough(s, TestCard(r, fmt), r, fmt, i);
  }

  /** `testReports.map(test => ...)`: one card per record. */
  function TestCards(rs: seq<Record>, fmt: string -> string): (cards: seq<string>)
    ensures |cards| == |rs|
  {
    seq(|rs|, k requires 0 <= k < |rs| => TestCard(rs[k], fmt))
  }

  /** The detail section: the cards joined with no separator. */
  function Details(rs: seq<Record>, fmt: string -> string): string
  {
    Concat(TestCards(rs, fmt))
  }

  /** Wherever the detail section occurs, record `k`'s card occurs at its own offset past that point. */
  lemma {:induction false} CardInDetails(page: string, base: nat, rs: seq<Record>, fmt: string -> string, k: nat)
    requires k < |rs| && IsInfixAt(Details(rs, fmt), page, base)
    ensures IsInfixAt(TestCard(rs[k], fmt), page, base + Offset(TestCards(rs, fmt), k))
  {
    InfixOfItem(TestCards(rs, fmt), page, base, k, TestCard(rs[k], fmt));
  }

  /**
   * The detail section is exactly one card per record, in loaded order, back
   * to back; with no records it is empty.
   */
  lemma {:induction false} DetailsOneCardPerRecord(rs: seq<Record>, fmt: string -> string)
    ensures rs == [] ==> Details(rs, fmt) == ""
    ensures Offset(TestCards(rs, fmt), 0) == 0 && Offset(TestCards(rs, fmt), |rs|) == |Details(rs, fmt)|
    ensures forall k :: 0 <= k < |rs| ==>
      IsInfixAt(TestCard(rs[k], fmt), Details(rs, fmt), Offset(TestCards(rs, fmt), k))
      && Offset(TestCards(rs, fmt), k + 1) == Offset(TestCards(rs, fmt), k) + |TestCard(rs[k], fmt)|
  {
    var cards := TestCards(rs, fmt);
    ConcatLayout(cards);
    forall k | 0 <= k < |rs|
      ensures cards[k] == TestCard(rs[k], fmt)
    {
    }
  }

  // ---------------------------------------------------------------------
  // The page
  // ---------------------------------------------------------------------

  const PageTop :=
      "\n"
    + "<!DOCTYPE html>\n"
    + "<html lang=\"en\">\n"
    + "<head>\n"
    + "    <meta charset=\"UTF-8\">\n"
    + "    <meta name=\"viewport\" content=\"width=device-width, initial-scale=1.0\">\n"
    + "    <title>ParaBank CI/CD Test Report</title>\n"
    + "    <script src=\"https://cdn.jsdelivr.net/npm/chart.js\"></script>\n"
    + "    <style>\n"
    + "        body { font-family: 'Segoe UI', Tahoma, Geneva, Verdana, sans-serif; margin: 0; padding: 20px; background: linear-gradient(135deg, #667eea 0%, #764ba2 100%); }\n"
    + "        .container { max-width: 1200px; margin: 0 auto; background: white; border-radius: 15px; box-shadow: 0 10px 30px rgba(0,0,0,0.3); overflow: hidden; }\n"
    + "        .header { background: linear-gradient(135deg, #667eea 0%, #764ba2 100%); color: white; padding: 30px; text-align: center; }\n"
    + "        .header h1 { margin: 0; font-size: 2.5em; }\n"
    + "        .header p { margin: 10px 0 0 0; opacity: 0.9; }\n"
    + "        .content { padding: 30px; }\n"
    + "        .summary { display: grid; grid-template-columns: repeat(auto-fit, minmax(200px, 1fr)); gap: 20px; margin-bottom: 30px; }\n"
    + "        .summary-card { background: linear-gradient(135deg, #28a745 0%, #20c997 100%); color: white; padding: 20px; border-radius: 10px; text-align: center; }\n"
    + "        .summary-card.failed { background: linear-gradient(135deg, #dc3545 0%, #fd7e14 100%); }\n"
    + "        .summary-card h3 { margin: 0 0 10px 0; }\n"
    + "        .summary-card .number { font-size: 2.5em; font-weight: bold; margin: 10px 0; }\n"
    + "        .chart-container { max-width: 500px; margin: 20px auto; }\n"
    + "        .test-details { margin-top: 30px; }\n"
    + "        .test-card { border: 1px solid #ddd; border-radius: 10px; margin-bottom: 20px; overflow: hidden; }\n"
    + "        .test-header { background: #28a745; color: white; padding: 15px; font-weight: bold; }\n"
    + "        .test-body { padding: 20px; }\n"
    + "        .badge { padding: 5px 12px; border-radius: 20px; font-size: 0.9em; }\n"
    + "        .badge.passed { background: #d4edda; color: #155724; }\n"
    + "        .timestamp { text-align: center; margin-top: 20px; color: #666; }\n"
    + "    </style>\n"
    + "</head>\n"
    + "<body>\n"
    + "    <div class=\"container\">\n"
    + "        <div class=\"header\">\n"
    + "            <h1>🚀 ParaBank CI/CD Test Report</h1>\n"
    + "            <p>Automated Test Execution Pipeline Results</p>\n"
    + "            "

  const SummaryOpening :=
      "\n"
    + "        </div>\n"
    + "        \n"
    + "        <div class=\"content\">\n"
    + "            <div class=\"summary\">\n"

  const DetailsOpening :=
      "            </div>\n"
    + "\n"
    + "            <div class=\"chart-container\">\n"
    + "                <canvas id=\"resultsChart\" width=\"400\" height=\"200\"></canvas>\n"
    + "            </div>\n"
    + "\n"
    + "            <div class=\"test-details\">\n"
    + "                <h2>📋 Test Case Details</h2>\n"
    + "                "

  const ChartOpening :=
      "\n"
    + "            </div>\n"
    + "\n"
    + "            <div class=\"timestamp\">\n"
    + "                <p>🔧 CI/CD Pipeline | 🧪 Playwright Test Framework | 📊 Automated Reporting</p>\n"
    + "            </div>\n"
    + "        </div>\n"
    + "    </div>\n"
    + "\n"
    + "    <script>\n"
    + "        const ctx = document.getElementById('resultsChart').getContext('2d');\n"
    + "        new Chart(ctx, {\n"
    + "            type: 'doughnut',\n"
    + "            data: {\n"

  const PageBottom :=
      "                    borderWidth: 2,\n"
    + "                    borderColor: '#fff'\n"
    + "                }]\n"
    + "            },\n"
    + "            options: {\n"
    + "                responsive: true,\n"
    + "                plugins: {\n"
    + "                    title: {\n"
    + "                        display: true,\n"
    + "                        text: 'Test Results Distribution'\n"
    + "                    }\n"
    + "                }\n"
    + "            }\n"
    + "        });\n"
    + "    </script>\n"
    + "</body>\n"
    + "</html>"

  /**
   * The fixed text of the page, between the parts that depend on the data.
   * The properties below hold whatever this text is.
   */
  datatype PageText = PageText(top: string, summaryOpening: string, detailsOpening: string,
                               chartOpening: string, bottom: string)

  /** The generator's template literal with its substitutions taken out. */
  const Template := PageText(PageTop, SummaryOpening, DetailsOpening, ChartOpening, PageBottom)

  /** Where the summary cards, the detail section and the chart data sit among the page's fragments. */
  const CardsPart := 5
  const DetailsPart := 10
  const ChartPart := 12

  /** The four summary cards as rendered. */
  function RenderedCards(s: Summary): (hs: seq<string>)
    ensures |hs| == 4
  {
    var cards := SummaryCards(s);
    [RenderCard(cards[0]), RenderCard(cards[1]), RenderCard(cards[2]), RenderCard(cards[3])]
  }

  /**
   * The page's fragments: fixed text, the generation time, the four summary
   * cards, the detail section and the chart data.
   */
  function PageParts(t: PageText, rs: seq<Record>, s: Summary, now: string, fmt: string -> string): (parts: seq<string>)
    ensures |parts| == 14
  {
    var cards := RenderedCards(s);
    [ t.top, "<p>Generated: ", now, "</p>", t.summaryOpening,
      cards[0], cards[1], cards[2], cards[3],
      t.detailsOpening, Details(rs, fmt), t.chartOpening, ChartHtml(ChartOf(s)), t.bottom ]
  }

  /**
   * The report page for a fixed text, the loaded records, their summary, the
   * generation time and a date formatter.
   */
  function Page(t: PageText, rs: seq<Record>, s: Summary, now: string, fmt: string -> string): string
  {
    Concat(PageParts(t, rs, s, now, fmt))
  }

  /** Of the page's fragments, only the generation time depends on `now`. */
  lemma {:induction false} PagePartsOnlyTime(t: PageText, rs: seq<Record>, s: Summary, now1: string, now2: string, fmt: string -> string)
    ensures PageParts(t, rs, s, now1, fmt)[2] == now1 && PageParts(t, rs, s, now2, fmt)[2] == now2
    ensures forall i :: 0 <= i < 14 && i != 2 ==> PageParts(t, rs, s, now1, fmt)[i] == PageParts(t, rs, s, now2, fmt)[i]
  {
    assert PageParts(t, rs, s, now1, fmt) == PageParts(t, rs, s, now2, fmt)[2 := now1];
  }

  /** The page shows when it was generated. */
  lemma {:induction false} PageShowsTime(t: PageText, rs: seq<Record>, s: Summary, now: string, fmt: string -> string)
    ensures Shows(Page(t, rs, s, now, fmt), "<p>Generated: " + now + "</p>")
  {
    WindowShows(PageParts(t, rs, s, now, fmt), 1, "<p>Generated: ", now, "</p>");
  }

  /** The page holds the four summary cards back to back: Total, Passed, Failed, Pass Rate. */
  lemma {:induction false} PageShowsSummary(t: PageText, rs: seq<Record>, s: Summary, now: string, fmt: string -> string)
    ensures var parts := PageParts(t, rs, s, now, fmt);
      && IsInfixAt(Concat(RenderedCards(s)), Page(t, rs, s, now, fmt), Offset(parts, CardsPart))
      && Offset(parts, CardsPart) + |Concat(RenderedCards(s))| <= Offset(parts, DetailsPart)
  {
    var parts := PageParts(t, rs, s, now, fmt);
    assert parts[CardsPart..CardsPart + 4] == RenderedCards(s);
    ConcatWindow(parts, CardsPart, CardsPart + 4);
    OffsetMonotone(parts, CardsPart + 4, DetailsPart);
  }

  /** After the summary, the page holds the detail section and then the chart data. */
  lemma {:induction false} PageShowsDetailsThenChart(t: PageText, rs: seq<Record>, s: Summary, now: string, fmt: string -> string)
    ensures var parts, page := PageParts(t, rs, s, now, fmt), Page(t, rs, s, now, fmt);
      && IsInfixAt(Details(rs, fmt), page, Offset(parts, DetailsPart))
      && IsInfixAt(ChartHtml(ChartOf(s)), page, Offset(parts, ChartPart))
      && Offset(parts, DetailsPart) + |Details(rs, fmt)| <= Offset(parts, ChartPart)
  {
    var parts := PageParts(t, rs, s, now, fmt);
    PartAt(parts, DetailsPart, Details(rs, fmt));
    PartAt(parts, ChartPart, ChartHtml(ChartOf(s)));
    OffsetMonotone(parts, DetailsPart + 1, ChartPart);
  }

  /** Summary card `k` is on the page, showing its title and number. */
  lemma {:induction false} PageShowsCard(t: PageText, rs: seq<Record>, s: Summary, now: string, fmt: string -> string, k: nat)
    requires k < 4
    ensures CardShows(Page(t, rs, s, now, fmt), SummaryCards(s)[k])
  {
    var parts := PageParts(t, rs, s, now, fmt);
    PartAt(parts, CardsPart + k, RenderCard(SummaryCards(s)[k]));
    SummaryCardShowsThrough(Page(t, rs, s, now, fmt), SummaryCards(s)[k], Offset(parts, CardsPart + k));
  }

  /**
   * The page shows the four figures under their titles: the number of tests,
   * how many passed, how many failed, and the pass rate with a `%` sign.
   */
  lemma {:induction false} PageShowsFigures(t: PageText, rs: seq<Record>, s: Summary, now: string, fmt: string -> string)
    ensures var page := Page(t, rs, s, now, fmt);
      && Shows(page, CardHeading("Total Tests")) && Shows(page, CardFigure(Decimal(s.total)))
      && Shows(page, CardHeading("Passed")) && Shows(page, CardFigure(Decimal(s.passed)))
      && Shows(page, CardHeading("Failed")) && Shows(page, CardFigure(Decimal(s.failed)))
      && Shows(page, CardHeading("Pass Rate")) && Shows(page, CardFigure(Decimal(s.passRate) + "%"))
  {
    PageShowsCard(t, rs, s, now, fmt, 0);
    PageShowsCard(t, rs, s, now, fmt, 1);
    PageShowsCard(t, rs, s, now, fmt, 2);
    PageShowsCard(t, rs, s, now, fmt, 3);
  }

  /**
   * In fragments joined together whose fragment `DetailsPart` is the detail
   * section, record `k`'s card occurs at the section's offset plus its own.
   */
  lemma {:induction false} CardInJoinedDetails(parts: seq<string>, page: string, rs: seq<Record>, fmt: string -> string, k: nat)
    requires page == Concat(parts) && DetailsPart < |parts| && parts[DetailsPart] == Details(rs, fmt) && k < |rs|
    ensures IsInfixAt(TestCard(rs[k], fmt), page, Offset(parts, DetailsPart) + Offset(TestCards(rs, fmt), k))
  {
    var base := Offset(parts, DetailsPart);
    assert IsInfixAt(Details(rs, fmt), page, base) by {
      PartAt(parts, DetailsPart, Details(rs, fmt));
    }
    CardInDetails(page, base, rs, fmt, k);
  }

  /**
   * Record `k`'s card is on the page, inside the detail section, at the
   * position of its own card among the detail cards.
   */
  lemma {:induction false} PageShowsRecord(t: PageText, rs: seq<Record>, s: Summary, now: string, fmt: string -> string, k: nat)
    requires k < |rs|
    ensures IsInfixAt(TestCard(rs[k], fmt), Page(t, rs, s, now, fmt),
                      Offset(PageParts(t, rs, s, now, fmt), DetailsPart) + Offset(TestCards(rs, fmt), k))
  {
    CardInJoinedDetails(PageParts(t, rs, s, now, fmt), Page(t, rs, s, now, fmt), rs, fmt, k);
  }

  /**
   * Every field of every loaded record is on the page: `id - name`, the
   * status in its badge, the username, the browser, the formatted execution
   * time and the step list.
   */
  lemma {:induction false} PageShowsRecordFields(t: PageText, rs: seq<Record>, s: Summary, now: string, fmt: string -> string, k: nat)
    requires k < |rs|
    ensures ShowsRecord(Page(t, rs, s, now, fmt), rs[k], fmt)
  {
    PageShowsRecord(t, rs, s, now, fmt, k);
    CardShowsThrough(Page(t, rs, s, now, fmt), rs[k], fmt,
                     Offset(PageParts(t, rs, s, now, fmt), DetailsPart) + Offset(TestCards(rs, fmt), k));
  }
}
