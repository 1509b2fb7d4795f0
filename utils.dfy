/**
 * The result store and the HTML report of utils/utils.py: `append_result`, which
 * normalises a payload and appends one record, and `generate_html_report`, which
 * chooses a report file name, counts the outcomes and renders one table row per record.
 *
 * The file system is the finite set of paths that already exist; the clock is a
 * reading passed in as an integer timestamp.
 */
module Utils {
  import opened Wrappers
  import opened Strings
  import opened Payload

  const Passed := "PASSED"
  const Failed := "FAILED"

  /** The dictionary `append_result` appends: the duration is kept in integer clock ticks. */
  datatype Record = Record(testName: string, status: string, message: string, payload: Stored, duration: int)

  /** The Python list that `append_result` appends to. */
  class ResultList {
    var records: seq<Record>

    constructor ()
      ensures records == []
    {
      records := [];
    }
  }

  /**
   * `append_result`: a missing start or end time is replaced by the clock's reading
   * at that moment (`clockAtStart`, `clockAtEnd`), the payload is normalised, and
   * exactly one record is appended at the end; the earlier records stay as they were.
   */
  method AppendResult(results: ResultList, testName: string, status: string, message: string,
                      payload: Value, startTime: Option<int>, endTime: Option<int>,
                      clockAtStart: int, clockAtEnd: int)
    modifies results
    ensures |results.records| == |old(results.records)| + 1
    ensures results.records[..|old(results.records)|] == old(results.records)
    ensures results.records[|old(results.records)|] ==
      Record(testName, status, message, Normalise(payload),
             endTime.GetOr(clockAtEnd) - startTime.GetOr(clockAtStart))
  {
    var start := if startTime.None? then clockAtStart else startTime.value;
    var end := if endTime.None? then clockAtEnd else endTime.value;
    var duration := end - start;
    var stored := Normalise(payload);
    results.records := results.records + [Record(testName, status, message, stored, duration)];
  }

  // ---- Report file names: reports/report.html, reports/report1.html, ... ----

  const ReportBase := "reports/report"

  function Suffix(i: nat): string {
    if i == 0 then "" else NatToText(i)
  }

  /** The name tried at index `i` by the scan of `generate_html_report`. */
  function ReportName(i: nat): (n: string)
    ensures ReportBase <= n && n[|n| - 5..] == ".html"
    ensures i == 0 <==> |n| == |ReportBase| + 5
  {
    ReportBase + Suffix(i) + ".html"
  }

  /** Different indices give different names, so the scan cannot probe one name twice. */
  lemma ReportNameInjective(i: nat, j: nat)
    ensures ReportName(i) == ReportName(j) ==> i == j
  {
    if ReportName(i) == ReportName(j) {
      var a, b := ReportName(i), ReportName(j);
      assert a[|ReportBase|..|a| - 5] == Suffix(i);
      assert b[|ReportBase|..|b| - 5] == Suffix(j);
      NatToTextInjective(i, j);
    }
  }

  /** The names of the indices below `n`. */
  ghost function NamesBelow(n: nat): set<string> {
    set j: nat | j < n :: ReportName(j)
  }

  lemma {:induction false} NamesBelowSize(n: nat)
    ensures |NamesBelow(n)| == n
  {
    if n > 0 {
      NamesBelowSize(n - 1);
      var prev, last := NamesBelow(n - 1), ReportName(n - 1);
      forall j: nat | j < n - 1
        ensures ReportName(j) in prev && ReportName(j) != last
      {
        ReportNameInjective(j, n - 1);
      }
      assert last !in prev;
      forall x | x in NamesBelow(n)
        ensures x in prev + {last}
      {
        var j: nat :| j < n && x == ReportName(j);
      }
      assert NamesBelow(n) == prev + {last};
    }
  }

  lemma {:induction false} SubsetSize<T>(a: set<T>, b: set<T>)
    requires a <= b
    ensures |a| <= |b|
    decreases a
  {
    if a != {} {
      var x :| x in a;
      SubsetSize(a - {x}, b - {x});
    }
  }

  /** If the names of all indices below `n` already exist, there are at least `n` existing paths. */
  lemma TakenBound(existing: set<string>, n: nat)
    requires forall j: nat :: j < n ==> ReportName(j) in existing
    ensures n <= |existing|
  {
    NamesBelowSize(n);
    SubsetSize(NamesBelow(n), existing);
  }

  function FreeIndexFrom(existing: set<string>, i: nat): (r: nat)
    requires forall j: nat :: j < i ==> ReportName(j) in existing
    ensures i <= r && ReportName(r) !in existing
    ensures forall j: nat :: j < r ==> ReportName(j) in existing
    decreases |existing| - i
  {
    if ReportName(i) !in existing then i
    else
      TakenBound(existing, i + 1);
      FreeIndexFrom(existing, i + 1)
  }

  /** The smallest index whose name does not exist yet. */
  function FreeIndex(existing: set<string>): (r: nat)
    ensures ReportName(r) !in existing
    ensures forall j: nat :: j < r ==> ReportName(j) in existing
  {
    FreeIndexFrom(existing, 0)
  }

  /**
   * The name scan of `generate_html_report`: a linear probe from index 0 that stops
   * at the first name that does not exist. It ends on every finite set of paths.
   */
  method NextReportName(existing: set<string>) returns (filename: string)
    ensures filename !in existing
    ensures filename == ReportName(FreeIndex(existing))
  {
    var i: nat := 0;
    while true
      invariant forall j: nat :: j < i ==> ReportName(j) in existing
      invariant i <= |existing|
      decreases |existing| - i
    {
      filename := ReportBase + (if i == 0 then "" else NatToText(i)) + ".html";
      if filename !in existing {
        break;
      }
      TakenBound(existing, i + 1);
      i := i + 1;
    }
    assert filename == ReportName(i);
    var f := FreeIndex(existing);
    assert !(i < f) && !(f < i);
  }

  /** With no report yet, the first is reports/report.html. */
  lemma FirstReportName()
    ensures ReportName(FreeIndex({})) == "reports/report.html"
  {
    var f := FreeIndex({});
    assert f == 0;
  }

  /** After n reports with no gap, the next is the n-th name, so n runs make n distinct files. */
  lemma NextAfterRun(n: nat)
    ensures FreeIndex(NamesBelow(n)) == n
    ensures NamesBelow(n) + {ReportName(FreeIndex(NamesBelow(n)))} == NamesBelow(n + 1)
  {
    forall j: nat | j < n
      ensures ReportName(j) in NamesBelow(n) && ReportName(j) != ReportName(n)
    {
      ReportNameInjective(j, n);
    }
    assert NamesBelow(n + 1) == NamesBelow(n) + {ReportName(n)};
  }

  /** A deleted report name below the highest one is reused before any higher index. */
  lemma GapFilledFirst(n: nat, k: nat)
    requires k < n
    ensures FreeIndex(NamesBelow(n) - {ReportName(k)}) == k
  {
    var existing := NamesBelow(n) - {ReportName(k)};
    forall j: nat | j < k
      ensures ReportName(j) in existing
    {
      ReportNameInjective(j, k);
      assert ReportName(j) in NamesBelow(n);
    }
  }

  /** With report.html and report1.html present, the next report is report2.html. */
  lemma CollisionScenario()
    ensures ReportName(FreeIndex({"reports/report.html", "reports/report1.html"})) == "reports/report2.html"
  {
    FirstNames();
    assert NamesBelow(2) == {ReportName(0), ReportName(1)};
    NextAfterRun(2);
  }

  /** The first three names the scan tries. */
  lemma FirstNames()
    ensures ReportName(0) == "reports/report.html"
    ensures ReportName(1) == "reports/report1.html"
    ensures ReportName(2) == "reports/report2.html"
  {
    assert Suffix(1) == "1" && Suffix(2) == "2";
  }

  // ---- Summary counts ----

  /** `len([r for r in results if r["status"] == status])`. */
  function CountStatus(results: seq<Record>, status: string): (n: nat)
    ensures n <= |results|
  {
    if results == [] then 0
    else (if results[0].status == status then 1 else 0) + CountStatus(results[1..], status)
  }

  lemma {:induction false} CountStatusAppend(results: seq<Record>, r: Record, status: string)
    ensures CountStatus(results + [r], status) ==
      CountStatus(results, status) + (if r.status == status then 1 else 0)
  {
    if results != [] {
      assert (results + [r])[1..] == results[1..] + [r];
      CountStatusAppend(results[1..], r, status);
    }
  }

  predicate Classified(r: Record) {
    r.status == Passed || r.status == Failed
  }

  predicate AllClassified(results: seq<Record>) {
    forall i :: 0 <= i < |results| ==> Classified(results[i])
  }

  /** PASSED and FAILED never overlap, and they cover the list exactly when every status is one of them. */
  lemma {:induction false} Partition(results: seq<Record>)
    ensures CountStatus(results, Passed) + CountStatus(results, Failed) <= |results|
    ensures CountStatus(results, Passed) + CountStatus(results, Failed) == |results| <==> AllClassified(results)
  {
    if results != [] {
      Partition(results[1..]);
      assert forall i :: 1 <= i < |results| ==> results[1..][i - 1] == results[i];
      if AllClassified(results[1..]) && Classified(results[0]) {
        forall i | 0 <= i < |results| ensures Classified(results[i]) {
          if i > 0 { assert results[1..][i - 1] == results[i]; }
        }
      }
      if AllClassified(results) {
        forall i | 0 <= i < |results| - 1 ensures Classified(results[1..][i]) {
          assert results[1..][i] == results[i + 1];
        }
      }
    }
  }

  datatype Summary = Summary(total: nat, passed: nat, failed: nat)

  /** The counts shown at the top of the report: total, passed and failed. */
  function Summarise(results: seq<Record>): (s: Summary)
    ensures s.total == |results|
    ensures s.passed == CountStatus(results, Passed) && s.failed == CountStatus(results, Failed)
    ensures s.passed + s.failed <= s.total
    ensures s.passed + s.failed == s.total <==> AllClassified(results)
    ensures results == [] ==> s == Summary(0, 0, 0)
  {
    Partition(results);
    Summary(|results|, CountStatus(results, Passed), CountStatus(results, Failed))
  }

  // ---- Rendering ----

  /** The duration cell; seconds with two decimals in the source, integer ticks here. */
  function DurationText(d: int): string {
    IntToText(d) + " s"
  }

  /** The last cell of a row: message, a newline, then the payload, without HTML escaping. */
  function Display(r: Record): string {
    r.message + "\n" + StoredText(r.payload)
  }

  /** One table row: the name cell comes first and the message-plus-payload cell last. */
  function RowText(r: Record): (t: string)
    ensures "<tr><td>" + r.testName + "</td>" <= t
  {
    "<tr><td>" + r.testName + "</td><td class=\"" + r.status + "\">" + r.status
      + "</td><td>" + DurationText(r.duration) + "</td><td><pre>" + Display(r) + "</pre></td></tr>\n"
  }

  /** The last cell of a row holds the message, a newline and the stored payload. */
  lemma RowTextEnds(r: Record)
    ensures EndsWith(RowText(r), Display(r) + "</pre></td></tr>\n")
  {
  }

  /** The table rows, one per record, in the order of the list. */
  function Rows(results: seq<Record>): string {
    if results == [] then "" else RowText(results[0]) + Rows(results[1..])
  }

  lemma {:induction false} RowsAppend(results: seq<Record>, r: Record)
    ensures Rows(results + [r]) == Rows(results) + RowText(r)
  {
    if results != [] {
      assert (results + [r])[1..] == results[1..] + [r];
      RowsAppend(results[1..], r);
    }
  }

  // ---- Reading the rows back ----

  /** The four cells of one rendered row. */
  datatype Row = Row(name: string, status: string, duration: string, display: string)

  function RowOf(r: Record): Row {
    Row(r.testName, r.status, DurationText(r.duration), Display(r))
  }

  function TableOf(results: seq<Record>): (t: seq<Row>)
    ensures |t| == |results|
    ensures forall k :: 0 <= k < |results| ==> t[k] == RowOf(results[k])
  {
    if results == [] then [] else [RowOf(results[0])] + TableOf(results[1..])
  }

  /**
   * The record's text cannot be confused with the row's markup. The report does not
   * escape HTML, so only such records can be read back from it.
   */
  predicate MarkupFree(r: Record) {
    '<' !in r.testName && '<' !in r.status && '"' !in r.status && '<' !in Display(r)
  }

  function Expect(lit: string, s: string): Option<string> {
    if lit <= s then Some(s[|lit|..]) else None
  }

  /** Splits `s` before the first `c`, or at its end when there is none. */
  function TakeUntil(c: char, s: string): (r: (string, string))
    ensures r.0 + r.1 == s
  {
    if s == [] || s[0] == c then ([], s)
    else var (a, b) := TakeUntil(c, s[1..]); ([s[0]] + a, b)
  }

  lemma ExpectPrefix(lit: string, rest: string)
    ensures Expect(lit, lit + rest) == Some(rest)
  {
    assert (lit + rest)[|lit|..] == rest;
  }

  lemma {:induction false} TakeUntilPrefix(c: char, a: string, rest: string)
    requires c !in a && rest != [] && rest[0] == c
    ensures TakeUntil(c, a + rest) == (a, rest)
  {
    if a != [] {
      var s := a + rest;
      assert s[0] == a[0] && a[0] != c;
      assert s[1..] == a[1..] + rest;
      assert c !in a[1..];
      TakeUntilPrefix(c, a[1..], rest);
      assert TakeUntil(c, s) == ([s[0]] + a[1..], rest);
      assert [a[0]] + a[1..] == a;
    } else {
      assert a + rest == rest;
    }
  }

  /** Reads the markup `open`, then a cell's text up to the character `stop`. */
  function Cell(open: string, stop: char, s: string): (r: Option<(string, string)>)
    ensures r.Some? ==> |r.value.1| <= |s| - |open|
  {
    match Expect(open, s)
    case None => None
    case Some(s1) => Some(TakeUntil(stop, s1))
  }

  lemma CellPrefix(open: string, stop: char, cell: string, rest: string)
    requires stop !in cell && rest != [] && rest[0] == stop
    ensures Cell(open, stop, open + (cell + rest)) == Some((cell, rest))
  {
    ExpectPrefix(open, cell + rest);
    TakeUntilPrefix(stop, cell, rest);
  }

  /** Reads one row off the front of `s`; what follows is returned with it. */
  function ParseRow(s: string): (r: Option<(Row, string)>)
    ensures r.Some? ==> |r.value.1| < |s|
  {
    match Cell("<tr><td>", '<', s)
    case None => None
    case Some((name, s1)) =>
      match Cell("</td><td class=\"", '"', s1)
      case None => None
      case Some((status, s2)) =>
        match Cell("\">", '<', s2)
        case None => None
        case Some((_, s3)) =>
          match Cell("</td><td>", '<', s3)
          case None => None
          case Some((duration, s4)) =>
            match Cell("</td><td><pre>", '<', s4)
            case None => None
            case Some((display, s5)) =>
              match Expect("</pre></td></tr>\n", s5)
              case None => None
              case Some(rest) => Some((Row(name, status, duration, display), rest))
  }

  /** Reads consecutive rows until the text is used up; None when something else is found. */
  function ParseRows(s: string): Option<seq<Row>>
    decreases |s|
  {
    if s == [] then Some([])
    else match ParseRow(s)
      case None => None
      case Some((row, rest)) =>
        match ParseRows(rest)
        case None => None
        case Some(rows) => Some([row] + rows)
  }

  lemma DurationMarkupFree(d: int)
    ensures '<' !in DurationText(d)
  {
    var t := IntToText(d);
    if d >= 0 {
      assert forall i :: 0 <= i < |t| ==> IsDigit(t[i]);
    } else {
      assert forall i :: 1 <= i < |t| ==> t[i] == t[1..][i - 1] && IsDigit(t[1..][i - 1]);
    }
  }

  lemma Assoc(a: string, b: string, c: string)
    ensures (a + b) + c == a + (b + c)
  {
  }

  /**
   * A row read back in front of any text. The `Assoc` calls only re-bracket the row's
   * concatenation so that each cell meets the parser step that reads it.
   */
  lemma RowRoundTrip(r: Record, rest: string)
    requires MarkupFree(r)
    ensures ParseRow(RowText(r) + rest) == Some((RowOf(r), rest))
  {
    var d := DurationText(r.duration);
    DurationMarkupFree(r.duration);
    var x0 := "<tr><td>" + r.testName;
    var x1 := x0 + "</td><td class=\"";
    var x2 := x1 + r.status;
    var x3 := x2 + "\">";
    var x4 := x3 + r.status;
    var x5 := x4 + "</td><td>";
    var x6 := x5 + d;
    var x7 := x6 + "</td><td><pre>";
    var x8 := x7 + Display(r);
    var tail := "</pre></td></tr>\n" + rest;
    assert RowText(r) == x8 + "</pre></td></tr>\n";
    Assoc(x8, "</pre></td></tr>\n", rest);
    Assoc(x7, Display(r), tail);
    var t8 := Display(r) + tail;
    Assoc(x6, "</td><td><pre>", t8);
    var t7 := "</td><td><pre>" + t8;
    Assoc(x5, d, t7);
    var t6 := d + t7;
    Assoc(x4, "</td><td>", t6);
    var t5 := "</td><td>" + t6;
    Assoc(x3, r.status, t5);
    var t4 := r.status + t5;
    Assoc(x2, "\">", t4);
    var t3 := "\">" + t4;
    Assoc(x1, r.status, t3);
    var t2 := r.status + t3;
    Assoc(x0, "</td><td class=\"", t2);
    var t1 := "</td><td class=\"" + t2;
    Assoc("<tr><td>", r.testName, t1);
    assert RowText(r) + rest == "<tr><td>" + (r.testName + t1);
    CellPrefix("<tr><td>", '<', r.testName, t1);
    CellPrefix("</td><td class=\"", '"', r.status, t3);
    CellPrefix("\">", '<', r.status, t5);
    CellPrefix("</td><td>", '<', d, t7);
    CellPrefix("</td><td><pre>", '<', Display(r), tail);
    ExpectPrefix("</pre></td></tr>\n", rest);
  }

  /**
   * The rendered rows read back as exactly one row per record, in the order of the
   * list, each with the record's name, status, duration and message-plus-payload.
   */
  lemma {:induction false} RowsRoundTrip(results: seq<Record>)
    requires forall k :: 0 <= k < |results| ==> MarkupFree(results[k])
    ensures ParseRows(Rows(results)) == Some(TableOf(results))
  {
    if results != [] {
      RowRoundTrip(results[0], Rows(results[1..]));
      assert RowText(results[0]) != [];
      RowsRoundTrip(results[1..]);
    }
  }

  function Header(reportTime: string, s: Summary): string {
    "<html><head><title>Pytest BDD Report</title></head><body>\n"
      + "<h1>Pytest BDD Automation Report</h1>\n<div class=\"summary\">\n"
      + "<p><strong>Report Generated:</strong> " + reportTime + "</p>\n"
      + "<p><strong>Total Tests:</strong> " + NatToText(s.total) + "</p>\n"
      + "<p><strong>Passed:</strong> <span style=\"color:green;\">" + NatToText(s.passed) + "</span></p>\n"
      + "<p><strong>Failed:</strong> <span style=\"color:red;\">" + NatToText(s.failed) + "</span></p>\n"
      + "</div>\n<table>\n<tr><th>Test/Scenario Name</th><th>Outcome</th><th>Duration</th>"
      + "<th>Payload / Response</th></tr>\n"
  }

  function Footer(): string {
    "</table>\n</body>\n</html>\n"
  }

  /** The whole report: header with the summary counts, the rows, the closing tags. */
  function Document(results: seq<Record>, reportTime: string): string {
    Header(reportTime, Summarise(results)) + Rows(results) + Footer()
  }

  /** The `for r in results` loop of `generate_html_report`: each record's row is added in turn. */
  method RenderRows(results: seq<Record>) returns (rows: string)
    ensures rows == Rows(results)
  {
    rows := "";
    for k := 0 to |results|
      invariant rows == Rows(results[..k])
    {
      var r := results[k];
      assert results[..k + 1] == results[..k] + [r];
      RowsAppend(results[..k], r);
      rows := rows + RowText(r);
    }
    assert results[..|results|] == results;
  }

  /** The text `generate_html_report` writes: the header with the counts, each row, the footer. */
  method RenderReport(results: seq<Record>, reportTime: string) returns (html: string)
    ensures html == Document(results, reportTime)
  {
    var total := |results|;
    var passed := CountStatus(results, Passed);
    var failed := CountStatus(results, Failed);
    var summary := Summary(total, passed, failed);
    assert summary == Summarise(results);
    html := Header(reportTime, summary);
    var rows := RenderRows(results);
    html := html + rows + Footer();
  }

  /**
   * `generate_html_report`: a missing or empty `filename` is replaced by the scan's
   * name; the result is the path written and the text written to it.
   */
  method GenerateHtmlReport(results: seq<Record>, filename: Option<string>, existing: set<string>,
                            reportTime: string)
    returns (path: string, html: string)
    ensures filename.None? || filename.value == "" ==> path == ReportName(FreeIndex(existing))
    ensures filename.Some? && filename.value != "" ==> path == filename.value
    ensures html == Document(results, reportTime)
  {
    if filename.None? || filename.value == "" {
      path := NextReportName(existing);
    } else {
      path := filename.value;
    }
    html := RenderReport(results, reportTime);
  }
}
