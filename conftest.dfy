/**
 * The pytest hooks of conftest.py: `pytest_runtest_setup` stamps the start time on
 * the test item, `pytest_runtest_makereport` records one result per test for the
 * "call" phase, and `pytest_sessionfinish` picks a fresh report name and renders
 * the report. The module-level `test_results` list is the `testResults` field of
 * a `Plugin` object; clock readings are passed in as integer timestamps.
 */
module Conftest {
  import opened Wrappers
  import opened Strings
  import opened Payload
  import opened Utils

  /** `call.when`: the phase a report is made for. */
  datatype Phase = Setup | Call | Teardown

  /** What the hook reads of pytest's call info: the phase, and `str(call.excinfo.value)` when the call raised. */
  datatype CallInfo = CallInfo(when: Phase, excinfo: Option<string>)

  /** A pytest test item with the attributes the hooks and the test steps set on it. */
  class Item {
    const name: string
    var startTime: Option<int>
    var payload: Option<Value>

    constructor (name: string)
      ensures this.name == name && startTime.None? && payload.None?
    {
      this.name := name;
      startTime := None;
      payload := None;
    }
  }

  const SuccessMessage := "Test executed successfully. All assertions passed."
  const AssertionPrefix := "Assertion Failed: "
  const ErrorPrefix := "Error Occurred: "
  /** The payload passed on when the item has no `payload` attribute. */
  const MissingPayload := "N/A"

  /** The message of a failed call: its prefix says whether the error text mentions "assert". */
  function FailureReason(errorMessage: string): (reason: string)
    ensures Contains(errorMessage, "assert") ==> reason == AssertionPrefix + errorMessage
    ensures !Contains(errorMessage, "assert") ==> reason == ErrorPrefix + errorMessage
  {
    if Contains(errorMessage, "assert") then AssertionPrefix + errorMessage else ErrorPrefix + errorMessage
  }

  /** The prefix of a failure message tells the two cases apart, and the error text follows it unchanged. */
  lemma FailureReasonDecodes(errorMessage: string)
    ensures var reason := FailureReason(errorMessage);
      (AssertionPrefix <= reason <==> Contains(errorMessage, "assert")) &&
      (ErrorPrefix <= reason <==> !Contains(errorMessage, "assert")) &&
      (Contains(errorMessage, "assert") ==> reason[|AssertionPrefix|..] == errorMessage) &&
      (!Contains(errorMessage, "assert") ==> reason[|ErrorPrefix|..] == errorMessage)
  {
    var reason := FailureReason(errorMessage);
    if Contains(errorMessage, "assert") {
      assert reason[0] == 'A';
      assert !(ErrorPrefix <= reason) by { assert ErrorPrefix[0] != reason[0]; }
    } else {
      assert reason[0] == 'E';
      assert !(AssertionPrefix <= reason) by { assert AssertionPrefix[0] != reason[0]; }
    }
  }

  /** Status and message for a call: PASSED with the fixed text, or FAILED whatever the message prefix. */
  function Outcome(excinfo: Option<string>): (r: (string, string))
    ensures excinfo.None? <==> r.0 == Passed
    ensures excinfo.Some? <==> r.0 == Failed
    ensures excinfo.None? ==> r.1 == SuccessMessage
    ensures excinfo.Some? ==> r.1 == FailureReason(excinfo.value)
  {
    match excinfo
    case None => (Passed, SuccessMessage)
    case Some(e) => (Failed, FailureReason(e))
  }

  /**
   * The record `pytest_runtest_makereport` appends for a call phase, from the item's
   * name, its `start_time` and `payload` attributes (None when not set), the call's
   * error text, the clock reading taken for the `getattr` default and the end reading.
   */
  function CallRecord(name: string, startTime: Option<int>, payload: Option<Value>,
                      excinfo: Option<string>, clockAtDefault: int, clockAtEnd: int): (r: Record)
    ensures Classified(r)
    ensures r.testName == name && (r.status, r.message) == Outcome(excinfo)
    ensures r.duration == clockAtEnd - startTime.GetOr(clockAtDefault)
    ensures r.payload == Normalise(payload.GetOr(Str(MissingPayload)))
    ensures payload.None? ==> r.payload == Textual(MissingPayload)
    ensures r.payload == Textual(NoData) ==> payload == Some(Null) || payload == Some(Str(NoData))
  {
    var p := payload.GetOr(Str(MissingPayload));
    JsonBrackets(p, 0);
    var (status, message) := Outcome(excinfo);
    Record(name, status, message, Normalise(p), clockAtEnd - startTime.GetOr(clockAtDefault))
  }

  /** A missing start time falls back to a reading taken before the end reading, so the duration is not negative. */
  lemma DurationNonNegative(name: string, startTime: Option<int>, payload: Option<Value>,
                            excinfo: Option<string>, clockAtDefault: int, clockAtEnd: int)
    requires clockAtDefault <= clockAtEnd
    requires startTime.Some? ==> startTime.value <= clockAtEnd
    ensures CallRecord(name, startTime, payload, excinfo, clockAtDefault, clockAtEnd).duration >= 0
  {
  }

  const BaseName := "report"

  /** The name `pytest_sessionfinish` tries at index `i`, built as that hook builds it. */
  function SessionFileName(i: nat): (n: string)
    ensures n == ReportName(i)
  {
    if i == 0 then "reports/" + BaseName + ".html" else "reports/" + BaseName + NatToText(i) + ".html"
  }

  /** The conftest.py state: the module-level `test_results` list. */
  class Plugin {
    const testResults: ResultList

    /** Every record the hooks append is PASSED or FAILED. */
    ghost predicate Valid()
      reads this, testResults
    {
      AllClassified(testResults.records)
    }

    constructor ()
      ensures Valid() && fresh(testResults) && testResults.records == []
    {
      testResults := new ResultList();
    }

    /** `pytest_runtest_setup`: stamps the item with the current clock reading. */
    method RuntestSetup(item: Item, now: int)
      modifies item
      ensures item.startTime == Some(now) && item.payload == old(item.payload)
    {
      item.startTime := Some(now);
    }

    /**
     * `pytest_runtest_makereport`: for the call phase one record is appended; setup and
     * teardown reports leave the results unchanged.
     */
    method RuntestMakereport(item: Item, call: CallInfo, clockAtDefault: int, clockAtEnd: int)
      requires Valid()
      modifies testResults
      ensures Valid()
      ensures call.when != Call ==> testResults.records == old(testResults.records)
      ensures call.when == Call ==>
        testResults.records == old(testResults.records) +
          [CallRecord(item.name, item.startTime, item.payload, call.excinfo, clockAtDefault, clockAtEnd)]
    {
      if call.when == Call {
        var startTime := item.startTime.GetOr(clockAtDefault);
        var endTime := clockAtEnd;
        var payload := item.payload.GetOr(Str(MissingPayload));
        ghost var r := CallRecord(item.name, item.startTime, item.payload, call.excinfo, clockAtDefault, clockAtEnd);
        if call.excinfo.None? {
          AppendResult(testResults, item.name, Passed, SuccessMessage, payload,
                       Some(startTime), Some(endTime), startTime, endTime);
        } else {
          var errorMessage := call.excinfo.value;
          var reason := FailureReason(errorMessage);
          AppendResult(testResults, item.name, Failed, reason, payload,
                       Some(startTime), Some(endTime), startTime, endTime);
        }
        assert testResults.records == old(testResults.records) + [r];
        forall i | 0 <= i < |testResults.records|
          ensures Classified(testResults.records[i])
        {
          if i < |old(testResults.records)| {
            assert testResults.records[i] == old(testResults.records)[i];
          }
        }
      }
    }

    /**
     * `pytest_sessionfinish`: its own copy of the name scan picks the first report name
     * that does not exist, and that name is passed on, so the report's own scan is skipped.
     */
    method SessionFinish(existing: set<string>, reportTime: string) returns (path: string, html: string)
      requires Valid()
      ensures path == ReportName(FreeIndex(existing)) && path !in existing
      ensures html == Document(testResults.records, reportTime)
      ensures var s := Summarise(testResults.records); s.passed + s.failed == s.total
    {
      var filename := SessionScan(existing);
      path, html := GenerateHtmlReport(testResults.records, Some(filename), existing, reportTime);
    }
  }

  /** The `while True` loop of `pytest_sessionfinish`: the first of its names that does not exist. */
  method SessionScan(existing: set<string>) returns (filename: string)
    ensures filename == ReportName(FreeIndex(existing)) && filename !in existing
  {
    var i: nat := 0;
    while true
      invariant forall j: nat :: j < i ==> ReportName(j) in existing
      invariant i <= |existing|
      decreases |existing| - i
    {
      filename := SessionFileName(i);
      if filename !in existing {
        break;
      }
      TakenBound(existing, i + 1);
      i := i + 1;
    }
    var f := FreeIndex(existing);
    assert !(i < f) && !(f < i);
  }

  const ScenarioError := "AssertionError: assert 1==2"
  const GetPayload := Dict([Entry("id", Str("x1"))])
  const UpdatePayload := Dict([Entry("a", Int(1)), Entry("b", Int(2))])

  /** The scenario's error text mentions "assert" (the capitalised "Assertion" alone would not do). */
  lemma ScenarioErrorMentionsAssert()
    ensures Contains(ScenarioError, "assert")
  {
    assert OccursAt(ScenarioError, "assert", 16) by {
      assert ScenarioError[16..22] == "assert";
    }
    ContainsIff(ScenarioError, "assert");
  }

  /** So the failing test's message takes the assertion prefix. */
  lemma AssertionScenarioReason()
    ensures FailureReason(ScenarioError) == AssertionPrefix + ScenarioError
  {
    ScenarioErrorMentionsAssert();
  }

  lemma ScenarioQuotes()
    ensures Quote("id") == "\"id\"" && Quote("x1") == "\"x1\""
  {
    EscapePlain("id");
    EscapePlain("x1");
  }

  lemma ScenarioEntryLine()
    ensures JsonEntries([Entry("id", Str("x1"))], 1) == "\n  \"id\": \"x1\""
  {
    ScenarioQuotes();
    assert Indent(1) == "  ";
  }

  /** json.dumps({"id": "x1"}, indent=2). */
  lemma OneEntryJson()
    ensures ToJson(GetPayload, 0) == "{\n  \"id\": \"x1\"\n}"
  {
    ScenarioEntryLine();
  }

  /** The failing test of the three-test session: an assertion error with a one-entry dict payload. */
  lemma FailingCallRecord()
    ensures var r := CallRecord("test_get", Some(4), Some(GetPayload),
                                Some(ScenarioError), 5, 6);
      r == Record("test_get", Failed, AssertionPrefix + ScenarioError,
                  Textual("{\n  \"id\": \"x1\"\n}"), 2)
  {
    AssertionScenarioReason();
    OneEntryJson();
  }

  /** A session of two PASSED records and one FAILED record counts 3, 2 and 1. */
  lemma ThreeRecordSummary(a: Record, b: Record, c: Record)
    requires a.status == Passed && b.status == Failed && c.status == Passed
    ensures Summarise([a, b, c]) == Summary(3, 2, 1)
  {
    assert Passed != Failed by {
      assert Passed[0] != Failed[0];
    }
    assert [a, b, c][1..] == [b, c];
    assert [b, c][1..] == [c];
    assert [c][1..] == [];
    assert CountStatus([c], Passed) == 1 && CountStatus([c], Failed) == 0;
    assert CountStatus([b, c], Passed) == 1 && CountStatus([b, c], Failed) == 1;
  }

  /**
   * One test as pytest drives it: setup at clock `t0`, a report for each of the three
   * phases, with the test body attaching `payload` before its call report. Only the
   * call report adds a record.
   */
  method RunTest(plugin: Plugin, name: string, payload: Option<Value>, excinfo: Option<string>, t0: int)
    requires plugin.Valid()
    modifies plugin.testResults
    ensures plugin.Valid()
    ensures plugin.testResults.records ==
      old(plugin.testResults.records) + [CallRecord(name, Some(t0), payload, excinfo, t0 + 1, t0 + 2)]
  {
    var item := new Item(name);
    plugin.RuntestSetup(item, t0);
    plugin.RuntestMakereport(item, CallInfo(Setup, None), t0, t0);
    item.payload := payload;
    plugin.RuntestMakereport(item, CallInfo(Call, excinfo), t0 + 1, t0 + 2);
    plugin.RuntestMakereport(item, CallInfo(Teardown, None), t0 + 3, t0 + 3);
  }

  /**
   * The three tests of the session: one passes with no payload attribute, one fails with
   * `error` and the payload `get`, and one passes with the payload `update` (the session
   * below passes an assertion error, {"id": "x1"} and {"a": 1, "b": 2}).
   */
  method RecordThreeTests(plugin: Plugin, get: Value, error: string, update: Value)
    requires plugin.Valid() && plugin.testResults.records == []
    modifies plugin.testResults
    ensures plugin.Valid()
    ensures plugin.testResults.records == [
      CallRecord("test_create", Some(0), None, None, 1, 2),
      CallRecord("test_get", Some(4), Some(get), Some(error), 5, 6),
      CallRecord("test_update", Some(8), Some(update), None, 9, 10)]
  {
    RunTest(plugin, "test_create", None, None, 0);
    RunTest(plugin, "test_get", Some(get), Some(error), 4);
    RunTest(plugin, "test_update", Some(update), None, 8);
  }

  /** The whole session, ending with the report: counts 3/2/1, the failure's row, a first report name. */
  method ThreeTestSession() returns (summary: Summary, second: Record, path: string)
    ensures summary == Summary(3, 2, 1)
    ensures second.message == AssertionPrefix + ScenarioError
    ensures second.payload == Textual("{\n  \"id\": \"x1\"\n}")
    ensures path == "reports/report.html"
  {
    var plugin := new Plugin();
    RecordThreeTests(plugin, GetPayload, ScenarioError, UpdatePayload);
    var records := plugin.testResults.records;
    ThreeRecordSummary(records[0], records[1], records[2]);
    summary := Summarise(records);
    FailingCallRecord();
    second := records[1];
    var html;
    path, html := plugin.SessionFinish({}, "2024-01-01 00:00:00");
    FirstReportName();
  }
}
