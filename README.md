# Test-result recording and HTML report, modelled in Dafny

This project models the result-collection and report pipeline of a pytest-bdd test
suite. The pytest hooks in `conftest.py` time each test and classify its outcome. They
append one record per test to an ordered list. At the end of the session they pick a
report file name that does not exist yet and render the list into an HTML report.
`utils/utils.py` holds the record constructor (`append_result`, with its payload
normalisation) and the renderer (`generate_html_report`, with its own copy of the
name scan, the summary counts and the row loop).

Modules: one per source file (`Utils`, `Conftest`) plus three helpers (`Wrappers`, `Strings`, `Payload`). `Payload` holds the payload normalisation of `append_result` in utils/utils.py, and the JSON text it produces:

- `Wrappers` (wrappers.dfy): `Option`, used for Python attributes and arguments that may be absent.
- `Strings` (strings.dfy): decimal text of integers (`str(n)`) and Python's substring test `in`.
- `Payload` (payload.dfy): the Python values a test can attach, JSON text as `json.dumps(indent=2)` lays it out, and the normalisation of `append_result`.
- `Utils` (utils.dfy): `utils/utils.py`, covering the result list, `append_result`, the report-name scan, the counts, the rows and `generate_html_report`.
- `Conftest` (conftest.dfy): `conftest.py`. The module-level `test_results` list is the field of a `Plugin` object. The three hooks are its methods. A three-test session is included as a client.

How the outside world is represented:

- The file system is the finite set of paths that already exist.
- Each clock reading is an integer passed to the hook that takes it.
- The report's generation time is a string parameter.
- Writing the file is modelled by returning the path and the document text.

## Model

| member | source | states |
|---|---|---|
| Strings.NatToText | utils/utils.py:36 | the index in a report name is written as decimal digits with no leading zero |
| Strings.IntToText | utils/utils.py:16 | `str(n)` of an int, as json.dumps and the payload f-string at line 123 write it: a leading `-` exactly for a negative number, followed by the decimal digits of its magnitude; digits only otherwise |
| Strings.NatToTextRoundTrip | utils/utils.py:36 | the decimal text of an index reads back as that index |
| Strings.NatToTextInjective | utils/utils.py:36 | distinct indices have distinct decimal texts |
| Strings.Contains | conftest.py:34 | Python's `sub in s`: true when `sub` is a prefix of `s` or of one of its suffixes; its meaning is stated by ContainsIff |
| Strings.ContainsIff | conftest.py:34 | `"assert" in error_message` is true exactly when "assert" occurs at some position of the text, case-sensitively |
| Payload.StoredText | utils/utils.py:123 | the text an f-string shows for a stored payload: strings verbatim, integers in decimal, booleans as `True` / `False` |
| Payload.EscapeChar | utils/utils.py:16 | the escape of one character, for the escapes the model writes (quotes, backslashes, `\n \r \t \b \f`): never empty; it begins with a backslash exactly when it is two characters long; a one-character escape is the character itself |
| Payload.Quote | utils/utils.py:16 | a JSON string literal: the escaped text between double quotes |
| Payload.Escape | utils/utils.py:16 | the body of a JSON string literal: each character replaced by its escape, for the escapes the model writes (quotes, backslashes, `\n \r \t \b \f`); its properties are stated by EscapeLength, EscapeRoundTrip and EscapePlain |
| Payload.EscapeLength | utils/utils.py:16 | for the escapes the model writes (quotes, backslashes, `\n \r \t \b \f`), each character escapes to one or two characters, so the escaped text is at least as long as the original and at most twice as long |
| Payload.Indent | utils/utils.py:16 | the indentation of nesting level n is 2n spaces (`indent=2`) |
| Payload.ToJson | utils/utils.py:16 | `json.dumps(v, indent=2)`: `null`, `true` / `false`, decimal integers, quoted strings escaped for the escapes the model writes (quotes, backslashes, `\n \r \t \b \f`), and lists and dicts with one item per line indented one level deeper and the closing bracket on its own line at the outer level; `[]` and `{}` when empty |
| Payload.JsonItems | utils/utils.py:16 | contract: the text begins with a newline and the indentation of its level, so the first item starts a line of its own; definition: the items of a non-empty list, one per line, separated by commas |
| Payload.JsonEntries | utils/utils.py:16 | contract: the text begins with a newline and the indentation of its level; definition: the `"key": value` entries of a non-empty dict, one per line, separated by commas |
| Payload.JsonKind | utils/utils.py:16 | the JSON text is never empty, and its first character tells the kind in both directions: `[` exactly for a list, `{` exactly for a dict, `"` exactly for a string |
| Payload.Normalise | utils/utils.py:15-22 | a None payload becomes "No Data"; a dict or list becomes its indented JSON text; a string, int or bool is kept unchanged |
| Payload.NormaliseIdempotent | utils/utils.py:15-22 | normalising an already stored payload returns it unchanged |
| Payload.NormalisedIsScalar | utils/utils.py:15-22 | a stored payload is never a dict, a list or None |
| Payload.JsonBrackets | utils/utils.py:16 | the JSON text of a list is bracketed by `[` `]`, and that of a dict by `{` `}` |
| Payload.EscapeRoundTrip | utils/utils.py:16 | the escaped body of a JSON string literal reads back as the original string |
| Payload.EscapePlain | utils/utils.py:16 | for the escapes the model writes (quotes, backslashes, `\n \r \t \b \f`), text without quotes, backslashes or those five control characters is its own escaped form |
| Utils.ResultList.constructor | conftest.py:6 | a new result list is empty, as `test_results = []` |
| Utils.AppendResult | utils/utils.py:7-24 | exactly one record is appended at the end and earlier records are untouched; it carries the name, status and message verbatim, the normalised payload, and duration end minus start, using the clock reading for a missing start or end |
| Utils.Suffix | utils/utils.py:36 | `'' if i==0 else i`: empty at index 0, the decimal text of i otherwise |
| Utils.ReportName | utils/utils.py:36 | the name tried at index i begins with reports/report and ends with .html; it is exactly reports/report.html (no digits) when i is 0 |
| Utils.FirstNames | utils/utils.py:36 | the first three names tried are reports/report.html, reports/report1.html and reports/report2.html |
| Utils.ReportNameInjective | utils/utils.py:36 | the scan never tries the same name at two indices |
| Utils.TakenBound | utils/utils.py:35-39 | if the names of the first n indices all exist, at least n paths exist, so the scan ends |
| Utils.FreeIndexFrom | utils/utils.py:35-39 | scanning on from an index whose predecessors are all taken reaches a free index, and every index before it is taken |
| Utils.FreeIndex | utils/utils.py:33-39 | the chosen index's name does not exist, and the name of every smaller index does |
| Utils.NextReportName | utils/utils.py:31-39 | the `while True` scan ends on every finite set of paths; it returns the name of the smallest free index, which is not an existing path |
| Utils.FirstReportName | utils/utils.py:34-36 | with no report present the name is reports/report.html |
| Utils.NextAfterRun | utils/utils.py:33-39 | after n reports with no gap the next name is the n-th, so n successive runs create n distinct files |
| Utils.GapFilledFirst | utils/utils.py:33-39 | a deleted name below the highest one is reused before any higher index is tried |
| Utils.CollisionScenario | utils/utils.py:33-39 | with report.html and report1.html present the next name is reports/report2.html |
| Utils.CountStatus | utils/utils.py:43-44 | the count of records with a given status is at most the number of records |
| Utils.CountStatusAppend | utils/utils.py:43-44 | appending one record raises a status's count by one exactly when the record has that status |
| Utils.Partition | utils/utils.py:42-44 | passed plus failed is at most the total, with equality exactly when every status is PASSED or FAILED |
| Utils.Summarise | utils/utils.py:41-44 | total is the list length; passed and failed count the PASSED and FAILED records; they partition the list exactly when every status is one of the two; the empty list gives 0/0/0 |
| Utils.DurationText | utils/utils.py:23 | the duration cell's text: the integer duration in decimal followed by " s" (the source's two-decimal float is left out) |
| Utils.Display | utils/utils.py:123 | `payload_display`: the message, a newline, then the stored payload |
| Utils.RowText | utils/utils.py:124-131 | one record's table row: name cell, status cell (the status is both its class and its text), duration cell, message-plus-payload cell; the row begins with the name cell |
| Utils.RowTextEnds | utils/utils.py:129-130 | a row ends with the `<pre>` cell holding the message-plus-payload text, then closes the row |
| Utils.Rows | utils/utils.py:122-131 | the rows of all records concatenated in list order; RowsRoundTrip reads them back |
| Utils.RowsAppend | utils/utils.py:122-131 | adding a record to the list adds its row after all the earlier rows |
| Utils.RenderRows | utils/utils.py:122-131 | the loop's text is the rows of all records in list order |
| Utils.RowRoundTrip | utils/utils.py:123-131 | a record's row reads back as its name, status, duration and `message + "\n" + payload`, provided its text holds no markup characters |
| Utils.RowsRoundTrip | utils/utils.py:122-131 | the rendered rows read back as exactly one row per record, in list order, each with that record's cells, provided no field holds markup characters |
| Utils.Header | utils/utils.py:46-120 | the document head and the summary block: generation time, total, passed and failed counts in decimal, then the table's header row |
| Utils.Footer | utils/utils.py:133-137 | the closing tags of the table, the body and the document |
| Utils.Document | utils/utils.py:46-137 | the whole report text: header with the counts of Summarise, then the rows, then the closing tags |
| Utils.RenderReport | utils/utils.py:41-137 | the text built by the counts, the row loop and the closing tags is the Document of the results |
| Utils.GenerateHtmlReport | utils/utils.py:27-143 | a given non-empty filename is used as is; a missing or empty one is replaced by the scan's name; the document holds the summary counts and the rows |
| Conftest.FailureReason | conftest.py:33-34 | the failure message is "Assertion Failed: " + text when the text contains "assert", and "Error Occurred: " + text otherwise |
| Conftest.FailureReasonDecodes | conftest.py:34 | the prefix tells the two cases apart in both directions, and the error text follows the prefix unchanged |
| Conftest.Outcome | conftest.py:22-43 | no exception gives PASSED with the fixed success message; an exception gives FAILED whatever the message prefix |
| Conftest.CallRecord | conftest.py:14-43 | the record built for a call is PASSED or FAILED; a missing payload attribute becomes "N/A", so "No Data" appears only for a None (or literal "No Data") payload; the duration is end minus the start time or the default reading |
| Conftest.DurationNonNegative | conftest.py:15-17 | with readings that do not go backwards the recorded duration is not negative |
| Conftest.SessionFileName | conftest.py:54-57 | the hook's name for index i, built with its own `if i == 0` branch, equals the name the utils scan tries at i |
| Conftest.Item.constructor | conftest.py:15-20 | a pytest item before setup: its name, and neither a `start_time` nor a `payload` attribute, so `getattr` falls back to its default |
| Conftest.Plugin.Valid | conftest.py:26-38 | the invariant of the result list: every record the hooks store has status PASSED or FAILED |
| Conftest.Plugin.constructor | conftest.py:6 | the session starts with an empty result list |
| Conftest.Plugin.RuntestSetup | conftest.py:8-10 | the item's start time is set to the clock reading and nothing else changes |
| Conftest.Plugin.RuntestMakereport | conftest.py:12-43 | setup and teardown reports leave the list unchanged; a call report appends exactly the record CallRecord describes; every stored status stays PASSED or FAILED |
| Conftest.SessionScan | conftest.py:50-60 | the hook's own `while True` scan ends and picks the smallest free name, the same name the utils scan picks |
| Conftest.Plugin.SessionFinish | conftest.py:45-62 | the scanned name is passed on, so the report's own scan is skipped; the report holds the recorded results, over which passed + failed == total |
| Conftest.ScenarioErrorMentionsAssert | conftest.py:34 | "AssertionError: assert 1==2" contains "assert" |
| Conftest.AssertionScenarioReason | conftest.py:34 | that error text gets the "Assertion Failed: " prefix |
| Conftest.OneEntryJson | utils/utils.py:15-16 | {"id": "x1"} is stored as its two-space-indented JSON text |
| Conftest.FailingCallRecord | conftest.py:32-43 | the failing call of the session yields a FAILED record with the assertion message and the JSON payload |
| Conftest.ThreeRecordSummary | utils/utils.py:42-44 | two PASSED records and one FAILED record count 3/2/1 |
| Conftest.RunTest | conftest.py:8-43 | a test driven through setup, call and teardown adds exactly one record, built from its call report |
| Conftest.RecordThreeTests | conftest.py:12-43 | three tests leave exactly their three call records, in order |
| Conftest.ThreeTestSession | conftest.py:45-62 | the whole three-test session counts 3/2/1; its second row carries the assertion message and the JSON payload; with no prior report it is written to reports/report.html |

Behaviour of the code that the model keeps:

- A test with no `payload` attribute is recorded with the payload "N/A" (`getattr` default at conftest.py:20), not "No Data".
- The rows are not HTML-escaped (utils/utils.py:126-129). So the rows can be read back only when the fields hold no `<` (and the status no `"`). `Utils.RowsRoundTrip` states this as its precondition.
- The duration is `end - start` with no clamping. It is non-negative only when the clock does not go backwards, as `Conftest.DurationNonNegative` states.
- `append_result` accepts any status string. So passed + failed can fall short of the total. The hooks only ever store PASSED and FAILED, and `Conftest.Plugin.Valid` keeps that invariant.
- An empty `filename` also triggers the scan, because Python treats `""` as false (utils/utils.py:31).

## Left out

- Utils.AppendResult: keeps the duration as an integer difference of clock readings, not the text `f"{duration:.2f} s"`. Float formatting is not modelled, and the report shows the integer followed by " s".
- Payload.Escape: with `ensure_ascii`, `json.dumps` writes every other character outside space..`~` as `\uXXXX` (a surrogate pair for one above U+FFFF); the model keeps such characters as they are.
- Payload.EscapeChar: the same `\uXXXX` gap as Payload.Escape.
- Payload.EscapeLength: the bound of twice the length holds only for the modelled escapes; a `\uXXXX` escape takes six characters, a surrogate pair twelve.
- Payload.EscapePlain: in Python only printable ASCII text without quotes or backslashes is its own escaped form; the model also leaves other characters unescaped.
- Payload.ToJson: its string literals have the `\uXXXX` gap of Payload.Escape.
- Payload.Normalise: its JSON text escapes only quotes, backslashes and the short control escapes (`\n`, `\r`, `\t`, `\b`, `\f`). The `\uXXXX` escapes that `ensure_ascii` produces for other characters are not modelled.
- Payload values other than None, bool, int, str, list and dict are not modelled. This covers floats, tuples, objects and dicts with non-string keys.
- `os.makedirs`, `open(...).write`, `print` and `webbrowser.open` are I/O. The file system is only the set of existing paths the scan reads, and the report is returned rather than written.
- `datetime.now` and `strftime`: clock readings are integer parameters and the generation time is a string.
- The CSS and the HTML boilerplate are shortened, and the whitespace of the generated text is not reproduced verbatim. Only the table structure of each row is kept.
- `tests/test_object_lifecycle.py`: HTTP calls through an API client that is not part of this model, plus step wiring. This is domain glue, not part of the pipeline.
- The pytest `item` and `call` objects are reduced to what the hooks read: name, start time, payload, phase and error text.
- Concurrent test execution and concurrent report generation are not modelled. Execution is sequential.
