# Codes web service core, in Dafny

This project models the core of a reference-data lookup service for water-quality codes. The service returns controlled-vocabulary codes such as country codes, and it answers with JSON, XML or CSV. The model covers three pieces:

- **Paging-parameter coercion** (`Paging`, `paging.dfy`). The controller receives raw `text`, page-number and page-size strings. It turns them into the parameter map for the code DAO, with the keys `text`, `offset` and `fetchSize`.
  - A number is used only when its string passes the strict integer check (`IsInteger`).
  - `offset` is `(page - 1) * size`: the page number counts from 1.
  - An empty text is dropped, the same as a null one.
  - Unusable numbers are left out of the map. They never cause an error.
- **Conditional GET and lookups** (`Codes`, `codes.dfy`). `CodesRestController.GetList` and `GetCode` first compare the client's If-Modified-Since time with the time of the last ETL load, following section 3.3 of RFC 7232. If the client's copy is current, the answer is `ListNotModified` or `NotModified`.
  - Otherwise `GetList` returns the DAO's page together with the DAO's record count. Both DAO calls get the same parameter map.
  - `GetCode` returns the DAO's code unchanged as `Found`. For an unknown value it returns `NotFound` and sets the response status to 404.
  - The DAOs are external collaborators, written as a datatype of functions (`CodeDao`) and a time-stamp value (`LastUpdateDao`).
- **CSV export** (`Csv`, `csv.dfy`). `DoCsv` writes to a `PrintWriter`, modelled as an appended character buffer. It writes a header made of the first record's keys, then one line per record made of that record's own values, in insertion order.
  - Every field is wrapped in double quotes. Fields are joined with commas, and every line ends with `\n`.
  - Nothing is escaped.
  - A record is a sequence of (key, value) pairs, because a Java `LinkedHashMap` keeps insertion order.

`CodesRestController.java` and `PublicSrsnamesMvcService.java` are not part of this model. Their behaviour is taken from the unit tests that exercise them, `CodesRestControllerTest.java` and `PublicSrsnamesMvcServiceTest.java`.

A bad paging number is left out of the DAO map, and no default takes its place. `"-4"` and `"-2"` give no entry (CodesRestControllerTest.java:131-137). `IsInteger` is a non-empty all-digit check, which meets every asserted case.

The methods `Codes.GetListScenario` and `Codes.GetCodeScenario` replay the two controller tests against DAO doubles, and the verifier checks them. `Codes.EchoCode` models the list test's double: it copies the map entries it receives into the code it returns.

## Model

| member | source | states |
|---|---|---|
| `Paging.IsInteger` | src/test/java/gov/usgs/wma/qw/codes/webservices/CodesRestControllerTest.java:188-201 | An accepted literal is present and holds no sign, no decimal point and no blank. |
| `Paging.IsIntegerCases` | src/test/java/gov/usgs/wma/qw/codes/webservices/CodesRestControllerTest.java:188-201 | The integer check rejects null, `"a b c2"` and `"12.34"`, and accepts `"1234"`. |
| `Paging.SignedRejected` | src/test/java/gov/usgs/wma/qw/codes/webservices/CodesRestControllerTest.java:131-137 | No string with a leading `-` passes the integer check, so negative page numbers and sizes are never used. |
| `Paging.Show` | src/test/java/gov/usgs/wma/qw/codes/webservices/CodesRestControllerTest.java:78-79 | The decimal spelling of a number, as `String.valueOf` gives it, is non-empty, all digits and has no leading zero. |
| `Paging.ParseShow` | src/test/java/gov/usgs/wma/qw/codes/webservices/CodesRestControllerTest.java:99-105 | The decimal spelling of every natural number passes the integer check and reads back as that number. |
| `Paging.ParamMap` | src/test/java/gov/usgs/wma/qw/codes/webservices/CodesRestControllerTest.java:75-79 | The coerced DAO map: its keys are among `text`, `offset` and `fetchSize`, and an `offset` entry only comes with a `fetchSize` entry. |
| `Paging.BuildParams` | src/test/java/gov/usgs/wma/qw/codes/webservices/CodesRestControllerTest.java:75-79 | Building the DAO map by conditional puts into an empty map gives exactly `ParamMap` of the three raw strings. |
| `Paging.ParamMapEntries` | src/test/java/gov/usgs/wma/qw/codes/webservices/CodesRestControllerTest.java:107-145 | Each of the map's keys is `text`, `offset` or `fetchSize`. `text` is present iff the text is non-null and non-empty, and then holds it verbatim. `fetchSize` is present iff the size is an integer literal. `offset` is present iff page and size both are, and for a page from 1 on it then equals (page - 1) * size. |
| `Paging.EmptyTextIsAbsent` | src/test/java/gov/usgs/wma/qw/codes/webservices/CodesRestControllerTest.java:107-121 | For any paging strings, an empty text gives the same map as a null text, and that map has no `text` entry. |
| `Paging.PageWindow` | src/test/java/gov/usgs/wma/qw/codes/webservices/CodesRestControllerTest.java:94-105 | For every page p >= 1 and size s >= 1 written in decimal, the map has `fetchSize` = s and `offset` = (p - 1) * s. |
| `Paging.FirstPageCase` | src/test/java/gov/usgs/wma/qw/codes/webservices/CodesRestControllerTest.java:94-105 | Text `"US"`, page `"1"`, size `"5"` give exactly text `"US"`, offset 0 and fetchSize 5. |
| `Paging.NullAndEmptyCases` | src/test/java/gov/usgs/wma/qw/codes/webservices/CodesRestControllerTest.java:107-121 | All-null inputs and all-empty inputs both give the empty map. |
| `Paging.MalformedNumberCases` | src/test/java/gov/usgs/wma/qw/codes/webservices/CodesRestControllerTest.java:123-137 | `"y4"`/`"z2"` and `"-4"`/`"-2"` give no offset and no fetchSize, and the text `"xx x"` is kept verbatim. |
| `Paging.SizeWithoutPageCase` | src/test/java/gov/usgs/wma/qw/codes/webservices/CodesRestControllerTest.java:139-145 | Page `"X"` with size `"2"` gives fetchSize 2 and no offset. |
| `Paging.LaterPageCase` | src/test/java/gov/usgs/wma/qw/codes/webservices/CodesRestControllerTest.java:147-153 | Page `"4"` with size `"15"` gives offset 45 and fetchSize 15. |
| `Codes.EchoText` | src/test/java/gov/usgs/wma/qw/codes/webservices/CodesRestControllerTest.java:77 | The double's value is the `text` entry it receives, or null when there is none. |
| `Codes.EchoInt` | src/test/java/gov/usgs/wma/qw/codes/webservices/CodesRestControllerTest.java:78-79 | The double writes a number entry in decimal, and `"null"` for an absent one, as `String.valueOf` of a null `Integer` does. |
| `Codes.EchoCode` | src/test/java/gov/usgs/wma/qw/codes/webservices/CodesRestControllerTest.java:69-84 | The list test's DAO double: it copies `text`, `offset` and `fetchSize` into the value, description and providers of the one code it returns. |
| `Codes.EchoUnusableCases` | src/test/java/gov/usgs/wma/qw/codes/webservices/CodesRestControllerTest.java:107-137 | For null, empty and malformed paging strings, the list test's DAO double returns a code whose description and providers are `"null"`. Its value is the text, or null when the text is null or empty. |
| `Codes.EchoNumberCases` | src/test/java/gov/usgs/wma/qw/codes/webservices/CodesRestControllerTest.java:94-153 | For ("1","5"), ("X","2") and ("4","15"), the DAO double returns the description and providers that the test asserts: "0"/"5", "null"/"2" and "45"/"15". |
| `Codes.CheckNotModified` | src/test/java/gov/usgs/wma/qw/codes/webservices/CodesRestControllerTest.java:86-92 | The conditional-GET gate: it holds iff an If-Modified-Since time is given and is at or after the last ETL time. |
| `Codes.CodesRestController.GetList` | src/test/java/gov/usgs/wma/qw/codes/webservices/CodesRestControllerTest.java:86-101 | The result is "not modified" iff an If-Modified-Since is given and is at or after the last ETL. Otherwise the result is a list whose codes are the DAO page and whose recordCount is the DAO count, both for the same coerced map, whatever the page holds. |
| `Codes.CodesRestController.GetCode` | src/test/java/gov/usgs/wma/qw/codes/webservices/CodesRestControllerTest.java:157-186 | "Not modified" under the same gate, with the response status set to 304. Otherwise a code the DAO finds is returned unchanged. An unknown value gives NotFound and sets the status to 404. |
| `Codes.GetListScenario` | src/test/java/gov/usgs/wma/qw/codes/webservices/CodesRestControllerTest.java:66-155 | Replays the list test: the not-modified call, then the seven literal calls, with recordCount 12 and the echoed values the test asserts. |
| `Codes.GetCodeScenario` | src/test/java/gov/usgs/wma/qw/codes/webservices/CodesRestControllerTest.java:157-186 | Replays the single-code test: not modified with status 304, the found code returned unchanged, and `"XX"` giving NotFound with status 404. |
| `Csv.WriteLine` | src/test/java/gov/usgs/cida/qw/webservice/PublicSrsnamesMvcServiceTest.java:75 | Writing a line appends exactly the quoted, comma-joined fields and one newline to what was already written. |
| `Csv.DoCsv` | src/test/java/gov/usgs/cida/qw/webservice/PublicSrsnamesMvcServiceTest.java:59-76 | The writer's text becomes its old text followed by `CsvText(data)`: the header line, then one line per record, in order. |
| `Csv.SplitJoin` | src/test/java/gov/usgs/cida/qw/webservice/PublicSrsnamesMvcServiceTest.java:75 | Splitting at a separator undoes joining with it, when no part contains the separator. |
| `Csv.ParseRender` | src/test/java/gov/usgs/cida/qw/webservice/PublicSrsnamesMvcServiceTest.java:75 | Reading back rendered rows whose fields hold no quote, comma or newline gives the rows. |
| `Csv.CsvRoundTrip` | src/test/java/gov/usgs/cida/qw/webservice/PublicSrsnamesMvcServiceTest.java:64-75 | For fields without quotes, commas or newlines, the export reads back as one row more than there are records. Row 0 is the first record's keys in insertion order. Row i + 1 is record i's own values, with as many fields as record i has keys. |
| `Csv.CsvLineCount` | src/test/java/gov/usgs/cida/qw/webservice/PublicSrsnamesMvcServiceTest.java:70-75 | For n records whose fields hold no newline, the export has exactly n + 1 newlines and ends with one. |
| `Csv.HeaderIgnoresLaterKeys` | src/test/java/gov/usgs/cida/qw/webservice/PublicSrsnamesMvcServiceTest.java:67-69 | Two lists that agree on the first record's keys and on every record's values give the same text, so later records' keys never appear. |
| `Csv.DoCsvExample` | src/test/java/gov/usgs/cida/qw/webservice/PublicSrsnamesMvcServiceTest.java:60-76 | The two-record example `{bb:222, aa:111}`, `{xx:bbb, zz:ccc}` renders exactly as `"bb","aa"\n"222","111"\n"bbb","ccc"\n`. |

## Left out

- HTTP-layer concerns are not modelled. This covers mimetype negotiation and the 400 when the mimetype is missing, zip packaging, Content-Disposition file names, and JSON/XML serialisation. The tests only exercise these through a running web application.
- Parsing the If-Modified-Since date is not modelled: time stamps are integers.
- Codes.CodesRestController.GetList: takes no response object, so the 304 status that a not-modified list answer sets on the response is not modelled there. GetCode models it.
- The fifth argument of `getList` is not modelled. The tests pass only null (line 108) or an empty map (line 116), and the model covers exactly that case. What a non-empty map would add to the DAO map is not pinned down.
- The model cannot say whether the DAO is called for a not-modified request. DAO calls are pure functions, so a call cannot be observed.
- The DAO implementations, the database, Spring wiring, Swagger configuration and the Mockito plumbing are outside the model.
- `CodeType` lists a few vocabularies only. The controller passes the type through without looking at it.
- Paging.IsInteger: only ASCII digits are accepted. A leading `+` is refused by the model's choice, although Java's `Integer.parseInt` accepts it; no test covers a signed literal. The model does not say whether the production check also rejects literals outside Java's 32-bit `int` range. Numbers are unbounded, so `(page - 1) * size` cannot overflow in the model.
- Paging.ParamMap: no test pins down page `"0"`, size `"0"`, or a valid page with an unusable size. The model computes an offset of `-size` for page `"0"` and a fetchSize of 0 for size `"0"`, and it omits the offset when the size is unusable. These are the model's own choices.
- Paging.ParamMapEntries: states the offset value only for pages from 1 on. Which entries are present for page `"0"` and size `"0"`, and the fetchSize 0 for size `"0"`, follow the model's own choice above.
- Paging.PageWindow: covers pages and sizes from 1 on only, for the same reason.
- Csv.DoCsv: requires a non-empty record list, because the source does not pin down the output for an empty list.
- Csv.CsvRoundTrip: holds only for fields without quotes, commas or newlines, because the export does no escaping. A field containing any of them would not be read back correctly by a CSV reader.
- The export writes into an in-memory buffer. Streaming to an output stream and closing the writer are not modelled.
