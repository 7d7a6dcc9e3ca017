# Federal spend analyzer — Dafny model

The analyzer answers one question over USAspending data: which of the top N
business recipients of federal obligations in FY2023 saw their obligated
amount fall by more than a given percentage in FY2024. Its backend endpoint
(`AnalyzeSpendView` in `backend/api/views.py`) does four things, and this
project models each of them:

- **Validation.** It checks the two request fields `topN` and `declinePct`.
- **FY2023 fetch.** It fetches the top-N FY2023 recipients. When that list is empty it returns at once, without a second fetch.
- **FY2024 fetch.** It fetches FY2024 data for the same DUNS codes.
- **Join and filter.** It joins the two lists and keeps only the recipients whose percentage change is strictly below `-declinePct`.

Modules, one per concern of the view:

- `SpendTypes` (`spend_types.dfy`): the records from the API (`Record`), the output rows (`Row`), `Option` and `Result`.
- `JoinFilter` (`join_filter.dfy`): `process_and_filter_data`.
  - The FY2024 lookup map is a left-to-right fold, `BuildMap`, so the last write wins.
  - The loop is the method `ProcessAndFilter`. Its result is proved equal to the specification function `FilterRows`.
  - The lemmas prove soundness, order, provenance, completeness and the no-division form of the filter.
- `RequestPayload` (`request_payload.dfy`): the request body built by `fetch_spending_data`.
  - `BuildPayload` is a method that updates the payload step by step, as the source does. It is proved equal to the function `PayloadFor`.
  - Dates are (year, month, day) triples. The lemma `FiscalYearWindow` proves that the time period covers exactly the days of the requested fiscal year.
- `AnalyzeHandler` (`analyze_handler.dfy`): the validation and control flow of `post`.
  - The upstream API is a total function from payloads to fetch outcomes (the fetch oracle).
  - `Post` returns the response together with the list of payloads it sent, so the model can state which fetches happen.

Amounts are `real`, so the model has no floating-point rounding. A request
field arrives as `Raw<T>`: it is either missing, or present with two facts
recorded separately. One is its Python truthiness. The other is what `int()`
or `float()` made of it (None when the coercion raised). The handler's
`if not ...` test and its `try: int(...)/float(...)` block check these two
facts separately.

Behaviour of the code that the model follows as written:

- The code does not drop records that lack a DUNS; in the model every record carries one. FY2023 amounts are not checked to be non-negative: the join just skips every amount `<= 0`.
- A numeric `declinePct` of 0 (or a numeric `topN` of 0) is falsy in Python. It is refused with the "required" message. The string `"0"` for `declinePct` is accepted as a threshold of 0 (`ZeroThresholdDependsOnEncoding`).
- An empty FY2023 list is answered with the object `{"results": []}` (`EmptyResults`). Every other success is answered with a bare list of rows (`ResultList`), and that list may also be empty.
- There is no pagination, no result cache and no upper bound of 100 on `topN`. The FY2024 request carries no `limit`, and a `limit` of 0 or None is left out of the payload.
- A DUNS listed twice in FY2024 keeps the amount of its later entry. A DUNS listed twice in FY2023 is judged once per occurrence: every qualifying occurrence yields its own row, and the join does not deduplicate.

## Model

| member | source | states |
|---|---|---|
| `SpendTypes.DunsOf` | backend/api/views.py:50 | the recipient id list has one entry per FY2023 record, in order, each that record's DUNS |
| `JoinFilter.BuildMap` | backend/api/views.py:112 | the FY2024 map's keys are exactly the DUNS codes that occur in the FY2024 list |
| `JoinFilter.LastWriteWins` | backend/api/views.py:112 | for a DUNS listed more than once, the map holds the amount of its last occurrence in FY2024 order |
| `JoinFilter.KeptIndices` | backend/api/views.py:115-131 | the kept FY2023 positions are strictly ascending and in range; each one has a positive amount and passes the threshold; every position that qualifies is among them |
| `JoinFilter.ProcessAndFilter` | backend/api/views.py:107-140 | the loop that skips amounts <= 0, looks up FY2024 with default 0.0 and appends the rows whose change is < -declinePct returns exactly `FilterRows(fy23, BuildMap(fy24), declinePct)` |
| `JoinFilter.DeclineIffScaled` | backend/api/views.py:127-131 | for a positive FY2023 amount, `((r24 - r23) / r23) * 100 < -d` holds iff `100 * r24 < (100 - d) * r23` |
| `JoinFilter.AbsentMeansFullDecline` | backend/api/views.py:119-131 | a positive FY2023 recipient missing from FY2024 gets FY2024 amount 0.0 and change exactly -100, and is kept iff declinePct < 100 |
| `JoinFilter.RowsAtKeptIndices` | backend/api/views.py:114-138 | the k-th output row is the row built from the FY2023 record at the k-th kept position, and there are as many rows as kept positions |
| `JoinFilter.RowsNoLonger` | backend/api/views.py:114-140 | the output is never longer than the FY2023 list |
| `JoinFilter.QualifyingRowIsDecline` | backend/api/views.py:122-131 | the row of a qualifying record has a positive FY2023 amount, a change strictly below -declinePct, and 100 * revenue2024 < (100 - declinePct) * revenue2023 |
| `JoinFilter.RowsAreDeclines` | backend/api/views.py:122-132 | every output row has revenue2023 > 0, an unrounded change strictly below -declinePct, and 100 * revenue2024 < (100 - declinePct) * revenue2023 |
| `JoinFilter.RowsFollowFy23Order` | backend/api/views.py:114-136 | the output is a subsequence of FY2023, taken at strictly increasing positions and no longer than FY2023; each row's duns, name and revenue2023 come from its FY2023 record, which has a positive amount; its revenue2024 is the map value, or 0.0 when the DUNS is absent |
| `JoinFilter.RowsComplete` | backend/api/views.py:115-138 | every FY2023 record with a positive amount that meets the threshold yields a row in the output |
| `JoinFilter.EmptyComparisonYear` | backend/api/views.py:112-131 | with an empty FY2024 list, a FY2023 record is kept iff its amount is positive and declinePct < 100 |
| `JoinFilter.TwoRecipientScenario` | backend/api/views.py:107-140 | A (1000 to 400) and B (500, absent from FY2024) with threshold 50 yield [A at -60, B at -100], in that order |
| `RequestPayload.PayloadFor` | backend/api/views.py:78-99 | the time period runs from (fy-1, 10, 1) to (fy, 9, 30); `limit` is present iff a truthy limit is given, and then equals it; with recipient ids the `recipient_duns` filter is present and `sort` and `order` are absent, and without them the filter is absent and `sort`/`order` are obligated_amount/desc |
| `RequestPayload.BuildPayload` | backend/api/views.py:78-99 | building the payload by successive updates of the fixed body yields exactly `PayloadFor` |
| `RequestPayload.FiscalYearWindow` | backend/api/views.py:81 | both ends of the payload's period are real calendar dates, and a valid date lies in the period iff its federal fiscal year is the requested one |
| `AnalyzeHandler.Validate` | backend/api/views.py:23-41 | "required" is returned iff a field is missing or falsy; the request is accepted iff both fields are truthy and coerce, topN > 0 and declinePct >= 0, with the coerced values as parameters; every other case is "invalid" |
| `AnalyzeHandler.ZeroThresholdDependsOnEncoding` | backend/api/views.py:26-36 | a numeric 0 threshold is refused as "required", and the string "0" is accepted as threshold 0 |
| `AnalyzeHandler.Post` | backend/api/views.py:21-58 | an invalid request is answered with its input error and sends nothing; a valid one first sends the FY2023 payload with limit topN; a transport failure there or an empty FY2023 list ends the exchange after that one request; a non-empty FY2023 list is followed by exactly one FY2024 request for its DUNS codes, after which a failure is answered with ServiceUnavailable and a success with `ResultList(FilterRows(fy23, BuildMap(fy24), declinePct))` |
| `AnalyzeHandler.SecondFetchTargetsFy2023Recipients` | backend/api/views.py:49-53 | the second request is the FY2024 payload whose `recipient_duns` filter is the FY2023 DUNS list, with no sort, order or limit |
| `AnalyzeHandler.ReturnedRowsAreDeclines` | backend/api/views.py:44-58 | a returned row list implies the input was valid, and every row has a positive FY2023 amount and a change strictly below the accepted -declinePct |

## Left out

- HTTP transport (`requests.post`, `raise_for_status`, `response.json().get('results', [])`, backend/api/views.py:102-104) is the fetch oracle `Payload -> Fetched`. Any transport failure or non-success status is one `TransportError`. The URL constant is not modelled.
- Django/DRF `Response` objects and HTTP status codes are not modelled, and neither are the error message texts. The responses are the constructors of `Response`.
- The catch-all `except Exception` branch (backend/api/views.py:66-71) is not modelled. It answers a malformed upstream record (missing key, non-numeric amount) with an internal error. In this model records are typed, so that case cannot arise.
- Python `int()`/`float()` string coercion (including `int()` truncating a JSON float) is not modelled. Its outcome is an input of `Raw<T>`.
- IEEE floating point is not modelled. Amounts and the percentage change are exact reals.
- JoinFilter.ProcessAndFilter: the row's `declinePercentage` holds the exact change, and the output's `round(percentage_change, 2)` (backend/api/views.py:137) is not modelled, because it is decimal rounding of a float. The filter itself uses the unrounded value, as the source does.
- A JSON `null` DUNS (which the source would use as a map key like any other value) is not modelled. DUNS codes are strings.
- The frontend (frontend/src/App.js) is not modelled. It holds UI state, HTTP calls and currency formatting.
- Route registration (backend/api/urls.py) is not modelled.
