/** The POST handler of the analysis endpoint: input validation, the FY2023
    fetch, the short-circuit on an empty FY2023 list, the FY2024 fetch for the
    same recipients, and the join. The upstream API is an oracle from request
    payloads to fetch outcomes. */
module AnalyzeHandler {
  import opened SpendTypes
  import opened JoinFilter
  import opened RequestPayload

  /** A request field as received: absent, or present with its Python
      truthiness and the outcome of coercing it with int() or float()
      (None when the coercion raises). Numeric 0 is present, falsy and
      coerces; the string "0" is present, truthy and coerces. */
  datatype Raw<T> = Missing | Given(truthy: bool, coerced: Option<T>)

  predicate Falsy<T>(raw: Raw<T>)
  {
    raw.Missing? || !raw.truthy
  }

  datatype InputError =
    | FieldsRequired   // "Both 'topN' and 'declinePct' are required."
    | InvalidInput     // "Invalid input. 'topN' must be a positive integer ..."

  datatype Params = Params(topN: int, declinePct: real)

  /** The validation branches of the handler. */
  function Validate(topN: Raw<int>, declinePct: Raw<real>): (r: Result<Params, InputError>)
    ensures r == Err(FieldsRequired) <==> Falsy(topN) || Falsy(declinePct)
    ensures r.Ok? <==>
      && !Falsy(topN) && !Falsy(declinePct)
      && topN.coerced.Some? && declinePct.coerced.Some?
      && topN.coerced.value > 0 && declinePct.coerced.value >= 0.0
    ensures r.Ok? ==> r.value == Params(topN.coerced.value, declinePct.coerced.value)
  {
    if Falsy(topN) || Falsy(declinePct) then
      Err(FieldsRequired)
    else if topN.coerced.None? || declinePct.coerced.None? then
      Err(InvalidInput)
    else if topN.coerced.value <= 0 || declinePct.coerced.value < 0.0 then
      Err(InvalidInput)
    else
      Ok(Params(topN.coerced.value, declinePct.coerced.value))
  }

  /** A zero threshold sent as the number 0 is refused as missing, while the
      same threshold sent as the string "0" is accepted. */
  lemma ZeroThresholdDependsOnEncoding(n: int)
    requires n > 0
    ensures Validate(Given(true, Some(n)), Given(false, Some(0.0))) == Err(FieldsRequired)
    ensures Validate(Given(true, Some(n)), Given(true, Some(0.0))) == Ok(Params(n, 0.0))
  {
  }

  /** What one call to the upstream API yields: the "results" list, or a
      transport failure / non-success status. */
  datatype Fetched = Records(records: seq<Record>) | TransportError

  datatype Response =
    | BadRequest(error: InputError)    // 400
    | EmptyResults                     // {"results": []} when FY2023 is empty
    | ResultList(rows: seq<Row>)       // the bare list of rows
    | ServiceUnavailable               // 503

  /** The response together with the payloads sent upstream, in order. */
  datatype Exchange = Exchange(response: Response, requests: seq<Payload>)

  function Fy2023Request(topN: int): Payload
  {
    PayloadFor(2023, Some(topN), [])
  }

  function Fy2024Request(fy23: seq<Record>): Payload
  {
    PayloadFor(2024, None, DunsOf(fy23))
  }

  /** The handler's control flow for one request. */
  function Post(topN: Raw<int>, declinePct: Raw<real>, fetch: Payload -> Fetched): (x: Exchange)
    ensures Validate(topN, declinePct).Err? ==>
      x == Exchange(BadRequest(Validate(topN, declinePct).error), [])
    ensures Validate(topN, declinePct).Ok? ==>
      var p23 := Fy2023Request(Validate(topN, declinePct).value.topN);
      && 1 <= |x.requests| <= 2
      && x.requests[0] == p23
      && (fetch(p23) == TransportError ==> x == Exchange(ServiceUnavailable, [p23]))
      && (fetch(p23) == Records([]) ==> x == Exchange(EmptyResults, [p23]))
      && (|x.requests| == 2 <==> fetch(p23).Records? && fetch(p23).records != [])
      && (fetch(p23).Records? && fetch(p23).records != [] ==>
            var fy23 := fetch(p23).records;
            var p24 := Fy2024Request(fy23);
            && x.requests == [p23, p24]
            && (fetch(p24) == TransportError ==> x.response == ServiceUnavailable)
            && (fetch(p24).Records? ==>
                  x.response == ResultList(FilterRows(fy23, BuildMap(fetch(p24).records),
                                                      Validate(topN, declinePct).value.declinePct))))
  {
    match Validate(topN, declinePct)
    case Err(e) => Exchange(BadRequest(e), [])
    case Ok(params) =>
      var p23 := Fy2023Request(params.topN);
      match fetch(p23)
      case TransportError => Exchange(ServiceUnavailable, [p23])
      case Records(fy23) =>
        if fy23 == [] then
          Exchange(EmptyResults, [p23])
        else
          var p24 := Fy2024Request(fy23);
          match fetch(p24)
          case TransportError => Exchange(ServiceUnavailable, [p23, p24])
          case Records(fy24) =>
            Exchange(ResultList(FilterRows(fy23, BuildMap(fy24), params.declinePct)), [p23, p24])
  }

  /** A successful non-empty FY2023 fetch is followed by one FY2024 fetch
      for exactly the FY2023 recipients, with no sort, order or limit. */
  lemma SecondFetchTargetsFy2023Recipients(topN: Raw<int>, declinePct: Raw<real>, fetch: Payload -> Fetched)
    requires Validate(topN, declinePct).Ok?
    requires fetch(Fy2023Request(Validate(topN, declinePct).value.topN)).Records?
    requires fetch(Fy2023Request(Validate(topN, declinePct).value.topN)).records != []
    ensures var fy23 := fetch(Fy2023Request(Validate(topN, declinePct).value.topN)).records;
      var p24 := Post(topN, declinePct, fetch).requests[1];
      && p24 == Fy2024Request(fy23)
      && p24.filters.recipientDuns == Some(DunsOf(fy23))
      && p24.sort.None? && p24.order.None? && p24.limit.None?
  {
    var fy23 := fetch(Fy2023Request(Validate(topN, declinePct).value.topN)).records;
    assert DunsOf(fy23) != [] by { assert |DunsOf(fy23)| == |fy23|; }
  }

  /** End to end: every row the handler returns comes from a positive FY2023
      amount and shows a decline strictly beyond the accepted threshold. */
  lemma ReturnedRowsAreDeclines(topN: Raw<int>, declinePct: Raw<real>, fetch: Payload -> Fetched)
    requires Post(topN, declinePct, fetch).response.ResultList?
    ensures Validate(topN, declinePct).Ok?
    ensures forall row :: row in Post(topN, declinePct, fetch).response.rows ==>
      && row.revenue2023 > 0.0
      && row.declinePercentage < -Validate(topN, declinePct).value.declinePct
  {
    var params := Validate(topN, declinePct).value;
    var fy23 := fetch(Fy2023Request(params.topN)).records;
    var fy24 := fetch(Fy2024Request(fy23)).records;
    RowsAreDeclines(fy23, BuildMap(fy24), params.declinePct);
  }
}
