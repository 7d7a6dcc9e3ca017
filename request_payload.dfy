/** The JSON body sent to the spending-by-recipient search endpoint. Dates
    are kept as (year, month, day) triples instead of formatted strings. */
module RequestPayload {
  import opened SpendTypes

  datatype Date = Date(year: int, month: int, day: int)

  datatype TimePeriod = TimePeriod(startDate: Date, endDate: Date)

  /** The `filters` object; `recipientDuns` is None when the key is absent. */
  datatype Filters = Filters(
    timePeriod: seq<TimePeriod>,
    recipientType: string,
    recipientDuns: Option<seq<string>>)

  /** The request body; an optional field is None when its key is absent. */
  datatype Payload = Payload(
    filters: Filters,
    fields: seq<string>,
    sort: Option<string>,
    order: Option<string>,
    limit: Option<int>)

  const RequestedFields: seq<string> := ["recipient_name", "recipient_duns", "obligated_amount"]

  /** Python truthiness of the `limit` argument: None and 0 are both falsy. */
  predicate LimitGiven(limit: Option<int>)
  {
    limit.Some? && limit.value != 0
  }

  /** The payload for one fiscal year. `recipientIds == []` stands for both
      an absent and an empty id list, which the service treats alike. */
  function PayloadFor(fiscalYear: int, limit: Option<int>, recipientIds: seq<string>): (p: Payload)
    ensures p.filters.timePeriod == [TimePeriod(Date(fiscalYear - 1, 10, 1), Date(fiscalYear, 9, 30))]
    ensures p.filters.recipientType == "business" && p.fields == RequestedFields
    ensures p.limit.Some? <==> LimitGiven(limit)
    ensures p.limit.Some? ==> p.limit == limit
    ensures recipientIds != [] ==> p.filters.recipientDuns == Some(recipientIds) && p.sort.None? && p.order.None?
    ensures recipientIds == [] ==>
      p.filters.recipientDuns.None? && p.sort == Some("obligated_amount") && p.order == Some("desc")
  {
    var period := TimePeriod(Date(fiscalYear - 1, 10, 1), Date(fiscalYear, 9, 30));
    var filters := Filters([period], "business",
                           if recipientIds != [] then Some(recipientIds) else None);
    if recipientIds != [] then
      Payload(filters, RequestedFields, None, None, if LimitGiven(limit) then limit else None)
    else
      Payload(filters, RequestedFields, Some("obligated_amount"), Some("desc"),
              if LimitGiven(limit) then limit else None)
  }

  /** The payload construction of fetch_spending_data: start from the fixed
      body, then add `limit`, then add the DUNS filter and drop `sort` and
      `order`, one update at a time. */
  method BuildPayload(fiscalYear: int, limit: Option<int>, recipientIds: seq<string>)
    returns (payload: Payload)
    ensures payload == PayloadFor(fiscalYear, limit, recipientIds)
  {
    payload := Payload(
      Filters([TimePeriod(Date(fiscalYear - 1, 10, 1), Date(fiscalYear, 9, 30))], "business", None),
      RequestedFields,
      Some("obligated_amount"),
      Some("desc"),
      None);
    if LimitGiven(limit) {
      payload := payload.(limit := limit);
    }
    if recipientIds != [] {
      payload := payload.(filters := payload.filters.(recipientDuns := Some(recipientIds)));
      payload := payload.(sort := None);
      payload := payload.(order := None);
    }
  }

  // ---------------------------------------------------------------------
  // The fiscal-year convention

  predicate IsLeapYear(year: int)
  {
    year % 4 == 0 && (year % 100 != 0 || year % 400 == 0)
  }

  function DaysInMonth(year: int, month: int): int
    requires 1 <= month <= 12
  {
    if month == 2 then (if IsLeapYear(year) then 29 else 28)
    else if month == 4 || month == 6 || month == 9 || month == 11 then 30
    else 31
  }

  predicate ValidDate(d: Date)
  {
    1 <= d.month <= 12 && 1 <= d.day <= DaysInMonth(d.year, d.month)
  }

  /** Calendar order on dates. */
  predicate OnOrBefore(a: Date, b: Date)
  {
    a.year < b.year
    || (a.year == b.year && (a.month < b.month || (a.month == b.month && a.day <= b.day)))
  }

  predicate InPeriod(d: Date, period: TimePeriod)
  {
    OnOrBefore(period.startDate, d) && OnOrBefore(d, period.endDate)
  }

  /** The federal fiscal year a calendar date belongs to: October to
      December count toward the next calendar year. */
  function FiscalYearOf(d: Date): int
  {
    if d.month >= 10 then d.year + 1 else d.year
  }

  /** The payload's time period is a pair of real calendar dates and covers
      exactly the days of the requested fiscal year. */
  lemma FiscalYearWindow(fiscalYear: int, limit: Option<int>, recipientIds: seq<string>, d: Date)
    requires ValidDate(d)
    ensures var period := PayloadFor(fiscalYear, limit, recipientIds).filters.timePeriod[0];
      && ValidDate(period.startDate) && ValidDate(period.endDate)
      && (InPeriod(d, period) <==> FiscalYearOf(d) == fiscalYear)
  {
  }
}
