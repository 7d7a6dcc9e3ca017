/** Shared data model of the spend analyzer: the records returned by the
    spending API, the rows of the analysis result, and the small
    failure-compatible wrappers used for optional values and errors. */
module SpendTypes {

  datatype Option<+T> = None | Some(value: T)

  datatype Result<+R, +E> = Ok(value: R) | Err(error: E)

  /** One entry of the upstream "results" list for one fiscal year:
      `recipient_duns`, `recipient_name` and `obligated_amount`. */
  datatype Record = Record(duns: string, name: string, amount: real)

  /** One row of the analysis result; the fields are the output keys.
      `declinePercentage` holds the exact signed year-over-year change in
      percent; the service rounds that key to two decimals on output. */
  datatype Row = Row(
    duns: string,
    name: string,
    revenue2023: real,
    revenue2024: real,
    declinePercentage: real)

  /** The DUNS codes of a record list, in order (the `recipient_ids` list). */
  function DunsOf(rs: seq<Record>): (ids: seq<string>)
    ensures |ids| == |rs|
    ensures forall i :: 0 <= i < |rs| ==> ids[i] == rs[i].duns
  {
    if rs == [] then [] else [rs[0].duns] + DunsOf(rs[1..])
  }
}
