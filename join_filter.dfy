/** The join-and-filter step of the analysis: the FY2023 ranked list is
    joined with a lookup map built from the FY2024 list, and only the
    recipients whose year-over-year change is a decline larger than the
    caller's threshold are kept, in FY2023 order. */
module JoinFilter {
  import opened SpendTypes

  /** The FY2024 lookup map from DUNS to amount, written left to right, so a
      DUNS listed twice keeps the amount of its later entry. */
  function BuildMap(fy24: seq<Record>): (m: map<string, real>)
    ensures forall k :: k in m <==> exists j :: 0 <= j < |fy24| && fy24[j].duns == k
  {
    if fy24 == [] then map[]
    else
      var n := |fy24| - 1;
      BuildMap(fy24[..n])[fy24[n].duns := fy24[n].amount]
  }

  /** The FY2024 amount of a recipient; a recipient missing from the map has 0.0. */
  function Lookup(m: map<string, real>, duns: string): real
  {
    if duns in m then m[duns] else 0.0
  }

  /** Signed year-over-year change in percent. */
  function PercentChange(revenue2023: real, revenue2024: real): real
    requires revenue2023 > 0.0
  {
    ((revenue2024 - revenue2023) / revenue2023) * 100.0
  }

  /** A FY2023 record is kept when its amount is positive and its change is
      strictly below the negated threshold (compared unrounded). */
  predicate Qualifies(rec: Record, m: map<string, real>, declinePct: real)
  {
    rec.amount > 0.0 && PercentChange(rec.amount, Lookup(m, rec.duns)) < -declinePct
  }

  /** The output row produced for a FY2023 record. */
  function RowFor(rec: Record, m: map<string, real>): Row
    requires rec.amount > 0.0
  {
    var revenue2024 := Lookup(m, rec.duns);
    Row(rec.duns, rec.name, rec.amount, revenue2024, PercentChange(rec.amount, revenue2024))
  }

  /** The rows the join produces from the FY2023 records, in their order. */
  function FilterRows(fy23: seq<Record>, m: map<string, real>, declinePct: real): seq<Row>
  {
    if fy23 == [] then []
    else
      var n := |fy23| - 1;
      FilterRows(fy23[..n], m, declinePct)
        + (if Qualifies(fy23[n], m, declinePct) then [RowFor(fy23[n], m)] else [])
  }

  /** The positions, in the FY2023 list, of the records the join keeps:
      ascending, each one qualifying, and every qualifying position present. */
  function KeptIndices(fy23: seq<Record>, m: map<string, real>, declinePct: real): (idx: seq<nat>)
    ensures forall k :: 0 <= k < |idx| ==> idx[k] < |fy23| && Qualifies(fy23[idx[k]], m, declinePct)
    ensures forall k, l :: 0 <= k < l < |idx| ==> idx[k] < idx[l]
    ensures forall i :: 0 <= i < |fy23| && Qualifies(fy23[i], m, declinePct) ==> i in idx
  {
    if fy23 == [] then []
    else
      var n := |fy23| - 1;
      var prefix := KeptIndices(fy23[..n], m, declinePct);
      assert forall k :: 0 <= k < |prefix| ==> fy23[..n][prefix[k]] == fy23[prefix[k]];
      prefix + (if Qualifies(fy23[n], m, declinePct) then [n] else [])
  }

  /** process_and_filter_data: build the FY2024 map, then walk the FY2023
      list once, skipping non-positive amounts and appending each record whose
      decline exceeds the threshold. */
  method ProcessAndFilter(fy23: seq<Record>, fy24: seq<Record>, declinePct: real)
    returns (rows: seq<Row>)
    ensures rows == FilterRows(fy23, BuildMap(fy24), declinePct)
  {
    var fy24Map := BuildMap(fy24);
    rows := [];
    for i := 0 to |fy23|
      invariant rows == FilterRows(fy23[..i], fy24Map, declinePct)
    {
      var company := fy23[i];
      var revenue2023 := company.amount;
      var revenue2024 := Lookup(fy24Map, company.duns);
      assert fy23[..i + 1][..i] == fy23[..i];
      if revenue2023 <= 0.0 {
        continue;
      }
      var change := ((revenue2024 - revenue2023) / revenue2023) * 100.0;
      if change < -declinePct {
        rows := rows + [Row(company.duns, company.name, revenue2023, revenue2024, change)];
      }
    }
    assert fy23[..|fy23|] == fy23;
  }

  // ---------------------------------------------------------------------
  // Properties of the FY2024 map

  /** Last write wins: the map holds the amount of the last FY2024 entry
      carrying a DUNS. */
  lemma {:induction false} LastWriteWins(fy24: seq<Record>, i: nat)
    requires i < |fy24|
    requires forall j :: i < j < |fy24| ==> fy24[j].duns != fy24[i].duns
    ensures fy24[i].duns in BuildMap(fy24)
    ensures BuildMap(fy24)[fy24[i].duns] == fy24[i].amount
  {
    var n := |fy24| - 1;
    if i < n {
      var prefix := fy24[..n];
      assert forall j :: i < j < |prefix| ==> prefix[j] == fy24[j];
      LastWriteWins(prefix, i);
    }
  }

  // ---------------------------------------------------------------------
  // Properties of the filter predicate

  /** With a positive FY2023 amount, the percentage test is the same as a
      comparison of scaled amounts, with no division. */
  lemma DeclineIffScaled(revenue2023: real, revenue2024: real, declinePct: real)
    requires revenue2023 > 0.0
    ensures PercentChange(revenue2023, revenue2024) < -declinePct
        <==> 100.0 * revenue2024 < (100.0 - declinePct) * revenue2023
  {
  }

  /** A recipient missing from FY2024 counts as a full (-100%) decline, and is
      kept exactly when the threshold is below 100. */
  lemma AbsentMeansFullDecline(rec: Record, fy24: seq<Record>, declinePct: real)
    requires rec.amount > 0.0
    requires forall j :: 0 <= j < |fy24| ==> fy24[j].duns != rec.duns
    ensures RowFor(rec, BuildMap(fy24)).revenue2024 == 0.0
    ensures RowFor(rec, BuildMap(fy24)).declinePercentage == -100.0
    ensures Qualifies(rec, BuildMap(fy24), declinePct) <==> declinePct < 100.0
  {
    assert rec.duns !in BuildMap(fy24);
    assert (0.0 - rec.amount) / rec.amount == -1.0;
  }

  // ---------------------------------------------------------------------
  // Properties of the join

  /** The rows are exactly the rows of the kept positions, in the same order. */
  lemma {:induction false} RowsAtKeptIndices(fy23: seq<Record>, m: map<string, real>, declinePct: real)
    ensures |FilterRows(fy23, m, declinePct)| == |KeptIndices(fy23, m, declinePct)|
    ensures forall k :: 0 <= k < |FilterRows(fy23, m, declinePct)| ==>
      FilterRows(fy23, m, declinePct)[k] == RowFor(fy23[KeptIndices(fy23, m, declinePct)[k]], m)
  {
    if fy23 != [] {
      var n := |fy23| - 1;
      var prefix := fy23[..n];
      RowsAtKeptIndices(prefix, m, declinePct);
      var idx := KeptIndices(prefix, m, declinePct);
      assert forall k :: 0 <= k < |idx| ==> prefix[idx[k]] == fy23[idx[k]];
    }
  }

  /** The join never grows the list. */
  lemma {:induction false} RowsNoLonger(fy23: seq<Record>, m: map<string, real>, declinePct: real)
    ensures |FilterRows(fy23, m, declinePct)| <= |fy23|
  {
    if fy23 != [] {
      RowsNoLonger(fy23[..|fy23| - 1], m, declinePct);
    }
  }

  /** The row of a qualifying record is a decline beyond the threshold. */
  lemma QualifyingRowIsDecline(rec: Record, m: map<string, real>, declinePct: real)
    requires Qualifies(rec, m, declinePct)
    ensures RowFor(rec, m).revenue2023 > 0.0
    ensures RowFor(rec, m).declinePercentage < -declinePct
    ensures 100.0 * RowFor(rec, m).revenue2024 < (100.0 - declinePct) * RowFor(rec, m).revenue2023
  {
    DeclineIffScaled(rec.amount, Lookup(m, rec.duns), declinePct);
  }

  /** Soundness: every row has a positive FY2023 amount and a decline beyond
      the threshold; equivalently, its scaled FY2024 amount is below the
      scaled FY2023 amount. */
  lemma {:induction false} RowsAreDeclines(fy23: seq<Record>, m: map<string, real>, declinePct: real)
    ensures forall row :: row in FilterRows(fy23, m, declinePct) ==>
      && row.revenue2023 > 0.0
      && row.declinePercentage < -declinePct
      && 100.0 * row.revenue2024 < (100.0 - declinePct) * row.revenue2023
  {
    if fy23 != [] {
      var n := |fy23| - 1;
      RowsAreDeclines(fy23[..n], m, declinePct);
      if Qualifies(fy23[n], m, declinePct) {
        QualifyingRowIsDecline(fy23[n], m, declinePct);
      }
    }
  }

  /** Provenance and order: row k comes from the k-th kept FY2023 record,
      positions strictly increase (a subsequence, never re-sorted), each row
      carries that record's DUNS, name and amount, and its FY2024 amount is
      the map's value or 0.0 when the DUNS is absent. */
  lemma {:induction false} RowsFollowFy23Order(fy23: seq<Record>, m: map<string, real>, declinePct: real)
    ensures var rows, idx := FilterRows(fy23, m, declinePct), KeptIndices(fy23, m, declinePct);
      && |rows| == |idx| <= |fy23|
      && (forall k, l :: 0 <= k < l < |idx| ==> idx[k] < idx[l])
      && forall k :: 0 <= k < |rows| ==>
           && idx[k] < |fy23|
           && fy23[idx[k]].amount > 0.0
           && rows[k].duns == fy23[idx[k]].duns
           && rows[k].name == fy23[idx[k]].name
           && rows[k].revenue2023 == fy23[idx[k]].amount
           && rows[k].revenue2024 == (if fy23[idx[k]].duns in m then m[fy23[idx[k]].duns] else 0.0)
  {
    RowsAtKeptIndices(fy23, m, declinePct);
    RowsNoLonger(fy23, m, declinePct);
  }

  /** Completeness: every FY2023 record with a positive amount that meets the
      threshold yields a row. */
  lemma {:induction false} RowsComplete(fy23: seq<Record>, m: map<string, real>, declinePct: real)
    ensures forall i :: 0 <= i < |fy23| && Qualifies(fy23[i], m, declinePct) ==>
      RowFor(fy23[i], m) in FilterRows(fy23, m, declinePct)
  {
    var rows := FilterRows(fy23, m, declinePct);
    var idx := KeptIndices(fy23, m, declinePct);
    RowsAtKeptIndices(fy23, m, declinePct);
    forall i | 0 <= i < |fy23| && Qualifies(fy23[i], m, declinePct)
      ensures RowFor(fy23[i], m) in rows
    {
      var k :| 0 <= k < |idx| && idx[k] == i;
      assert rows[k] == RowFor(fy23[i], m);
    }
  }

  /** With no FY2024 data every positive FY2023 record is a full decline, so
      all of them are kept when the threshold is below 100 and none otherwise. */
  lemma EmptyComparisonYear(fy23: seq<Record>, declinePct: real)
    ensures forall i :: 0 <= i < |fy23| ==>
      (Qualifies(fy23[i], BuildMap([]), declinePct) <==> fy23[i].amount > 0.0 && declinePct < 100.0)
  {
    forall i | 0 <= i < |fy23|
      ensures Qualifies(fy23[i], BuildMap([]), declinePct) <==> fy23[i].amount > 0.0 && declinePct < 100.0
    {
      if fy23[i].amount > 0.0 {
        AbsentMeansFullDecline(fy23[i], [], declinePct);
      }
    }
  }

  /** The two-recipient scenario: A falls from 1000 to 400 (-60%), B is absent
      from FY2024 (-100%); with a 50% threshold both are kept, A first. */
  lemma TwoRecipientScenario()
    ensures FilterRows([Record("A", "Alpha", 1000.0), Record("B", "Beta", 500.0)],
                       BuildMap([Record("A", "Alpha", 400.0)]), 50.0)
         == [Row("A", "Alpha", 1000.0, 400.0, -60.0), Row("B", "Beta", 500.0, 0.0, -100.0)]
  {
  }
}
