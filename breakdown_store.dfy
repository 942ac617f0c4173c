/** The stored calculation breakdowns and `get_latest_breakdown_data`: the
    lines of a session's most recent calculation, as a dictionary from
    emission source to kg CO2. */
module BreakdownStore {
  import opened Outcomes
  import opened Dicts

  /** One stored breakdown line: its row identifier, the session and the
      calculation it belongs to, its emission source and its value. */
  datatype BreakdownRow = BreakdownRow(id: int, sessionId: string, calculationId: int, source: string, value: real)

  /** The session's row with the highest identifier, the first such row
      when identifiers repeat; `None` when the session has no rows. */
  function LatestRow(rows: seq<BreakdownRow>, sessionId: string): (r: Option<BreakdownRow>)
    ensures r.None? <==> forall i :: 0 <= i < |rows| ==> rows[i].sessionId != sessionId
    ensures r.Some? ==> r.value in rows && r.value.sessionId == sessionId
    ensures r.Some? ==> forall i :: 0 <= i < |rows| && rows[i].sessionId == sessionId ==> rows[i].id <= r.value.id
  {
    if rows == [] then None
    else
      var rest := LatestRow(rows[1..], sessionId);
      assert forall i :: 1 <= i < |rows| ==> rows[i] == rows[1..][i - 1];
      if rows[0].sessionId == sessionId && (rest.None? || rows[0].id >= rest.value.id) then Some(rows[0])
      else rest
  }

  /** The session's rows of one calculation, in table order. */
  function CalculationRows(rows: seq<BreakdownRow>, sessionId: string, calculationId: int): (r: seq<BreakdownRow>)
    ensures forall x :: x in r <==> x in rows && x.sessionId == sessionId && x.calculationId == calculationId
  {
    if rows == [] then []
    else
      assert forall x :: x in rows <==> x == rows[0] || x in rows[1..];
      (if rows[0].sessionId == sessionId && rows[0].calculationId == calculationId then [rows[0]] else [])
      + CalculationRows(rows[1..], sessionId, calculationId)
  }

  /** The (source, value) pairs of the rows. */
  function ItemsOf(rows: seq<BreakdownRow>): (items: seq<(string, real)>)
    ensures |items| == |rows|
    ensures forall i :: 0 <= i < |rows| ==> items[i] == (rows[i].source, rows[i].value)
  {
    if rows == [] then [] else ItemsOf(rows[..|rows| - 1]) + [(rows[|rows| - 1].source, rows[|rows| - 1].value)]
  }

  /** The breakdown of the session's latest calculation: empty when the
      session has no rows, and otherwise the dictionary the loop over that
      calculation's rows builds. */
  function LatestBreakdown(rows: seq<BreakdownRow>, sessionId: string): Dict<string, real> {
    match LatestRow(rows, sessionId)
    case None => []
    case Some(latest) => FromItems(ItemsOf(CalculationRows(rows, sessionId, latest.calculationId)))
  }

  /** `get_latest_breakdown_data`, with the two queries over the rows given
      as a sequence. */
  method GetLatestBreakdownData(rows: seq<BreakdownRow>, sessionId: string) returns (data: Dict<string, real>)
    ensures data == LatestBreakdown(rows, sessionId)
  {
    var latest := LatestRow(rows, sessionId);
    if latest.None? {
      return [];
    }
    var breakdowns := CalculationRows(rows, sessionId, latest.value.calculationId);
    data := [];
    for i := 0 to |breakdowns|
      invariant data == FromItems(ItemsOf(breakdowns[..i]))
    {
      assert breakdowns[..i + 1][..i] == breakdowns[..i];
      assert ItemsOf(breakdowns[..i + 1])[..i] == ItemsOf(breakdowns[..i]);
      data := Put(data, breakdowns[i].source, breakdowns[i].value);
    }
    assert breakdowns[..|breakdowns|] == breakdowns;
  }

  /** A source's value is that of the last of its rows in the latest
      calculation; the sources are distinct; a session without rows has an
      empty breakdown; and every value comes from a row of the session's
      latest calculation. */
  lemma LatestBreakdownFind(rows: seq<BreakdownRow>, sessionId: string, source: string)
    ensures var data := LatestBreakdown(rows, sessionId);
            KeysDistinct(data)
            && (LatestRow(rows, sessionId).None? ==> data == [])
            && (LatestRow(rows, sessionId).Some? ==>
                  var latestRows := CalculationRows(rows, sessionId, LatestRow(rows, sessionId).value.calculationId);
                  Find(data, source) == LastValue(ItemsOf(latestRows), source))
            && (Find(data, source).Some? ==>
                  exists row :: row in rows && row.sessionId == sessionId && row.source == source
                                && row.value == Find(data, source).value
                                && row.calculationId == LatestRow(rows, sessionId).value.calculationId)
  {
    match LatestRow(rows, sessionId)
    case None =>
    case Some(latest) =>
      var latestRows := CalculationRows(rows, sessionId, latest.calculationId);
      FromItemsFind(ItemsOf(latestRows), source);
      var v := Find(LatestBreakdown(rows, sessionId), source);
      if v.Some? {
        var i := LastValueIndex(ItemsOf(latestRows), source);
        assert latestRows[i] in latestRows;
      }
  }

  /** Where the last matching item sits. */
  lemma {:induction false} LastValueIndex(items: seq<(string, real)>, key: string) returns (i: nat)
    requires LastValue(items, key).Some?
    ensures i < |items| && items[i] == (key, LastValue(items, key).value)
  {
    if items[|items| - 1].0 == key {
      i := |items| - 1;
    } else {
      i := LastValueIndex(items[..|items| - 1], key);
    }
  }
}
