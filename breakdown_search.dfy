/** Looking up emission sources in a stored breakdown: by exact label,
    or the first label a predicate accepts, as the lifestyle engine's loops
    with `break` do. */
module BreakdownSearch {
  import opened Outcomes
  import opened Strings
  import opened Survey
  import opened Dicts
  import opened CarbonCalc

  /** Emission source label to kg CO2 per year, in insertion order. */
  type Breakdown = Dict<string, real>

  /** `breakdown_data.get(source, 0)` */
  function Value(d: Breakdown, source: string): real {
    FindOr(d, source, 0.0)
  }

  /** The value of the first entry, in dictionary order, whose source
      satisfies `p`; 0 when none does. */
  function FirstValue(d: Breakdown, p: string -> bool): real {
    if d == [] then 0.0 else if p(d[0].0) then d[0].1 else FirstValue(d[1..], p)
  }

  /** The search returns the value of the first matching entry, and 0 when
      there is none. */
  lemma {:induction false} FirstValueAt(d: Breakdown, p: string -> bool, i: nat)
    requires i <= |d|
    requires forall j :: 0 <= j < i ==> !p(d[j].0)
    ensures i < |d| && p(d[i].0) ==> FirstValue(d, p) == d[i].1
    ensures i == |d| ==> FirstValue(d, p) == 0.0
  {
    if i > 0 {
      FirstValueAt(d[1..], p, i - 1);
    }
  }

  /** The loop with `break` that `analyze_driving_from_breakdown`,
      `analyze_diet_from_breakdown` and `analyze_shopping_from_breakdown`
      each write for their search. */
  method FirstSourceValue(d: Breakdown, p: string -> bool) returns (v: real)
    ensures v == FirstValue(d, p)
  {
    v := 0.0;
    var i := 0;
    while i < |d|
      invariant 0 <= i <= |d|
      invariant FirstValue(d[i..], p) == FirstValue(d, p)
    {
      if p(d[i].0) {
        v := d[i].1;
        break;
      }
      assert d[i..][1..] == d[i + 1..];
      i := i + 1;
    }
  }

  /** A vehicle line of the user's model year. */
  predicate IsVehicleSource(year: Option<Answer>, source: string) {
    StartsWith(source, "Vehicle (") && TruthyOpt(year) && Contains(source, Show(year))
  }

  function VehicleSource(year: Option<Answer>): string -> bool {
    source => IsVehicleSource(year, source)
  }

  predicate IsDietSource(source: string) {
    StartsWith(source, "Diet (")
  }

  predicate IsGoodsSource(source: string) {
    Contains(source, "Consumer goods") || Contains(source, "consumer goods")
  }

  /** The calculator's vehicle line is found by the search for the same
      model year, whenever the year is given. */
  lemma VehicleLabelFound(year: Option<Answer>, make: string, model: string)
    requires TruthyOpt(year)
    ensures IsVehicleSource(year, VehicleLabel(year, make, model))
  {
  }

  /** A consumer-goods line is found by the shopping search and is not
      taken for a diet line. */
  lemma GoodsLineFound(source: string)
    requires StartsWith(source, "Consumer goods (")
    ensures IsGoodsSource(source) && !IsDietSource(source)
  {
    assert source[..|"Consumer goods"|] == "Consumer goods";
    ContainsPrefix(source, "Consumer goods");
    assert source[0] == 'C';
  }

  /** The calculator's consumption lines are found by the diet and the
      shopping searches, and the diet search does not mistake the
      consumer-goods line for a diet. */
  lemma ConsumptionLinesFound(dietType: string, frequency: string)
    ensures var e := ConsumptionEmissions(Text(dietType), Text(frequency));
            IsDietSource(e.entries[0].source) && IsGoodsSource(e.entries[1].source)
            && !IsDietSource(e.entries[1].source)
  {
    GoodsLineFound(ConsumptionEmissions(Text(dietType), Text(frequency)).entries[1].source);
  }
}
