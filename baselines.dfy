/** National and per-state consumption baselines shared by the diagnostic
    and lifestyle analyzers, and the expected electricity cost of a
    household derived from them. */
module Baselines {
  import opened Outcomes
  import opened Survey

  /** Monthly electricity spend per person when the state is not listed. */
  const ElectricityPerPerson := 58
  const MilesPerDriver := 13482
  const SquareFeetPerPerson := 850

  /** Monthly electricity spend per person, by state code; every listed
      state spends between 31 and 82. */
  function StateElectricity(code: string): (r: Option<int>)
    ensures r.Some? ==> 31 <= r.value <= 82
  {
    match code
    case "AL" => Some(50) case "AK" => Some(58) case "AZ" => Some(46) case "AR" => Some(42) case "CA" => Some(79)
    case "CO" => Some(37) case "CT" => Some(77) case "DE" => Some(54) case "FL" => Some(54) case "GA" => Some(50)
    case "HI" => Some(82) case "ID" => Some(31) case "IL" => Some(46) case "IN" => Some(42) case "IA" => Some(40)
    case "KS" => Some(42) case "KY" => Some(40) case "LA" => Some(44) case "ME" => Some(62) case "MD" => Some(58)
    case "MA" => Some(69) case "MI" => Some(50) case "MN" => Some(49) case "MS" => Some(46) case "MO" => Some(42)
    case "MT" => Some(35) case "NE" => Some(40) case "NV" => Some(42) case "NH" => Some(65) case "NJ" => Some(62)
    case "NM" => Some(33) case "NY" => Some(65) case "NC" => Some(46) case "ND" => Some(38) case "OH" => Some(46)
    case "OK" => Some(40) case "OR" => Some(42) case "PA" => Some(54) case "RI" => Some(69) case "SC" => Some(50)
    case "SD" => Some(42) case "TN" => Some(44) case "TX" => Some(66) case "UT" => Some(33) case "VT" => Some(62)
    case "VA" => Some(50) case "WA" => Some(37) case "WV" => Some(42) case "WI" => Some(50) case "WY" => Some(35)
    case _ => None
  }

  /** `electricity_monthly_by_state.get(state, 58)`: only a text answer can
      equal a state code. */
  function StateBaseline(state: Answer): (b: int)
    ensures 31 <= b <= 82
    ensures state.Text? && StateElectricity(state.s).Some? ==> b == StateElectricity(state.s).value
    ensures !(state.Text? && StateElectricity(state.s).Some?) ==> b == ElectricityPerPerson
  {
    if state.Text? then StateElectricity(state.s).GetOr(ElectricityPerPerson)
    else ElectricityPerPerson
  }

  /** The multiplier a home's size applies: square feet per person against
      the 850 a person typically occupies. */
  function SizeMultiplier(sqft: real, household: real): (m: real)
    requires household != 0.0
    ensures m * household * SquareFeetPerPerson as real == sqft
  {
    sqft / household / SquareFeetPerPerson as real
  }

  /** The household's cost scaled by the size multiplier: the household
      size cancels, leaving the per-person baseline for the home's size. */
  function SizedCost(perPerson: real, household: real, sqft: real): (cost: real)
    requires household != 0.0
    ensures cost * SquareFeetPerPerson as real == perPerson * sqft
  {
    var m := SizeMultiplier(sqft, household);
    assert perPerson * household * m * SquareFeetPerPerson as real == perPerson * (m * household * SquareFeetPerPerson as real);
    perPerson * household * m
  }

  /** The household's expected monthly electricity cost: the state's
      per-person baseline times the household size, scaled by the home's
      size per person when the size is positive. A text household size
      raises on every path (text repetition, then a comparison or division
      against a number), as does a text size; a zero household with a
      positive size divides by zero. */
  function ExpectedCost(state: Answer, household: Answer, sqft: Answer): (r: Result<real>)
    ensures r.Err? <==> household.Text? || sqft.Text?
                        || (Numeric(sqft).value > 0.0 && Numeric(household).value == 0.0)
    ensures r.Ok? && Numeric(sqft).value <= 0.0 ==> r.value == StateBaseline(state) as real * Numeric(household).value
    ensures r.Ok? && Numeric(sqft).value > 0.0 ==>
              r.value * SquareFeetPerPerson as real == StateBaseline(state) as real * Numeric(sqft).value
  {
    match (Numeric(household), Numeric(sqft))
    case (Ok(h), Ok(size)) =>
      if size > 0.0 then
        if h == 0.0 then Err(DivisionByZero) else Ok(SizedCost(StateBaseline(state) as real, h, size))
      else Ok(StateBaseline(state) as real * h)
    case _ => Err(TypeMismatch)
  }

  /** `bill / expected if expected > 0 else 1`: the bill against what the
      household is expected to pay. */
  function CostRatio(bill: Answer, expected: real): (r: Result<real>)
    ensures expected <= 0.0 ==> r == Ok(1.0)
    ensures expected > 0.0 ==> (r.Err? <==> bill.Text?)
    ensures expected > 0.0 && r.Ok? ==> r.value * expected == Numeric(bill).value
  {
    if expected > 0.0 then
      match Numeric(bill)
      case Ok(b) => Ok(b / expected)
      case Err(e) => Err(e)
    else Ok(1.0)
  }

  /** A bill more than 1.8 times the expected cost is flagged; the flag
      needs a positive expectation and a bill above 1.8 times it. */
  lemma CostRatioHigh(bill: Answer, expected: real)
    requires CostRatio(bill, expected).Ok?
    ensures CostRatio(bill, expected).value > 1.8 <==> expected > 0.0 && Numeric(bill).value > 1.8 * expected
  {
    if expected > 0.0 {
      var ratio := CostRatio(bill, expected).value;
      assert ratio * expected == Numeric(bill).value;
      ScaleOrder(ratio, 1.8, expected);
    }
  }

  /** Multiplying by a positive factor keeps a strict order. */
  lemma ScaleOrder(x: real, y: real, c: real)
    requires c > 0.0
    ensures x > y <==> x * c > y * c
  {
    assert x * c - y * c == (x - y) * c;
    if x > y {
      assert (x - y) * c > 0.0;
    } else {
      assert (y - x) * c >= 0.0;
    }
  }
}
