/** The diagnostic analyzer: four checks over the survey answers, each of
    which may find an upgrade worth recommending (a heat pump, solar
    panels, an electric vehicle, efficiency work), ranked by the CO2 the
    upgrade would save. */
module Diagnostics {
  import opened Outcomes
  import opened Strings
  import opened Numbers
  import opened Survey
  import opened Sorting
  import opened CarbonCalc
  import opened Baselines
  import opened FuelEconomy
  import opened HeatingScenario

  datatype Category = HomeHeating | SolarOpportunity | Transportation | HomeEfficiency
  datatype Severity = High | Medium

  /** One finding: its category, how urgent it is, the kg CO2 a year the
      upgrade would save, and the program technology categories that fund
      it. The human-readable description is not modelled. */
  datatype Insight = Insight(category: Category, severity: Severity, savings: int, technologies: seq<string>)

  /** The category as stored with a recommendation. */
  function CategoryName(c: Category): (name: string)
    ensures name in ["home_heating", "solar_opportunity", "transportation", "home_efficiency"]
  {
    match c
    case HomeHeating => "home_heating"
    case SolarOpportunity => "solar_opportunity"
    case Transportation => "transportation"
    case HomeEfficiency => "home_efficiency"
  }

  /** The ranking key. */
  function Savings(i: Insight): int { i.savings }

  const HeatPumpTechnologies := ["heat_pumps"]
  const SolarTechnologies := ["solar"]
  const VehicleTechnologies := ["electric_vehicles"]
  const EfficiencyTechnologies := ["hvac", "insulation", "appliances", "lighting"]

  /** What each check promises about an insight it returns: its
      technologies, a savings floor, and a severity that agrees with the
      savings. */
  predicate Plausible(i: Insight) {
    match i.category
    case HomeHeating =>
      i.technologies == HeatPumpTechnologies && i.savings >= 500
      && (i.severity == High ==> i.savings >= 2000) && (i.severity == Medium ==> i.savings <= 2000)
    case SolarOpportunity =>
      i.technologies == SolarTechnologies && i.severity == Medium && i.savings >= 2100
    case Transportation =>
      i.technologies == VehicleTechnologies && i.savings >= 1000
      && (i.severity == High ==> i.savings >= 4000) && (i.severity == Medium ==> i.savings <= 4000)
    case HomeEfficiency =>
      i.technologies == EfficiencyTechnologies && i.severity == High && i.savings >= 0
  }

  // ------------------------------------------------------------ heating

  const HighCarbonFuels := ["gas", "natural gas", "oil", "propane"]

  /** What the heating check reports when the heat-pump bill cannot be computed. */
  const FallbackHeating := Insight(HomeHeating, Medium, 1500, HeatPumpTechnologies)

  /** An insight when switching saves more than 500 kg; severe above 2000. */
  function HeatingInsight(savings: real): (r: Option<Insight>)
    ensures r.Some? <==> savings > 500.0
    ensures r.Some? ==> r.value.category == HomeHeating && Plausible(r.value) && r.value.savings == Trunc(savings)
                        && (r.value.severity == High <==> savings > 2000.0)
  {
    if savings > 500.0 then
      TruncMonotone(500.0, savings);
      if savings > 2000.0 then
        TruncMonotone(2000.0, savings);
        Some(Insight(HomeHeating, High, Trunc(savings), HeatPumpTechnologies))
      else
        TruncMonotone(savings, 2000.0);
        Some(Insight(HomeHeating, Medium, Trunc(savings), HeatPumpTechnologies))
    else None
  }

  /** `analyze_heating_source` with the heat-pump scenario run under
      `heatPumpType`: only a gas, oil or propane heating type is looked at;
      a heating type that is not text raises, and a text heating bill makes
      the scenario raise, which the heating check turns into a 1500 kg estimate. */
  function HeatingCheckWith(t: Tables, home: Section, intro: Section, heatPumpType: string): (r: Result<Option<Insight>>)
    ensures r.Err? <==> !Get(home, "heating_type", Text("")).Text?
    ensures r.Ok? && r.value.Some? ==> r.value.value.category == HomeHeating && Plausible(r.value.value)
  {
    match Lowered(Get(home, "heating_type", Text("")))
    case Err(e) => Err(e)
    case Ok(heating) =>
      if heating == [] || !ContainsAny(heating, HighCarbonFuels) then Ok(None)
      else
        match Numeric(Get(home, "heating_bill", Num(100.0)))
        case Err(_) => Ok(Some(FallbackHeating))
        case Ok(bill) => Ok(HeatingInsight(HeatingScenarioSavings(t, HomeAnswersOf(home, intro), heating, bill, heatPumpType)))
  }

  /** `analyze_heating_source` as written, with the `heat_pump` scenario. */
  function HeatingCheckAsWritten(t: Tables, home: Section, intro: Section): (r: Result<Option<Insight>>)
    ensures r.Ok? && r.value.Some? ==> Plausible(r.value.value)
  {
    HeatingCheckWith(t, home, intro, HeatPumpAsWritten)
  }

  /** The heating check with the heat-pump scenario priced as electric heating. */
  function HeatingCheck(t: Tables, home: Section, intro: Section): (r: Result<Option<Insight>>)
    ensures r.Ok? && r.value.Some? ==> r.value.value.category == HomeHeating && Plausible(r.value.value)
  {
    HeatingCheckWith(t, home, intro, HeatPump)
  }

  /** A heating type without gas, oil or propane in it is never reported. */
  lemma HeatingCheckLowCarbon(t: Tables, home: Section, intro: Section, heatPumpType: string)
    requires Get(home, "heating_type", Text("")).Text?
    requires !ContainsAny(Lower(Get(home, "heating_type", Text("")).s), HighCarbonFuels)
    ensures HeatingCheckWith(t, home, intro, heatPumpType) == Ok(None)
  {
  }

  /** A high-carbon heating type with a text heating bill gives the fixed
      1500 kg estimate. */
  lemma HeatingCheckFallback(t: Tables, home: Section, intro: Section, heatPumpType: string)
    requires Get(home, "heating_type", Text("")).Text?
    requires ContainsAny(Lower(Get(home, "heating_type", Text("")).s), HighCarbonFuels)
    requires Get(home, "heating_bill", Num(100.0)).Text?
    ensures HeatingCheckWith(t, home, intro, heatPumpType) == Ok(Some(FallbackHeating))
  {
  }

  /** As written, a high-carbon heating type with a numeric bill is judged
      on its whole current heating line: the `heat_pump` scenario adds no
      heating line to subtract. */
  lemma HeatingCheckAsWrittenWholeLine(t: Tables, home: Section, intro: Section, h: real, rate: real)
    requires Get(home, "heating_type", Text("")).Text?
    requires ContainsAny(Lower(Get(home, "heating_type", Text("")).s), HighCarbonFuels)
    requires Numeric(Get(home, "heating_bill", Num(100.0))).Ok?
    requires FloatOf(Get(home, "square_footage", Num(1500.0))).Some?
    requires FloatOf(Get(home, "monthly_electricity", Num(100.0))).Some?
    requires Numeric(Get(intro, "household_size", Num(2.0))) == Ok(h) && h != 0.0
    requires rate == KwhRate(t, Get(intro, "state", Text("CA"))) && rate != 0.0
    ensures var heating := Lower(Get(home, "heating_type", Text("")).s);
            var bill := Numeric(Get(home, "heating_bill", Num(100.0))).value;
            HeatingCheckAsWritten(t, home, intro)
            == Ok(HeatingInsight(HeatingEmissions(t, heating, bill, h, rate, Get(intro, "state", Text("CA")))))
  {
    var heating := Lower(Get(home, "heating_type", Text("")).s);
    var bill := Numeric(Get(home, "heating_bill", Num(100.0))).value;
    HeatingCheckScenario(t, home, intro, HeatPumpAsWritten);
    HeatPumpScenarioIgnoresBill(t, HomeAnswersOf(home, intro), heating, bill, h, rate);
  }

  /** A high-carbon heating type with a numeric bill is judged on the
      scenario's savings. */
  lemma HeatingCheckScenario(t: Tables, home: Section, intro: Section, heatPumpType: string)
    requires Get(home, "heating_type", Text("")).Text?
    requires ContainsAny(Lower(Get(home, "heating_type", Text("")).s), HighCarbonFuels)
    requires Numeric(Get(home, "heating_bill", Num(100.0))).Ok?
    ensures var heating := Lower(Get(home, "heating_type", Text("")).s);
            var bill := Numeric(Get(home, "heating_bill", Num(100.0))).value;
            HeatingCheckWith(t, home, intro, heatPumpType)
            == Ok(HeatingInsight(HeatingScenarioSavings(t, HomeAnswersOf(home, intro), heating, bill, heatPumpType)))
  {
    var heating := Lower(Get(home, "heating_type", Text("")).s);
    assert Lowered(Get(home, "heating_type", Text(""))) == Ok(heating);
    assert heating != [];
  }

  /** When the calculator raises on the household answers (a household size
      that is not a number or is zero, or a zero kWh rate), both runs give
      zero and nothing is reported. */
  lemma HeatingCalculatorRaises(t: Tables, a: HomeAnswers, heating: string, bill: real, heatPumpType: string)
    requires Numeric(a.household).Err? || Numeric(a.household).value == 0.0 || KwhRate(t, a.state) == 0.0
    ensures HeatingScenarioSavings(t, a, heating, bill, heatPumpType) == 0.0
    ensures HeatingInsight(HeatingScenarioSavings(t, a, heating, bill, heatPumpType)) == None
  {
    forall e: real, heatingType: Answer, hb: real
      ensures HomeBreakdown(t, e, heatingType, hb, a.state, a.household).Err?
    {
      HomeBreakdownErr(t, e, heatingType, hb, a.state, a.household);
    }
  }

  // -------------------------------------------------------------- solar

  /** kg CO2 a year solar panels would save at a monthly electricity bill:
      the grid's 0.4 kg/kWh against solar's 0.05 on the kWh the bill buys at
      $0.16. */
  function SolarSavings(bill: real): (kg: int)
    ensures kg == Trunc(26.25 * bill)
  {
    var annualKwh := bill / 0.16 * 12.0;
    Trunc(annualKwh * 0.4 - annualKwh * 0.05)
  }

  /** `analyze_solar_opportunity`: a home without panels that is not an
      apartment or condo and pays more than $80 a month. A housing type
      that is not text raises, as does a text bill once the panels and the
      housing type have not ruled the home out. */
  function SolarCheck(home: Section, intro: Section): (r: Result<Option<Insight>>)
    ensures r.Ok? && r.value.Some? ==> r.value.value.category == SolarOpportunity && Plausible(r.value.value)
  {
    var hasSolar := Get(home, "solar_panels", Flag(false));
    match Lowered(Get(intro, "housing_type", Text("")))
    case Err(e) => Err(e)
    case Ok(housing) =>
      if Truthy(hasSolar) then Ok(None)
      else if Contains(housing, "apartment") || Contains(housing, "condo") then Ok(None)
      else
        match Numeric(Get(home, "monthly_electricity", Num(0.0)))
        case Err(e) => Err(e)
        case Ok(bill) =>
          if bill > 80.0 && SolarSavings(bill) > 800 then
            TruncMonotone(2100.0, 26.25 * bill);
            Ok(Some(Insight(SolarOpportunity, Medium, SolarSavings(bill), SolarTechnologies)))
          else Ok(None)
  }

  /** The 800 kg threshold never filters anything out: a bill above $80
      already means at least 2100 kg. So solar is recommended exactly when
      the home has no panels, is not an apartment or condo, and pays more
      than $80 a month. */
  lemma SolarCheckExactly(home: Section, intro: Section)
    requires Get(intro, "housing_type", Text("")).Text?
    ensures var housing := Lower(Get(intro, "housing_type", Text("")).s);
            var bill := Numeric(Get(home, "monthly_electricity", Num(0.0)));
            SolarCheck(home, intro).Ok? && SolarCheck(home, intro).value.Some?
            <==> !Truthy(Get(home, "solar_panels", Flag(false)))
                 && !Contains(housing, "apartment") && !Contains(housing, "condo")
                 && bill.Ok? && bill.value > 80.0
  {
    var bill := Numeric(Get(home, "monthly_electricity", Num(0.0)));
    if bill.Ok? && bill.value > 80.0 {
      TruncMonotone(2100.0, 26.25 * bill.value);
    }
  }

  // ------------------------------------------------------------ vehicle

  /** The car the comparison assumes: a 2023 Tesla Model 3. */
  const ElectricVehicle := Vehicle(Some(Num(2023.0)), Some(Text("tesla")), Some(Text("model 3")))

  /** The transport calculator, without flights, for the user's vehicle
      minus the same for the electric vehicle over the same mileage. */
  function VehicleScenarioSavings(t: Tables, year: Option<Answer>, make: string, model: string, miles: Answer): real {
    TransportEmissions(t, Vehicle(year, Some(Text(make)), Some(Text(model))), miles, Num(0.0), Num(0.0)).total
    - TransportEmissions(t, ElectricVehicle, miles, Num(0.0), Num(0.0)).total
  }

  /** An insight when switching saves more than 1000 kg; severe above 4000. */
  function VehicleInsight(savings: real): (r: Option<Insight>)
    ensures r.Some? <==> savings > 1000.0
    ensures r.Some? ==> r.value.category == Transportation && Plausible(r.value) && r.value.savings == Trunc(savings)
                        && (r.value.severity == High <==> savings > 4000.0)
  {
    if savings > 1000.0 then
      TruncMonotone(1000.0, savings);
      if savings > 4000.0 then
        TruncMonotone(4000.0, savings);
        Some(Insight(Transportation, High, Trunc(savings), VehicleTechnologies))
      else
        TruncMonotone(savings, 4000.0);
        Some(Insight(Transportation, Medium, Trunc(savings), VehicleTechnologies))
    else None
  }

  /** `analyze_vehicle_efficiency`: a vehicle with mileage, year, make and
      model whose fuel economy can be estimated is compared with the
      electric vehicle. A make or model that is not text raises. */
  function VehicleCheck(t: Tables, transport: Section): (r: Result<Option<Insight>>)
    ensures r.Err? <==> !Get(transport, "vehicle_make", Text("")).Text? || !Get(transport, "vehicle_model", Text("")).Text?
    ensures r.Ok? && r.value.Some? ==> r.value.value.category == Transportation && Plausible(r.value.value)
  {
    var miles := Get(transport, "annual_miles", Num(0.0));
    var year := Lookup(transport, "vehicle_year");
    match (Lowered(Get(transport, "vehicle_make", Text(""))), Lowered(Get(transport, "vehicle_model", Text(""))))
    case (Ok(make), Ok(model)) =>
      if !Truthy(miles) || !TruthyOpt(year) || make == [] || model == [] then Ok(None)
      else if EstimatedMpg(t, year, make, model).None? then Ok(None)
      else Ok(VehicleInsight(VehicleScenarioSavings(t, year, make, model, miles)))
    case _ => Err(TypeMismatch)
  }

  /** The comparison vehicle's make and model are already lower case. */
  lemma ElectricVehicleLowered()
    ensures Lower("tesla") == "tesla" && Lower("model 3") == "model 3"
  {
    assert NoUpper("tesla") && NoUpper("model 3");
    LowerNoUpper("tesla");
    LowerNoUpper("model 3");
  }

  /** With a positive mileage, a gasoline factor and non-zero fuel
      economies, the savings are the fuel the user's vehicle burns less the
      fuel the electric vehicle is taken to burn, at the gasoline factor. */
  lemma VehicleSavings(t: Tables, year: Option<Answer>, make: string, model: string, miles: Answer,
                       m: real, gasoline: real)
    requires Numeric(miles) == Ok(m) && m > 0.0
    requires FactorOf(t, "gasoline", "US") == Some(gasoline)
    requires VehicleMpgOf(t, year, Lower(make), Lower(model)) != 0.0
    requires VehicleMpgOf(t, Some(Num(2023.0)), "tesla", "model 3") != 0.0
    ensures VehicleScenarioSavings(t, year, make, model, miles)
            == Kg(Gallons(m, VehicleMpgOf(t, year, Lower(make), Lower(model))), gasoline)
               - Kg(Gallons(m, VehicleMpgOf(t, Some(Num(2023.0)), "tesla", "model 3")), gasoline)
  {
    ElectricVehicleLowered();
    VehicleOnlyTotal(t, Vehicle(year, Some(Text(make)), Some(Text(model))), miles, m, gasoline);
    VehicleOnlyTotal(t, ElectricVehicle, miles, m, gasoline);
  }

  /** A text mileage makes both runs raise inside the calculator, which
      reports zero for each, so no savings are found. This is why the
      source's fallback estimate after a failed comparison is never
      reached: nothing else in the comparison can raise. */
  lemma VehicleTextMileage(t: Tables, year: Option<Answer>, make: string, model: string, miles: Answer)
    requires miles.Text?
    ensures VehicleScenarioSavings(t, year, make, model, miles) == 0.0
    ensures VehicleInsight(VehicleScenarioSavings(t, year, make, model, miles)) == None
  {
    VehicleEntriesErr(t, Vehicle(year, Some(Text(make)), Some(Text(model))), miles);
    VehicleEntriesErr(t, ElectricVehicle, miles);
    TransportEmissionsErr(t, Vehicle(year, Some(Text(make)), Some(Text(model))), miles, Num(0.0), Num(0.0));
    TransportEmissionsErr(t, ElectricVehicle, miles, Num(0.0), Num(0.0));
  }

  /** A vehicle whose fuel economy cannot be estimated is never compared. */
  lemma VehicleCheckUnknownMpg(t: Tables, transport: Section)
    requires Get(transport, "vehicle_make", Text("")).Text? && Get(transport, "vehicle_model", Text("")).Text?
    requires EstimatedMpg(t, Lookup(transport, "vehicle_year"), Lower(Get(transport, "vehicle_make", Text("")).s),
                          Lower(Get(transport, "vehicle_model", Text("")).s)).None?
    ensures VehicleCheck(t, transport) == Ok(None)
  {
  }

  // --------------------------------------------------------- efficiency

  /** kg CO2 a year efficiency work would save on the part of the bill
      above the expected cost: 40% of the excess kWh (bought at $0.16) at
      0.4 kg/kWh. The two factors cancel the price: 12 kg per excess
      dollar a month. */
  function EfficiencySavings(bill: real, expected: real): (kg: int)
    ensures kg == Trunc(12.0 * (bill - expected))
  {
    var excessKwh := (bill - expected) / 0.16 * 12.0;
    Trunc(excessKwh * 0.4 * 0.4)
  }

  /** `analyze_extreme_energy_costs`: a bill more than 1.8 times the
      household's expected cost. */
  function ExtremeCheck(home: Section, intro: Section): (r: Result<Option<Insight>>)
    ensures r.Ok? && r.value.Some? ==> r.value.value.category == HomeEfficiency && Plausible(r.value.value)
  {
    var bill := Get(home, "monthly_electricity", Num(0.0));
    if !Truthy(bill) then Ok(None)
    else
      match ExpectedCost(Get(intro, "state", Text("CA")), Get(intro, "household_size", Num(2.0)),
                         Get(home, "square_footage", Num(1500.0)))
      case Err(e) => Err(e)
      case Ok(expected) =>
        match CostRatio(bill, expected)
        case Err(e) => Err(e)
        case Ok(ratio) =>
          if ratio > 1.8 then
            CostRatioHigh(bill, expected);
            TruncMonotone(0.0, 12.0 * (Numeric(bill).value - expected));
            Ok(Some(Insight(HomeEfficiency, High, EfficiencySavings(Numeric(bill).value, expected), EfficiencyTechnologies)))
          else Ok(None)
  }

  /** The efficiency insight appears exactly when the expected cost is
      positive and the bill exceeds 1.8 times it; its savings are then 12 kg
      per excess dollar and never negative. */
  lemma ExtremeCheckExactly(home: Section, intro: Section, expected: real)
    requires Truthy(Get(home, "monthly_electricity", Num(0.0)))
    requires ExpectedCost(Get(intro, "state", Text("CA")), Get(intro, "household_size", Num(2.0)),
                          Get(home, "square_footage", Num(1500.0))) == Ok(expected)
    requires CostRatio(Get(home, "monthly_electricity", Num(0.0)), expected).Ok?
    ensures var bill := Numeric(Get(home, "monthly_electricity", Num(0.0)));
            var r := ExtremeCheck(home, intro);
            r.Ok? && (r.value.Some? <==> expected > 0.0 && bill.value > 1.8 * expected)
            && (r.value.Some? ==> r.value.value.savings == Trunc(12.0 * (bill.value - expected)))
  {
    CostRatioHigh(Get(home, "monthly_electricity", Num(0.0)), expected);
  }

  // ----------------------------------------------------------- analysis

  /** What `if insight: insights.append(insight)` adds to the list. */
  function Found(o: Option<Insight>): (s: seq<Insight>)
    ensures o.Some? ==> s == [o.value]
    ensures o.None? ==> s == []
  {
    if o.Some? then [o.value] else []
  }

  /** `analyze_user_inefficiencies` with the heat-pump scenario run under
      `heatPumpType`: the checks in order (heating, solar, vehicle, extreme
      costs), any raise propagating, their findings sorted by savings,
      highest first, ties in check order. */
  function AnalysisWith(t: Tables, responses: Responses, heatPumpType: string): Result<seq<Insight>> {
    var intro, home := SectionOf(responses, "introduction"), SectionOf(responses, "home_energy");
    var transport := SectionOf(responses, "transportation");
    match HeatingCheckWith(t, home, intro, heatPumpType)
    case Err(e) => Err(e)
    case Ok(heating) =>
      match SolarCheck(home, intro)
      case Err(e) => Err(e)
      case Ok(solar) =>
        match VehicleCheck(t, transport)
        case Err(e) => Err(e)
        case Ok(vehicle) =>
          match ExtremeCheck(home, intro)
          case Err(e) => Err(e)
          case Ok(extreme) => Ok(SortDesc(Found(heating) + Found(solar) + Found(vehicle) + Found(extreme), Savings))
  }

  /** The analysis `analyze_user_inefficiencies` computes, with the
      `heat_pump` scenario as written. */
  function Analysis(t: Tables, responses: Responses): Result<seq<Insight>> {
    AnalysisWith(t, responses, HeatPumpAsWritten)
  }

  /** The analysis with the heat-pump scenario priced as electric heating. */
  function AnalysisCorrected(t: Tables, responses: Responses): Result<seq<Insight>> {
    AnalysisWith(t, responses, HeatPump)
  }

  /** `analyze_user_inefficiencies`: each finding appended as its
      check returns, then the list sorted in place. */
  method AnalyzeUserInefficiencies(t: Tables, responses: Responses) returns (r: Result<seq<Insight>>)
    ensures r == Analysis(t, responses)
  {
    var intro, home := SectionOf(responses, "introduction"), SectionOf(responses, "home_energy");
    var transport := SectionOf(responses, "transportation");
    var heating := HeatingCheckAsWritten(t, home, intro);
    if heating.Err? {
      return Err(heating.error);
    }
    var insights := Found(heating.value);
    var solar := SolarCheck(home, intro);
    if solar.Err? {
      return Err(solar.error);
    }
    insights := insights + Found(solar.value);
    var vehicle := VehicleCheck(t, transport);
    if vehicle.Err? {
      return Err(vehicle.error);
    }
    insights := insights + Found(vehicle.value);
    var extreme := ExtremeCheck(home, intro);
    if extreme.Err? {
      return Err(extreme.error);
    }
    insights := insights + Found(extreme.value);
    insights := SortDesc(insights, Savings);
    return Ok(insights);
  }

  /** Ranking the findings of four checks keeps each one, orders them by
      savings and adds nothing: whatever every finding satisfies, every
      ranked insight satisfies. */
  lemma {:induction false} RankedKeeps(a: Option<Insight>, b: Option<Insight>, c: Option<Insight>, d: Option<Insight>,
                                       p: Insight -> bool)
    requires a.Some? ==> p(a.value)
    requires b.Some? ==> p(b.value)
    requires c.Some? ==> p(c.value)
    requires d.Some? ==> p(d.value)
    ensures var s := SortDesc(Found(a) + Found(b) + Found(c) + Found(d), Savings);
            |s| <= 4 && SortedDesc(s, Savings) && forall i :: 0 <= i < |s| ==> p(s[i])
  {
    FoundAllKeep(a, b, c, d, p);
    SortDescPreserves(Found(a) + Found(b) + Found(c) + Found(d), Savings, p);
  }

  /** The findings of four checks: at most four, each satisfying what every
      finding satisfies. */
  lemma FoundAllKeep(a: Option<Insight>, b: Option<Insight>, c: Option<Insight>, d: Option<Insight>,
                     p: Insight -> bool)
    requires a.Some? ==> p(a.value)
    requires b.Some? ==> p(b.value)
    requires c.Some? ==> p(c.value)
    requires d.Some? ==> p(d.value)
    ensures var found := Found(a) + Found(b) + Found(c) + Found(d);
            |found| <= 4 && forall i :: 0 <= i < |found| ==> p(found[i])
  {
    var ab := Found(a) + Found(b);
    FoundConcatKeeps(Found(a), Found(b), p);
    var abc := ab + Found(c);
    FoundConcatKeeps(ab, Found(c), p);
    FoundConcatKeeps(abc, Found(d), p);
  }

  /** Two lists whose items all satisfy a property concatenate to one. */
  lemma FoundConcatKeeps(x: seq<Insight>, y: seq<Insight>, p: Insight -> bool)
    requires forall i :: 0 <= i < |x| ==> p(x[i])
    requires forall i :: 0 <= i < |y| ==> p(y[i])
    ensures forall i :: 0 <= i < |x + y| ==> p((x + y)[i])
  {
  }

  /** At most one insight per check, highest savings first, each one a
      finding some check made and each keeping its check's promises, under
      either heat-pump scenario. */
  lemma AnalysisShape(t: Tables, responses: Responses, heatPumpType: string)
    requires AnalysisWith(t, responses, heatPumpType).Ok?
    ensures var s := AnalysisWith(t, responses, heatPumpType).value;
            |s| <= 4 && SortedDesc(s, Savings) && forall i :: 0 <= i < |s| ==> Plausible(s[i])
  {
    var intro, home := SectionOf(responses, "introduction"), SectionOf(responses, "home_energy");
    var transport := SectionOf(responses, "transportation");
    RankedKeeps(HeatingCheckWith(t, home, intro, heatPumpType).value, SolarCheck(home, intro).value,
                    VehicleCheck(t, transport).value, ExtremeCheck(home, intro).value, Plausible);
  }
  /** No two insights share a category. */
  predicate DistinctCategories(s: seq<Insight>) {
    forall i, j :: 0 <= i < j < |s| ==> s[i].category != s[j].category
  }

  function CategoryOf(i: Insight): Category { i.category }

  /** The findings of the four checks, each carrying its own check's
      category, have pairwise distinct categories. */
  lemma FoundDistinct(a: Option<Insight>, b: Option<Insight>, c: Option<Insight>, d: Option<Insight>)
    requires a.Some? ==> a.value.category == HomeHeating
    requires b.Some? ==> b.value.category == SolarOpportunity
    requires c.Some? ==> c.value.category == Transportation
    requires d.Some? ==> d.value.category == HomeEfficiency
    ensures DistinctCategories(Found(a) + Found(b) + Found(c) + Found(d))
  {
    var ab := Found(a) + Found(b);
    var abc := ab + Found(c);
    DistinctAppend(Found(a), b);
    AppendLacks(Found(a), b, Transportation);
    AppendLacks(Found(a), b, HomeEfficiency);
    DistinctAppend(ab, c);
    AppendLacks(ab, c, HomeEfficiency);
    DistinctAppend(abc, d);
  }

  /** No insight of the list has category `c`. */
  predicate Lacks(s: seq<Insight>, c: Category) {
    forall i :: 0 <= i < |s| ==> s[i].category != c
  }

  /** Appending a finding of another category keeps a category absent. */
  lemma AppendLacks(x: seq<Insight>, o: Option<Insight>, c: Category)
    requires Lacks(x, c)
    requires o.Some? ==> o.value.category != c
    ensures Lacks(x + Found(o), c)
  {
  }

  /** Appending a finding whose category the list lacks keeps the
      categories distinct. */
  lemma DistinctAppend(x: seq<Insight>, o: Option<Insight>)
    requires DistinctCategories(x)
    requires o.Some? ==> Lacks(x, o.value.category)
    ensures DistinctCategories(x + Found(o))
  {
  }

  /** The ranked list holds exactly the four checks' findings, each once:
      `insights.sort(...)` only reorders what the checks appended. */
  lemma AnalysisPermutation(t: Tables, responses: Responses, heatPumpType: string)
    requires AnalysisWith(t, responses, heatPumpType).Ok?
    ensures var intro, home := SectionOf(responses, "introduction"), SectionOf(responses, "home_energy");
            var transport := SectionOf(responses, "transportation");
            multiset(AnalysisWith(t, responses, heatPumpType).value)
            == multiset(Found(HeatingCheckWith(t, home, intro, heatPumpType).value) + Found(SolarCheck(home, intro).value)
                        + Found(VehicleCheck(t, transport).value) + Found(ExtremeCheck(home, intro).value))
  {
    var intro, home := SectionOf(responses, "introduction"), SectionOf(responses, "home_energy");
    var transport := SectionOf(responses, "transportation");
    SortDescCorrect(Found(HeatingCheckWith(t, home, intro, heatPumpType).value) + Found(SolarCheck(home, intro).value)
                    + Found(VehicleCheck(t, transport).value) + Found(ExtremeCheck(home, intro).value), Savings);
  }

  /** At most one insight per category: the heating, solar, vehicle and
      extreme-cost checks each add at most one insight of their own
      category, and ranking neither duplicates nor merges them. */
  lemma OnePerCategory(t: Tables, responses: Responses, heatPumpType: string)
    requires AnalysisWith(t, responses, heatPumpType).Ok?
    ensures DistinctCategories(AnalysisWith(t, responses, heatPumpType).value)
  {
    var intro, home := SectionOf(responses, "introduction"), SectionOf(responses, "home_energy");
    var transport := SectionOf(responses, "transportation");
    RankedDistinct(HeatingCheckWith(t, home, intro, heatPumpType).value, SolarCheck(home, intro).value,
                   VehicleCheck(t, transport).value, ExtremeCheck(home, intro).value);
  }

  /** Ranking the findings of the four checks keeps their categories
      distinct. */
  lemma RankedDistinct(a: Option<Insight>, b: Option<Insight>, c: Option<Insight>, d: Option<Insight>)
    requires a.Some? ==> a.value.category == HomeHeating
    requires b.Some? ==> b.value.category == SolarOpportunity
    requires c.Some? ==> c.value.category == Transportation
    requires d.Some? ==> d.value.category == HomeEfficiency
    ensures DistinctCategories(SortDesc(Found(a) + Found(b) + Found(c) + Found(d), Savings))
  {
    var found := Found(a) + Found(b) + Found(c) + Found(d);
    FoundDistinct(a, b, c, d);
    SortDescDistinct(found, Savings, CategoryOf);
    var r := SortDesc(found, Savings);
    forall i, j | 0 <= i < j < |r| ensures r[i].category != r[j].category {
      assert CategoryOf(r[i]) != CategoryOf(r[j]);
    }
  }
}
