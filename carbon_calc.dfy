/** The emissions calculator: survey amounts converted to kg CO2 per year
    through reference tables (emission factors, electricity rates, vehicle
    fuel economy), returned as a total and a labelled breakdown. */
module CarbonCalc {
  import opened Outcomes
  import opened Strings
  import opened Numbers
  import opened Survey

  datatype EmissionFactor = EmissionFactor(category: string, region: string, co2PerUnit: real)
  datatype ElectricityRate = ElectricityRate(state: string, avgRatePerKwh: real)
  datatype VehicleMpg = VehicleMpg(year: int, make: string, model: string, mpgCombined: real)

  /** The reference tables, each in the order a query returns its rows. */
  datatype Tables = Tables(factors: seq<EmissionFactor>, rates: seq<ElectricityRate>, vehicles: seq<VehicleMpg>)

  /** One breakdown line: its label and its kg CO2 per year. */
  datatype Entry = Entry(source: string, value: real)

  datatype Emissions = Emissions(total: real, entries: seq<Entry>)

  /** What every calculator returns when it catches an exception. */
  const Nothing := Emissions(0.0, [])

  const DefaultKwhRate := 0.13
  const ThermRate := 1.20
  const OilRate := 3.50
  const DefaultMpg := 25.0
  const DomesticFlightKg := 400.0
  const InternationalFlightKg := 1500.0
  const UsAverageTons := 16.0

  function Sum(es: seq<Entry>): real {
    if es == [] then 0.0 else Sum(es[..|es| - 1]) + es[|es| - 1].value
  }

  lemma SumSnoc(es: seq<Entry>, e: Entry)
    ensures Sum(es + [e]) == Sum(es) + e.value
  {
    assert (es + [e])[..|es|] == es;
  }

  lemma SumOne(e: Entry)
    ensures Sum([e]) == e.value
  {
    assert [e][..0] == [];
  }

  lemma {:induction false} SumConcat(a: seq<Entry>, b: seq<Entry>)
    ensures Sum(a + b) == Sum(a) + Sum(b)
  {
    if b != [] {
      var init := b[..|b| - 1];
      SumConcat(a, init);
      assert (a + b)[..|a + b| - 1] == a + init;
    } else {
      assert a + b == a;
    }
  }

  /** `.filter(...).first()`: the index of the first row satisfying `p`. */
  function FirstWhere<T>(s: seq<T>, p: T -> bool): (r: Option<nat>)
    ensures r.Some? ==> r.value < |s| && p(s[r.value]) && forall j :: 0 <= j < r.value ==> !p(s[j])
    ensures r.None? ==> forall j :: 0 <= j < |s| ==> !p(s[j])
  {
    if s == [] then None
    else if p(s[0]) then Some(0)
    else match FirstWhere(s[1..], p)
      case None => None
      case Some(i) => Some(i + 1)
  }

  /** The emission factor of the first row with this category and region. */
  function FactorOf(t: Tables, category: string, region: string): (r: Option<real>)
    ensures r.None? <==> forall j :: 0 <= j < |t.factors| ==> !(t.factors[j].category == category && t.factors[j].region == region)
    ensures r.Some? ==> exists j :: 0 <= j < |t.factors| && t.factors[j] == EmissionFactor(category, region, r.value)
  {
    match FirstWhere(t.factors, (f: EmissionFactor) => f.category == category && f.region == region)
    case None => None
    case Some(i) => Some(t.factors[i].co2PerUnit)
  }

  /** The factor for the user's state, falling back to the national row
      `US`. Only a text answer can equal a region. */
  function StateFactor(t: Tables, category: string, state: Answer): (r: Option<real>)
    ensures !(state.Text? && FactorOf(t, category, state.s).Some?) ==> r == FactorOf(t, category, "US")
    ensures state.Text? && FactorOf(t, category, state.s).Some? ==> r == FactorOf(t, category, state.s)
  {
    if state.Text? && FactorOf(t, category, state.s).Some? then FactorOf(t, category, state.s)
    else FactorOf(t, category, "US")
  }

  /** The average price per kWh of the first rate row for the state. */
  function RateOf(t: Tables, state: Answer): (r: Option<real>)
    ensures r.Some? ==> state.Text? && exists j :: 0 <= j < |t.rates| && t.rates[j] == ElectricityRate(state.s, r.value)
    ensures r.None? ==> !state.Text? || forall j :: 0 <= j < |t.rates| ==> t.rates[j].state != state.s
  {
    if !state.Text? then None
    else match FirstWhere(t.rates, (e: ElectricityRate) => e.state == state.s)
      case None => None
      case Some(i) => Some(t.rates[i].avgRatePerKwh)
  }

  /** `VehicleMPG.year == year`: only a number can equal the year column. */
  predicate YearMatches(v: VehicleMpg, year: Option<Answer>) {
    year.Some? && year.value.Num? && year.value.n == v.year as real
  }

  /** The year filter and the two `ilike '%...%'` filters on make and model. */
  predicate VehicleMatches(v: VehicleMpg, year: Option<Answer>, make: string, model: string) {
    YearMatches(v, year) && Contains(Lower(v.make), Lower(make)) && Contains(Lower(v.model), Lower(model))
  }

  /** Combined MPG of the first matching vehicle row. */
  function MpgOf(t: Tables, year: Option<Answer>, make: string, model: string): (r: Option<real>)
    ensures r.None? <==> forall j :: 0 <= j < |t.vehicles| ==> !VehicleMatches(t.vehicles[j], year, make, model)
    ensures r.Some? ==> exists j :: 0 <= j < |t.vehicles| && VehicleMatches(t.vehicles[j], year, make, model)
                                    && t.vehicles[j].mpgCombined == r.value
  {
    match FirstWhere(t.vehicles, (v: VehicleMpg) => VehicleMatches(v, year, make, model))
    case None => None
    case Some(i) => Some(t.vehicles[i].mpgCombined)
  }

  // ---------------------------------------------------------------- home

  /** The heating branch the lower-cased heating type selects. */
  datatype HeatingKind = GasHeating | OilHeating | ElectricHeating | OtherHeating

  function HeatingKindOf(lowered: string): HeatingKind {
    if lowered == "gas" || lowered == "natural gas" then GasHeating
    else if lowered == "oil" || lowered == "heating oil" then OilHeating
    else if lowered == "electric" || lowered == "heat pump" then ElectricHeating
    else OtherHeating
  }

  /** kg CO2 of an amount of fuel or energy at an emission factor. */
  function Kg(amount: real, factor: real): (kg: real)
    ensures amount >= 0.0 && factor >= 0.0 ==> kg >= 0.0
  {
    amount * factor
  }

  /** Units a year that a monthly bill buys at a unit price. */
  function MonthlyToAnnual(bill: real, price: real): (units: real)
    requires price != 0.0
    ensures units * price == bill * 12.0
  {
    bill / price * 12.0
  }

  /** One household member's share of a bill. */
  function PerPerson(bill: real, household: real): (share: real)
    requires household != 0.0
    ensures share * household == bill
  {
    bill / household
  }

  /** The heating line, from the bill share of one person. */
  function HeatingEntries(t: Tables, kind: HeatingKind, individualBill: real, kwhRate: real,
                          state: Answer, electricity: Option<real>): (es: seq<Entry>)
    requires kwhRate != 0.0
    ensures |es| <= 1
    ensures kind == OtherHeating ==> es == []
  {
    match kind
    case GasHeating =>
      var gas := StateFactor(t, "natural_gas", state);
      if gas.Some? then [Entry("Natural Gas Heating", Kg(MonthlyToAnnual(individualBill, ThermRate), gas.value))] else []
    case OilHeating =>
      var oil := FactorOf(t, "heating_oil", "US");
      if oil.Some? then [Entry("Heating Oil", Kg(MonthlyToAnnual(individualBill, OilRate), oil.value))] else []
    case ElectricHeating =>
      if electricity.Some? then [Entry("Electric Heating", Kg(MonthlyToAnnual(individualBill, kwhRate), electricity.value))] else []
    case OtherHeating => []
  }

  /** The price per kWh: the state's rate, or 0.13 when it has none. */
  function KwhRate(t: Tables, state: Answer): real {
    RateOf(t, state).GetOr(DefaultKwhRate)
  }

  /** The electricity line: the person's share of the bill, converted to
      kWh a year at the state's rate, at the state's electricity factor. */
  function ElectricityEntries(t: Tables, electricBill: real, state: Answer, h: real, rate: real): (es: seq<Entry>)
    requires h != 0.0 && rate != 0.0
    ensures |es| <= 1
    ensures StateFactor(t, "electricity", state).None? <==> es == []
  {
    var electricity := StateFactor(t, "electricity", state);
    if electricity.Some? then [Entry("Electricity", Kg(MonthlyToAnnual(PerPerson(electricBill, h), rate), electricity.value))] else []
  }

  /** The `try` block of the home calculator, once the three amounts have
      been converted to floats. */
  function HomeBreakdown(t: Tables, electricBill: real, heatingType: Answer, heatingBill: real,
                         state: Answer, household: Answer): (r: Result<seq<Entry>>)
    ensures r.Ok? ==> |r.value| <= 2
  {
    var electricity := StateFactor(t, "electricity", state);
    var rate := KwhRate(t, state);
    match Numeric(household)
    case Err(e) => Err(e)
    case Ok(h) =>
      if h == 0.0 || rate == 0.0 then Err(DivisionByZero)
      else
        var elec := ElectricityEntries(t, electricBill, state, h, rate);
        match Lowered(heatingType)
        case Err(e) => Err(e)
        case Ok(lowered) =>
          Ok(elec + HeatingEntries(t, HeatingKindOf(lowered), PerPerson(heatingBill, h), rate, state, electricity))
  }

  /** `calculate_home_emissions`: any exception gives `(0.0, [])`. */
  function HomeEmissions(t: Tables, sqft: Answer, electricBill: Answer, heatingType: Answer,
                         heatingBill: Answer, state: Answer, household: Answer): (e: Emissions)
    ensures |e.entries| <= 2
  {
    match (FloatOf(sqft), FloatOf(electricBill), FloatOf(heatingBill))
    case (Some(_), Some(bill), Some(hb)) =>
      (match HomeBreakdown(t, bill, heatingType, hb, state, household)
       case Ok(es) => Emissions(Sum(es), es)
       case Err(_) => Nothing)
    case _ => Nothing
  }

  /** With the three amounts converted, the calculator's result is its
      `try` block's breakdown or, when that block raises, `(0.0, [])`. */
  lemma HomeEmissionsConverted(t: Tables, sqft: Answer, electricBill: Answer, heatingType: Answer,
                               heatingBill: Answer, state: Answer, household: Answer)
    requires FloatOf(sqft).Some? && FloatOf(electricBill).Some? && FloatOf(heatingBill).Some?
    ensures var r := HomeBreakdown(t, FloatOf(electricBill).value, heatingType, FloatOf(heatingBill).value, state, household);
            HomeEmissions(t, sqft, electricBill, heatingType, heatingBill, state, household)
            == if r.Ok? then Emissions(Sum(r.value), r.value) else Nothing
  {
  }

  /** The `try` block raises when the household size is not a number or is
      zero, when the rate is zero, or when the heating type is not text. */
  lemma HomeBreakdownErr(t: Tables, bill: real, heatingType: Answer, heatingBill: real,
                         state: Answer, household: Answer)
    requires Numeric(household).Err? || Numeric(household).value == 0.0 || KwhRate(t, state) == 0.0
             || !heatingType.Text?
    ensures HomeBreakdown(t, bill, heatingType, heatingBill, state, household).Err?
  {
  }

  /** The breakdown when nothing raises: the electricity line, if the state
      (or the nation) has a factor, then the heating line. */
  lemma HomeBreakdownOk(t: Tables, bill: real, heatingType: Answer, heatingBill: real,
                        state: Answer, household: Answer, h: real, rate: real, elec: seq<Entry>)
    requires Numeric(household) == Ok(h) && h != 0.0
    requires rate == KwhRate(t, state) && rate != 0.0
    requires heatingType.Text?
    requires elec == ElectricityEntries(t, bill, state, h, rate)
    ensures HomeBreakdown(t, bill, heatingType, heatingBill, state, household)
            == Ok(elec + HeatingEntries(t, HeatingKindOf(Lower(heatingType.s)), PerPerson(heatingBill, h),
                                        rate, state, StateFactor(t, "electricity", state)))
  {
    assert Lowered(heatingType) == Ok(Lower(heatingType.s));
  }

  /** The emissions the heating line adds for a heating type given as text,
      a monthly bill and a household. */
  function HeatingEmissions(t: Tables, heatingType: string, b: real, h: real, rate: real, state: Answer): real
    requires h != 0.0 && rate != 0.0
  {
    Sum(HeatingEntries(t, HeatingKindOf(Lower(heatingType)), PerPerson(b, h), rate, state,
                       StateFactor(t, "electricity", state)))
  }

  /** When nothing raises, the home total is the electricity line plus the
      heating line. */
  lemma HomeEmissionsTotal(t: Tables, sqft: Answer, electricBill: Answer, heatingType: string,
                           heatingBill: Answer, state: Answer, household: Answer, e: real, b: real, h: real, rate: real)
    requires FloatOf(sqft).Some? && FloatOf(electricBill) == Some(e) && FloatOf(heatingBill) == Some(b)
    requires Numeric(household) == Ok(h) && h != 0.0
    requires rate == KwhRate(t, state) && rate != 0.0
    ensures HomeEmissions(t, sqft, electricBill, Text(heatingType), heatingBill, state, household).total
            == Sum(ElectricityEntries(t, e, state, h, rate)) + HeatingEmissions(t, heatingType, b, h, rate, state)
  {
    var elec := ElectricityEntries(t, e, state, h, rate);
    HomeEmissionsConverted(t, sqft, electricBill, Text(heatingType), heatingBill, state, household);
    HomeBreakdownOk(t, e, Text(heatingType), b, state, household, h, rate, elec);
    SumConcat(elec, HeatingEntries(t, HeatingKindOf(Lower(heatingType)), PerPerson(b, h), rate, state,
                                   StateFactor(t, "electricity", state)));
  }

  /** The home total of one run minus that of a run that differs only in
      the heating answers. */
  function HomeTotalsGap(t: Tables, sqft: Answer, electricBill: Answer, state: Answer, household: Answer,
                         type1: string, bill1: Answer, type2: string, bill2: Answer): real
  {
    HomeEmissions(t, sqft, electricBill, Text(type1), bill1, state, household).total
    - HomeEmissions(t, sqft, electricBill, Text(type2), bill2, state, household).total
  }

  /** Two runs that differ only in the heating answers differ by their
      heating lines alone: the electricity line cancels. */
  lemma HomeEmissionsDifference(t: Tables, sqft: Answer, electricBill: Answer, state: Answer, household: Answer,
                                type1: string, bill1: Answer, type2: string, bill2: Answer,
                                e: real, b1: real, b2: real, h: real, rate: real)
    requires FloatOf(sqft).Some? && FloatOf(electricBill) == Some(e)
    requires FloatOf(bill1) == Some(b1) && FloatOf(bill2) == Some(b2)
    requires Numeric(household) == Ok(h) && h != 0.0
    requires rate == KwhRate(t, state) && rate != 0.0
    ensures HomeTotalsGap(t, sqft, electricBill, state, household, type1, bill1, type2, bill2)
            == HeatingEmissions(t, type1, b1, h, rate, state) - HeatingEmissions(t, type2, b2, h, rate, state)
  {
    HomeEmissionsTotal(t, sqft, electricBill, type1, bill1, state, household, e, b1, h, rate);
    HomeEmissionsTotal(t, sqft, electricBill, type2, bill2, state, household, e, b2, h, rate);
  }

  /** The heating branch of the calculator: the line for the recognised fuel
      and the amount it adds to the total. */
  method HeatingLine(t: Tables, kind: HeatingKind, individualHeating: real, rate: real,
                     state: Answer, electricity: Option<real>)
    returns (line: seq<Entry>, heatingEmissions: real)
    requires rate != 0.0
    ensures line == HeatingEntries(t, kind, individualHeating, rate, state, electricity)
    ensures heatingEmissions == Sum(line)
  {
    line, heatingEmissions := [], 0.0;
    match kind
    case GasHeating =>
      var gas := StateFactor(t, "natural_gas", state);
      if gas.Some? {
        var therms := MonthlyToAnnual(individualHeating, ThermRate);
        heatingEmissions := Kg(therms, gas.value);
        line := [Entry("Natural Gas Heating", heatingEmissions)];
        SumOne(line[0]);
      }
    case OilHeating =>
      var oil := FactorOf(t, "heating_oil", "US");
      if oil.Some? {
        var gallons := MonthlyToAnnual(individualHeating, OilRate);
        heatingEmissions := Kg(gallons, oil.value);
        line := [Entry("Heating Oil", heatingEmissions)];
        SumOne(line[0]);
      }
    case ElectricHeating =>
      if electricity.Some? {
        var heatingKwh := MonthlyToAnnual(individualHeating, rate);
        heatingEmissions := Kg(heatingKwh, electricity.value);
        line := [Entry("Electric Heating", heatingEmissions)];
        SumOne(line[0]);
      }
    case OtherHeating =>
  }

  /** The second `try` block of the home calculator: whether it raised,
      else its breakdown lines and their running total. */
  method HomeLines(t: Tables, electricBill: real, heatingType: Answer, heatingBill: real,
                   state: Answer, household: Answer)
    returns (raised: bool, breakdowns: seq<Entry>, total: real)
    ensures raised <==> HomeBreakdown(t, electricBill, heatingType, heatingBill, state, household).Err?
    ensures !raised ==> breakdowns == HomeBreakdown(t, electricBill, heatingType, heatingBill, state, household).value
                        && total == Sum(breakdowns)
  {
    breakdowns := [];
    total := 0.0;
    var electricity := StateFactor(t, "electricity", state);
    var rate := DefaultKwhRate;
    var found := RateOf(t, state);
    if found.Some? {
      rate := found.value;
    }
    var household' := Numeric(household);
    if household'.Err? || household'.value == 0.0 || rate == 0.0 {
      HomeBreakdownErr(t, electricBill, heatingType, heatingBill, state, household);
      return true, [], 0.0;
    }
    var h := household'.value;
    var individualBill := PerPerson(electricBill, h);
    var annualKwh := MonthlyToAnnual(individualBill, rate);
    if electricity.Some? {
      total := Kg(annualKwh, electricity.value);
      breakdowns := [Entry("Electricity", total)];
      SumOne(breakdowns[0]);
    }
    var lowered := Lowered(heatingType);
    if lowered.Err? {
      HomeBreakdownErr(t, electricBill, heatingType, heatingBill, state, household);
      return true, [], 0.0;
    }
    HomeBreakdownOk(t, electricBill, heatingType, heatingBill, state, household, h, rate, breakdowns);
    var line, heatingEmissions := HeatingLine(t, HeatingKindOf(lowered.value), PerPerson(heatingBill, h), rate, state, electricity);
    SumConcat(breakdowns, line);
    breakdowns := breakdowns + line;
    total := total + heatingEmissions;
    raised := false;
  }

  /** `calculate_home_emissions`: the three amounts converted to
      floats, then the breakdown lines, with `(0.0, [])` on every
      exception. */
  method CalculateHomeEmissions(t: Tables, sqft: Answer, electricBill: Answer, heatingType: Answer,
                                heatingBill: Answer, state: Answer, household: Answer)
    returns (total: real, breakdowns: seq<Entry>)
    ensures Emissions(total, breakdowns) == HomeEmissions(t, sqft, electricBill, heatingType, heatingBill, state, household)
    ensures total == Sum(breakdowns)
  {
    var sq, eb, hb := FloatOf(sqft), FloatOf(electricBill), FloatOf(heatingBill);
    if sq.None? || eb.None? || hb.None? {
      return 0.0, [];
    }
    HomeEmissionsConverted(t, sqft, electricBill, heatingType, heatingBill, state, household);
    var raised;
    raised, breakdowns, total := HomeLines(t, eb.value, heatingType, hb.value, state, household);
    if raised {
      return 0.0, [];
    }
  }

  // ----------------------------------------------------------- transport

  /** The `vehicle_data` dictionary: year, make and model as given, each
      possibly `None`. */
  datatype Vehicle = Vehicle(year: Option<Answer>, make: Option<Answer>, model: Option<Answer>)

  /** `value.lower()` on a value that may be `None`. */
  function LoweredOpt(a: Option<Answer>): (r: Result<string>)
    ensures r.Ok? <==> a.Some? && a.value.Text?
  {
    if a.Some? then Lowered(a.value) else Err(TypeMismatch)
  }

  /** `f'Vehicle ({year} {make.title()} {model.title()})'` */
  function VehicleLabel(year: Option<Answer>, make: string, model: string): (name: string)
    ensures StartsWith(name, "Vehicle (")
    ensures Contains(name, Show(year))
  {
    var shown, rest := Show(year), " " + Title(make) + " " + Title(model) + ")";
    ContainsMiddle("Vehicle (", shown, rest);
    "Vehicle (" + shown + rest
  }

  /** Gallons of fuel a year's miles burn at a fuel economy. */
  function Gallons(miles: real, mpg: real): (gallons: real)
    requires mpg != 0.0
    ensures gallons * mpg == miles
  {
    miles / mpg
  }

  /** The fuel economy used for the vehicle: the first matching row's, or
      25 MPG when no row matches. */
  function VehicleMpgOf(t: Tables, year: Option<Answer>, make: string, model: string): real {
    MpgOf(t, year, make, model).GetOr(DefaultMpg)
  }

  /** The vehicle line: miles over MPG (25 when the model is unknown) times
      the national gasoline factor. */
  function VehicleEntries(t: Tables, vehicle: Vehicle, annualMiles: Answer): (r: Result<seq<Entry>>)
    ensures r.Ok? ==> |r.value| <= 1
  {
    match Numeric(annualMiles)
    case Err(e) => Err(e)
    case Ok(miles) =>
      if miles <= 0.0 then Ok([])
      else
        match (LoweredOpt(vehicle.make), LoweredOpt(vehicle.model))
        case (Ok(make), Ok(model)) =>
          var mpg := VehicleMpgOf(t, vehicle.year, make, model);
          var gasoline := FactorOf(t, "gasoline", "US");
          if mpg == 0.0 then Err(DivisionByZero)
          else if gasoline.Some? then Ok([Entry(VehicleLabel(vehicle.year, make, model), Kg(Gallons(miles, mpg), gasoline.value))])
          else Ok([])
        case _ => Err(TypeMismatch)
  }

  function FlightEntries(domestic: real, international: real): (es: seq<Entry>)
    ensures |es| <= 2
  {
    (if domestic > 0.0 then [Entry("Domestic Flights", Kg(domestic, DomesticFlightKg))] else [])
    + (if international > 0.0 then [Entry("International Flights", Kg(international, InternationalFlightKg))] else [])
  }

  /** The `try` block of the transport calculator. */
  function TransportBreakdown(t: Tables, vehicle: Vehicle, annualMiles: Answer,
                              domestic: Answer, international: Answer): Result<seq<Entry>>
  {
    match (VehicleEntries(t, vehicle, annualMiles), Numeric(domestic), Numeric(international))
    case (Ok(ve), Ok(d), Ok(i)) => Ok(ve + FlightEntries(d, i))
    case (Err(e), _, _) => Err(e)
    case _ => Err(TypeMismatch)
  }

  /** `calculate_transport_emissions`: any exception gives `(0.0, [])`. */
  function TransportEmissions(t: Tables, vehicle: Vehicle, annualMiles: Answer,
                              domestic: Answer, international: Answer): (e: Emissions)
    ensures |e.entries| <= 3
  {
    match TransportBreakdown(t, vehicle, annualMiles, domestic, international)
    case Ok(es) => Emissions(Sum(es), es)
    case Err(_) => Nothing
  }

  /** The vehicle line exists exactly when the mileage is positive, make and
      model are text, the fuel economy is not zero and the national
      gasoline factor exists. */
  lemma VehicleEntriesOk(t: Tables, vehicle: Vehicle, annualMiles: Answer, miles: real, line: seq<Entry>)
    requires Numeric(annualMiles) == Ok(miles)
    requires miles > 0.0 ==> LoweredOpt(vehicle.make).Ok? && LoweredOpt(vehicle.model).Ok?
    requires miles > 0.0 ==> VehicleMpgOf(t, vehicle.year, LoweredOpt(vehicle.make).value, LoweredOpt(vehicle.model).value) != 0.0
    requires miles <= 0.0 ==> line == []
    requires miles > 0.0 ==>
               var make, model := LoweredOpt(vehicle.make).value, LoweredOpt(vehicle.model).value;
               var gasoline := FactorOf(t, "gasoline", "US");
               line == if gasoline.Some? then [Entry(VehicleLabel(vehicle.year, make, model),
                                                     Kg(Gallons(miles, VehicleMpgOf(t, vehicle.year, make, model)), gasoline.value))]
                       else []
    ensures VehicleEntries(t, vehicle, annualMiles) == Ok(line)
  {
  }

  /** The vehicle part raises on non-numeric mileage and, for a positive
      mileage, on a make or model that is not text or a zero fuel economy. */
  lemma VehicleEntriesErr(t: Tables, vehicle: Vehicle, annualMiles: Answer)
    requires Numeric(annualMiles).Err?
             || (Numeric(annualMiles).value > 0.0
                 && (LoweredOpt(vehicle.make).Err? || LoweredOpt(vehicle.model).Err?
                     || VehicleMpgOf(t, vehicle.year, LoweredOpt(vehicle.make).value, LoweredOpt(vehicle.model).value) == 0.0))
    ensures VehicleEntries(t, vehicle, annualMiles).Err?
  {
  }

  /** The transport calculator gives `(0.0, [])` when any of its three
      parts raises. */
  lemma TransportEmissionsErr(t: Tables, vehicle: Vehicle, annualMiles: Answer, domestic: Answer, international: Answer)
    requires VehicleEntries(t, vehicle, annualMiles).Err? || Numeric(domestic).Err? || Numeric(international).Err?
    ensures TransportEmissions(t, vehicle, annualMiles, domestic, international) == Nothing
  {
  }

  /** Otherwise its breakdown is the vehicle line followed by the flight
      lines. */
  lemma TransportEmissionsOk(t: Tables, vehicle: Vehicle, annualMiles: Answer, domestic: Answer, international: Answer,
                             es: seq<Entry>)
    requires VehicleEntries(t, vehicle, annualMiles).Ok? && Numeric(domestic).Ok? && Numeric(international).Ok?
    requires es == VehicleEntries(t, vehicle, annualMiles).value + FlightEntries(Numeric(domestic).value, Numeric(international).value)
    ensures TransportEmissions(t, vehicle, annualMiles, domestic, international) == Emissions(Sum(es), es)
  {
  }

  /** Without flights, a vehicle driven a positive mileage makes up the
      whole total: its fuel at the gasoline factor. */
  lemma VehicleOnlyTotal(t: Tables, vehicle: Vehicle, annualMiles: Answer, m: real, gasoline: real)
    requires Numeric(annualMiles) == Ok(m) && m > 0.0
    requires LoweredOpt(vehicle.make).Ok? && LoweredOpt(vehicle.model).Ok?
    requires VehicleMpgOf(t, vehicle.year, LoweredOpt(vehicle.make).value, LoweredOpt(vehicle.model).value) != 0.0
    requires FactorOf(t, "gasoline", "US") == Some(gasoline)
    ensures TransportEmissions(t, vehicle, annualMiles, Num(0.0), Num(0.0)).total
            == Kg(Gallons(m, VehicleMpgOf(t, vehicle.year, LoweredOpt(vehicle.make).value, LoweredOpt(vehicle.model).value)), gasoline)
  {
    var make, model := LoweredOpt(vehicle.make).value, LoweredOpt(vehicle.model).value;
    var line := [Entry(VehicleLabel(vehicle.year, make, model), Kg(Gallons(m, VehicleMpgOf(t, vehicle.year, make, model)), gasoline))];
    VehicleEntriesOk(t, vehicle, annualMiles, m, line);
    assert FlightEntries(0.0, 0.0) == [];
    assert line + [] == line;
    TransportEmissionsOk(t, vehicle, annualMiles, Num(0.0), Num(0.0), line);
    SumOne(line[0]);
  }

  /** The vehicle block of the transport calculator: whether it raised,
      else its breakdown lines and the amount they add to the total. */
  method VehicleLine(t: Tables, vehicle: Vehicle, annualMiles: Answer)
    returns (raised: bool, lines: seq<Entry>, vehicleEmissions: real)
    ensures raised <==> VehicleEntries(t, vehicle, annualMiles).Err?
    ensures !raised ==> lines == VehicleEntries(t, vehicle, annualMiles).value && vehicleEmissions == Sum(lines)
  {
    lines, vehicleEmissions := [], 0.0;
    var miles := Numeric(annualMiles);
    if miles.Err? {
      VehicleEntriesErr(t, vehicle, annualMiles);
      return true, [], 0.0;
    }
    if miles.value > 0.0 {
      var make, model := LoweredOpt(vehicle.make), LoweredOpt(vehicle.model);
      if make.Err? || model.Err? {
        VehicleEntriesErr(t, vehicle, annualMiles);
        return true, [], 0.0;
      }
      var mpg := DefaultMpg;
      var row := MpgOf(t, vehicle.year, make.value, model.value);
      if row.Some? {
        mpg := row.value;
      }
      assert mpg == VehicleMpgOf(t, vehicle.year, make.value, model.value);
      if mpg == 0.0 {
        VehicleEntriesErr(t, vehicle, annualMiles);
        return true, [], 0.0;
      }
      var gallons := Gallons(miles.value, mpg);
      var gasoline := FactorOf(t, "gasoline", "US");
      if gasoline.Some? {
        vehicleEmissions := Kg(gallons, gasoline.value);
        lines := [Entry(VehicleLabel(vehicle.year, make.value, model.value), vehicleEmissions)];
        SumOne(lines[0]);
      }
    }
    VehicleEntriesOk(t, vehicle, annualMiles, miles.value, lines);
    raised := false;
  }

  /** The flight block of the transport calculator: whether it raised,
      else its breakdown lines and the amount they add to the total. */
  method FlightLines(domestic: Answer, international: Answer)
    returns (raised: bool, lines: seq<Entry>, flightEmissions: real)
    ensures raised <==> Numeric(domestic).Err? || Numeric(international).Err?
    ensures !raised ==> lines == FlightEntries(Numeric(domestic).value, Numeric(international).value)
                        && flightEmissions == Sum(lines)
  {
    lines, flightEmissions := [], 0.0;
    var domestic', international' := Numeric(domestic), Numeric(international);
    if domestic'.Err? {
      return true, [], 0.0;
    }
    if domestic'.value > 0.0 {
      flightEmissions := Kg(domestic'.value, DomesticFlightKg);
      lines := [Entry("Domestic Flights", flightEmissions)];
      SumOne(lines[0]);
    }
    if international'.Err? {
      return true, [], 0.0;
    }
    if international'.value > 0.0 {
      var v := Kg(international'.value, InternationalFlightKg);
      SumSnoc(lines, Entry("International Flights", v));
      flightEmissions := flightEmissions + v;
      lines := lines + [Entry("International Flights", v)];
    }
    raised := false;
  }

  /** `calculate_transport_emissions`, step by step. */
  method CalculateTransportEmissions(t: Tables, vehicle: Vehicle, annualMiles: Answer,
                                     domestic: Answer, international: Answer)
    returns (total: real, breakdowns: seq<Entry>)
    ensures Emissions(total, breakdowns) == TransportEmissions(t, vehicle, annualMiles, domestic, international)
    ensures total == Sum(breakdowns)
  {
    var raised, vehicleLines, vehicleEmissions := VehicleLine(t, vehicle, annualMiles);
    if raised {
      TransportEmissionsErr(t, vehicle, annualMiles, domestic, international);
      return 0.0, [];
    }
    var flightsRaised, flightLines, flightEmissions := FlightLines(domestic, international);
    if flightsRaised {
      TransportEmissionsErr(t, vehicle, annualMiles, domestic, international);
      return 0.0, [];
    }
    SumConcat(vehicleLines, flightLines);
    breakdowns := vehicleLines + flightLines;
    total := vehicleEmissions + flightEmissions;
    TransportEmissionsOk(t, vehicle, annualMiles, domestic, international, breakdowns);
  }

  // --------------------------------------------------------- consumption

  /** `diet_type.lower().replace(' ', '_').replace('-', '_')` */
  function DietKey(dietType: string): string {
    ReplaceChar(ReplaceChar(Lower(dietType), ' ', '_'), '-', '_')
  }

  /** kg CO2 per person per year for a diet; unknown diets count as
      moderate meat. */
  function DietKg(dietType: string): (kg: real)
    ensures kg in {3300.0, 2500.0, 1900.0, 1600.0, 1200.0}
  {
    var key := DietKey(dietType);
    if key == "heavy_meat" then 3300.0
    else if key == "moderate_meat" then 2500.0
    else if key == "light_meat" then 1900.0
    else if key == "vegetarian" then 1600.0
    else if key == "vegan" then 1200.0
    else 2500.0
  }

  /** `shopping_frequency.lower().replace(' ', '_')` */
  function ShoppingKey(frequency: string): string {
    ReplaceChar(Lower(frequency), ' ', '_')
  }

  /** kg CO2 per person per year for a shopping habit; unknown habits count
      as moderate. */
  function ShoppingKg(frequency: string): (kg: real)
    ensures kg in {500.0, 1000.0, 2000.0, 3000.0}
  {
    var key := ShoppingKey(frequency);
    if key == "low" then 500.0
    else if key == "moderate" then 1000.0
    else if key == "high" then 2000.0
    else if key == "very_high" then 3000.0
    else 1000.0
  }

  /** `calculate_consumption_emissions`: a diet line and a consumer-goods
      line; a non-text answer raises inside the `try` and gives `(0.0, [])`. */
  function ConsumptionEmissions(dietType: Answer, shoppingFrequency: Answer): (e: Emissions)
    ensures dietType.Text? && shoppingFrequency.Text? ==>
              |e.entries| == 2
              && StartsWith(e.entries[0].source, "Diet (") && e.entries[0].value == DietKg(dietType.s)
              && StartsWith(e.entries[1].source, "Consumer goods (") && e.entries[1].value == ShoppingKg(shoppingFrequency.s)
              && e.total == e.entries[0].value + e.entries[1].value
    ensures !(dietType.Text? && shoppingFrequency.Text?) ==> e == Nothing
  {
    if dietType.Text? && shoppingFrequency.Text? then
      var diet := Entry("Diet (" + Title(dietType.s) + ")", DietKg(dietType.s));
      var shopping := Entry("Consumer goods (" + Title(shoppingFrequency.s) + ")", ShoppingKg(shoppingFrequency.s));
      ContainsMiddle("Diet (", Title(dietType.s), ")");
      ContainsMiddle("Consumer goods (", Title(shoppingFrequency.s), ")");
      Emissions(diet.value + shopping.value, [diet, shopping])
    else Nothing
  }

  /** `calculate_consumption_emissions`: the diet line, then
      the consumer-goods line, each added to the running total. */
  method CalculateConsumptionEmissions(dietType: Answer, shoppingFrequency: Answer)
    returns (total: real, breakdowns: seq<Entry>)
    ensures Emissions(total, breakdowns) == ConsumptionEmissions(dietType, shoppingFrequency)
  {
    breakdowns, total := [], 0.0;
    if !dietType.Text? {
      return 0.0, [];
    }
    var dietEmissions := DietKg(dietType.s);
    total := total + dietEmissions;
    breakdowns := breakdowns + [Entry("Diet (" + Title(dietType.s) + ")", dietEmissions)];
    if !shoppingFrequency.Text? {
      return 0.0, [];
    }
    var shoppingEmissions := ShoppingKg(shoppingFrequency.s);
    total := total + shoppingEmissions;
    breakdowns := breakdowns + [Entry("Consumer goods (" + Title(shoppingFrequency.s) + ")", shoppingEmissions)];
  }

  /** Spelling of the diet does not matter: case, spaces and hyphens are
      normalised away, so a key that is already normalised gives the same
      figure. */
  lemma DietKeyNormalised(dietType: string)
    ensures DietKey(DietKey(dietType)) == DietKey(dietType)
    ensures DietKg(DietKey(dietType)) == DietKg(dietType)
  {
    var k := DietKey(dietType);
    assert forall i :: 0 <= i < |k| ==> k[i] != ' ' && k[i] != '-' && !IsUpperAscii(k[i]);
    assert Lower(k) == k;
    assert ReplaceChar(k, ' ', '_') == k;
    assert ReplaceChar(k, '-', '_') == k;
  }

  // --------------------------------------------------------------- total

  datatype Footprint = Footprint(
    totalKg: real, totalTons: real,
    home: real, transport: real, consumption: real,
    usAverageTons: real, percentageOfUsAverage: real,
    homePercent: real, transportPercent: real, consumptionPercent: real)

  /** `calculate_total_footprint`: totals, the comparison with the 16-ton
      US average and each category's share of the total. */
  function TotalFootprint(home: real, transport: real, consumption: real): (f: Footprint)
    ensures f.totalKg == home + transport + consumption
    ensures f.totalTons * 1000.0 == f.totalKg
    ensures f.percentageOfUsAverage * UsAverageTons == f.totalTons * 100.0
    ensures f.totalKg <= 0.0 ==> f.homePercent == 0.0 && f.transportPercent == 0.0 && f.consumptionPercent == 0.0
    ensures f.totalKg > 0.0 ==> f.homePercent + f.transportPercent + f.consumptionPercent == 100.0
    ensures f.totalKg > 0.0 && home >= 0.0 && transport >= 0.0 && consumption >= 0.0 ==>
              0.0 <= f.homePercent <= 100.0 && 0.0 <= f.transportPercent <= 100.0 && 0.0 <= f.consumptionPercent <= 100.0
  {
    var total := home + transport + consumption;
    var tons := total / 1000.0;
    Footprint(total, tons, home, transport, consumption, UsAverageTons, tons / UsAverageTons * 100.0,
              if total > 0.0 then home / total * 100.0 else 0.0,
              if total > 0.0 then transport / total * 100.0 else 0.0,
              if total > 0.0 then consumption / total * 100.0 else 0.0)
  }
}
