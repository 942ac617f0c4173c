/** The five lifestyle checks: flights, driving, electricity, diet and
    shopping, each reading the breakdown and the survey answers. */
module LifestyleChecks {
  import opened Outcomes
  import opened Strings
  import opened Numbers
  import opened Survey
  import opened CarbonCalc
  import opened Baselines
  import opened FuelEconomy
  import opened BreakdownSearch
  import opened CalculatorFigures

  datatype Area = Transportation | HomeEnergy | Consumption

  datatype Action =
    | ReduceFlights | ReduceInternationalFlights | ReduceDomesticFlights
    | DriveLess | ReduceEnergyUse | ReduceMeatConsumption | ReduceShoppingFrequency

  /** A suggested change: what it is about, the kg CO2 per year the habit
      produces now, the kg it would save and the dollars it would save per
      year when that is estimated. The advice text is not modelled. */
  datatype LifestyleRecommendation = LifestyleRecommendation(
    area: Area, action: Action, currentKg: int, savingsKg: int, costSavings: Option<int>)

  const DomesticFlightCost := 400
  const InternationalFlightCost := 1200
  const GasPricePerGallon := 3.5

  /** Driving counts as heavy above 1.25 times the average miles per driver. */
  const HighMileage: real := MilesPerDriver as real * 1.25

  /** The ranking key: the emissions the change addresses. */
  function Current(r: LifestyleRecommendation): int {
    r.currentKg
  }

  /** A tenth of a non-negative amount, truncated, lies between nothing and
      the truncated amount. */
  lemma TenthBounded(x: real)
    requires x >= 0.0
    ensures 0 <= Trunc(x * 0.1) <= Trunc(x)
  {
    TruncMonotone(x * 0.1, x);
  }
  /** The total flight emissions of the breakdown. */
  function FlightKg(d: Breakdown): real {
    Value(d, "Domestic Flights") + Value(d, "International Flights")
  }

  function DomesticFlights(transport: Section): Answer {
    Get(transport, "domestic_flights", Num(0.0))
  }

  function InternationalFlights(transport: Section): Answer {
    Get(transport, "international_flights", Num(0.0))
  }

  /** `analyze_flight_usage_from_breakdown`: with flight emissions present,
      more than three domestic or more than one international round trip
      draws a recommendation. Comparing a text answer with a number raises. */
  function FlightCheck(d: Breakdown, transport: Section): Result<Option<LifestyleRecommendation>> {
    var total := FlightKg(d);
    if total == 0.0 then Ok(None)
    else
      match (Numeric(DomesticFlights(transport)), Numeric(InternationalFlights(transport)))
      case (Ok(domestic), Ok(international)) =>
        var current := Trunc(total);
        if domestic > 3.0 && international > 1.0 then
          Ok(Some(LifestyleRecommendation(Transportation, ReduceFlights, current, 1200, Some(InternationalFlightCost))))
        else if international > 1.0 then
          Ok(Some(LifestyleRecommendation(Transportation, ReduceInternationalFlights, current, 1200, Some(InternationalFlightCost))))
        else if domestic > 3.0 then
          Ok(Some(LifestyleRecommendation(Transportation, ReduceDomesticFlights, current, 450, Some(DomesticFlightCost))))
        else Ok(None)
      case _ => Err(TypeMismatch)
  }

  /** No flight emissions, no recommendation; a text flight count raises;
      otherwise a recommendation comes exactly when a count is above its
      threshold, an international reduction (1200 kg, the price of an
      international trip) is preferred whenever international travel is
      high, and only domestic travel gives the 450 kg domestic reduction. */
  lemma FlightOutcome(d: Breakdown, transport: Section)
    ensures FlightKg(d) == 0.0 ==> FlightCheck(d, transport) == Ok(None)
    ensures FlightCheck(d, transport).Err? <==>
              FlightKg(d) != 0.0 && (DomesticFlights(transport).Text? || InternationalFlights(transport).Text?)
    ensures var r := FlightCheck(d, transport);
            r.Ok? && FlightKg(d) != 0.0 ==>
              var domestic, international := Numeric(DomesticFlights(transport)).value, Numeric(InternationalFlights(transport)).value;
              (r.value.Some? <==> domestic > 3.0 || international > 1.0)
              && (r.value.Some? ==>
                    r.value.value.area == Transportation && r.value.value.currentKg == Trunc(FlightKg(d))
                    && (r.value.value.action == ReduceFlights <==> domestic > 3.0 && international > 1.0)
                    && (international > 1.0 ==> r.value.value.savingsKg == 1200 && r.value.value.costSavings == Some(InternationalFlightCost))
                    && (international <= 1.0 ==> r.value.value.action == ReduceDomesticFlights
                                                 && r.value.value.savingsKg == 450 && r.value.value.costSavings == Some(DomesticFlightCost)))
  {
  }

  function AnnualMiles(transport: Section): Answer {
    Get(transport, "annual_miles", Num(0.0))
  }

  function MakeAnswer(transport: Section): Answer {
    Get(transport, "vehicle_make", Text(""))
  }

  function ModelAnswer(transport: Section): Answer {
    Get(transport, "vehicle_model", Text(""))
  }

  /** `analyze_driving_from_breakdown` once the vehicle's emissions have
      been found: heavy driving in a vehicle of known fuel economy below 50
      MPG draws a 10% reduction. A make or model that is not text raises on
      `.lower()`, a text mileage raises on the comparison, and a fuel
      economy of 0 raises on the division. */
  function DrivingDecision(t: Tables, vehicleKg: real, transport: Section): Result<Option<LifestyleRecommendation>> {
    var miles := AnnualMiles(transport);
    match (Lowered(MakeAnswer(transport)), Lowered(ModelAnswer(transport)))
    case (Ok(make), Ok(model)) =>
      if vehicleKg == 0.0 || !Truthy(miles) then Ok(None)
      else
        (match Numeric(miles)
         case Err(e) => Err(e)
         case Ok(m) =>
           if m <= HighMileage then Ok(None)
           else
             match EstimatedMpg(t, Lookup(transport, "vehicle_year"), make, model)
             case None => Ok(None)
             case Some(mpg) =>
               if mpg >= 50.0 then Ok(None)
               else if mpg == 0.0 then Err(DivisionByZero)
               else
                 var reduce := Trunc(m * 0.1);
                 Ok(Some(LifestyleRecommendation(
                   Transportation, DriveLess, Trunc(vehicleKg), Trunc(vehicleKg * 0.1),
                   Some(Trunc(reduce as real / mpg * GasPricePerGallon))))))
    case _ => Err(TypeMismatch)
  }

  /** A make or model that is not text raises; no vehicle emissions or no
      mileage gives nothing. */
  lemma DrivingOutcome(t: Tables, vehicleKg: real, transport: Section)
    ensures !MakeAnswer(transport).Text? || !ModelAnswer(transport).Text? ==> DrivingDecision(t, vehicleKg, transport).Err?
    ensures vehicleKg == 0.0 || !Truthy(AnnualMiles(transport)) ==>
              DrivingDecision(t, vehicleKg, transport).Ok? ==> DrivingDecision(t, vehicleKg, transport).value.None?
  {
  }

  /** A driving recommendation needs a numeric mileage above 1.25 times
      the average and an estimated fuel economy below 50 MPG (and not 0);
      it saves a tenth of the vehicle's emissions and the fuel of a tenth of
      the miles. For non-negative emissions the savings never exceed the
      current emissions. */
  lemma DrivingRecommendation(t: Tables, vehicleKg: real, transport: Section)
    ensures var r := DrivingDecision(t, vehicleKg, transport);
            r.Ok? && r.value.Some? ==>
              MakeAnswer(transport).Text? && ModelAnswer(transport).Text? && AnnualMiles(transport).Num?
              && vehicleKg != 0.0 && AnnualMiles(transport).n > HighMileage
              && var mpg := EstimatedMpg(t, Lookup(transport, "vehicle_year"), Lower(MakeAnswer(transport).s), Lower(ModelAnswer(transport).s));
              mpg.Some? && mpg.value < 50.0 && mpg.value != 0.0
              && r.value.value == LifestyleRecommendation(
                   Transportation, DriveLess, Trunc(vehicleKg), Trunc(vehicleKg * 0.1),
                   Some(Trunc(Trunc(AnnualMiles(transport).n * 0.1) as real / mpg.value * GasPricePerGallon)))
    ensures var r := DrivingDecision(t, vehicleKg, transport);
            r.Ok? && r.value.Some? && vehicleKg >= 0.0 ==> 0 <= r.value.value.savingsKg <= r.value.value.currentKg
  {
    if vehicleKg >= 0.0 {
      TenthBounded(vehicleKg);
    }
  }

  /** The driving check on a breakdown: the vehicle's emissions are those
      of the first vehicle line of the user's model year. */
  function DrivingCheck(t: Tables, d: Breakdown, transport: Section): Result<Option<LifestyleRecommendation>> {
    DrivingDecision(t, FirstValue(d, VehicleSource(Lookup(transport, "vehicle_year"))), transport)
  }

  function ElectricBill(home: Section): Answer {
    Get(home, "monthly_electricity", Num(0.0))
  }

  /** The expected monthly bill, with the defaults the engine uses: 1500
      square feet, California, two people. */
  function ExpectedBill(home: Section, intro: Section): Result<real> {
    ExpectedCost(Get(intro, "state", Text("CA")), Get(intro, "household_size", Num(2.0)),
                 Get(home, "square_footage", Num(1500.0)))
  }

  /** `analyze_energy_from_breakdown`: with electricity emissions and a
      bill, a bill more than 1.8 times the expected one draws a 10%
      reduction. */
  function EnergyCheck(d: Breakdown, home: Section, intro: Section): Result<Option<LifestyleRecommendation>> {
    var bill, kg := ElectricBill(home), Value(d, "Electricity");
    if kg == 0.0 || !Truthy(bill) then Ok(None)
    else
      match ExpectedBill(home, intro)
      case Err(e) => Err(e)
      case Ok(expected) =>
        match CostRatio(bill, expected)
        case Err(e) => Err(e)
        case Ok(ratio) =>
          if ratio <= 1.8 then Ok(None)
          else
            match Numeric(bill)
            case Err(e) => Err(e)
            case Ok(b) =>
              Ok(Some(LifestyleRecommendation(HomeEnergy, ReduceEnergyUse, Trunc(kg), Trunc(kg * 0.1), Some(Trunc(b * 0.1) * 12))))
  }

  /** No electricity emissions or no bill, no recommendation; the energy check
      raises exactly when the expected bill or the ratio raises; a
      recommendation needs a positive expected bill and a bill more than
      1.8 times it, and saves a tenth of the emissions and a tenth of the
      monthly bill (truncated) every month. For non-negative emissions the
      savings never exceed the current emissions. */
  lemma EnergyOutcome(d: Breakdown, home: Section, intro: Section)
    ensures Value(d, "Electricity") == 0.0 || !Truthy(ElectricBill(home)) ==> EnergyCheck(d, home, intro) == Ok(None)
    ensures EnergyCheck(d, home, intro).Err? <==>
              Value(d, "Electricity") != 0.0 && Truthy(ElectricBill(home))
              && (ExpectedBill(home, intro).Err? || CostRatio(ElectricBill(home), ExpectedBill(home, intro).value).Err?)
    ensures var r := EnergyCheck(d, home, intro);
            r.Ok? && r.value.Some? ==>
              ExpectedBill(home, intro).Ok? && ExpectedBill(home, intro).value > 0.0
              && Numeric(ElectricBill(home)).Ok?
              && Numeric(ElectricBill(home)).value > 1.8 * ExpectedBill(home, intro).value
              && r.value.value == LifestyleRecommendation(
                   HomeEnergy, ReduceEnergyUse, Trunc(Value(d, "Electricity")), Trunc(Value(d, "Electricity") * 0.1),
                   Some(Trunc(Numeric(ElectricBill(home)).value * 0.1) * 12))
    ensures var r := EnergyCheck(d, home, intro);
            r.Ok? && r.value.Some? && Value(d, "Electricity") >= 0.0 ==> 0 <= r.value.value.savingsKg <= r.value.value.currentKg
  {
    var bill, kg := ElectricBill(home), Value(d, "Electricity");
    if kg != 0.0 && Truthy(bill) && ExpectedBill(home, intro).Ok? {
      var expected := ExpectedBill(home, intro).value;
      if CostRatio(bill, expected).Ok? {
        CostRatioHigh(bill, expected);
      }
    }
    if kg >= 0.0 {
      TenthBounded(kg);
    }
  }

  function DietType(consumption: Section): Answer {
    Get(consumption, "diet_type", Text("moderate_meat"))
  }

  function ShoppingFrequency(consumption: Section): Answer {
    Get(consumption, "shopping_frequency", Text("moderate"))
  }

  /** `analyze_diet_from_breakdown` once the diet line has been found:
      heavy and moderate meat eaters are asked to eat meat a few times a
      week. */
  function DietDecision(dietKg: real, consumption: Section): (r: Option<LifestyleRecommendation>)
    ensures r.Some? <==> dietKg != 0.0 && DietType(consumption) in {Text("heavy_meat"), Text("moderate_meat")}
    ensures r.Some? ==> r.value.area == Consumption && r.value.action == ReduceMeatConsumption
                        && r.value.currentKg == Trunc(dietKg) && r.value.costSavings == None
  {
    if dietKg == 0.0 then None
    else if DietType(consumption) == Text("heavy_meat") then
      Some(LifestyleRecommendation(Consumption, ReduceMeatConsumption, Trunc(dietKg), 1400, None))
    else if DietType(consumption) == Text("moderate_meat") then
      Some(LifestyleRecommendation(Consumption, ReduceMeatConsumption, Trunc(dietKg), 600, None))
    else None
  }

  function DietCheck(d: Breakdown, consumption: Section): Option<LifestyleRecommendation> {
    DietDecision(FirstValue(d, IsDietSource), consumption)
  }

  /** `analyze_shopping_from_breakdown` once the consumer-goods line has
      been found: very frequent and frequent shoppers are asked to shop
      moderately. */
  function ShoppingDecision(goodsKg: real, consumption: Section): (r: Option<LifestyleRecommendation>)
    ensures r.Some? <==> goodsKg != 0.0 && ShoppingFrequency(consumption) in {Text("very_high"), Text("high")}
    ensures r.Some? ==> r.value.area == Consumption && r.value.action == ReduceShoppingFrequency
                        && r.value.currentKg == Trunc(goodsKg) && r.value.costSavings == None
  {
    if goodsKg == 0.0 then None
    else if ShoppingFrequency(consumption) == Text("very_high") then
      Some(LifestyleRecommendation(Consumption, ReduceShoppingFrequency, Trunc(goodsKg), 2000, None))
    else if ShoppingFrequency(consumption) == Text("high") then
      Some(LifestyleRecommendation(Consumption, ReduceShoppingFrequency, Trunc(goodsKg), 1000, None))
    else None
  }

  function ShoppingCheck(d: Breakdown, consumption: Section): Option<LifestyleRecommendation> {
    ShoppingDecision(FirstValue(d, IsGoodsSource), consumption)
  }

  /** The diet savings are the calculator's own difference between the
      user's diet and the light meat diet the advice moves to. */
  lemma DietSavingsFromTable(dietKg: real, consumption: Section, lightMeat: string)
    requires DietDecision(dietKg, consumption).Some? && lightMeat == "light_meat"
    ensures DietType(consumption).Text?
    ensures DietDecision(dietKg, consumption).value.savingsKg as real
            == DietKg(DietType(consumption).s) - DietKg(lightMeat)
  {
    MeatDietDrop(DietType(consumption).s, lightMeat);
  }

  /** The shopping savings are the calculator's own difference between the
      user's habit and the moderate shopping the advice moves to. */
  lemma ShoppingSavingsFromTable(goodsKg: real, consumption: Section, moderate: string)
    requires ShoppingDecision(goodsKg, consumption).Some? && moderate == "moderate"
    ensures ShoppingFrequency(consumption).Text?
    ensures ShoppingDecision(goodsKg, consumption).value.savingsKg as real
            == ShoppingKg(ShoppingFrequency(consumption).s) - ShoppingKg(moderate)
  {
    FrequentShoppingDrop(ShoppingFrequency(consumption).s, moderate);
  }
}
