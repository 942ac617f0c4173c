/** The heat-pump scenario of the heating check: the home calculator run
    twice, once on the user's answers and once with a heat pump on 60% of
    the heating bill, and what the difference of the two runs comes to. */
module HeatingScenario {
  import opened Outcomes
  import opened Strings
  import opened Survey
  import opened CarbonCalc
  import opened CalculatorFigures

  /** The heating type `analyze_heating_source` gives the heat-pump scenario. */
  const HeatPumpAsWritten := "heat_pump"
  /** The heating type under which the calculator prices a heat pump. */
  const HeatPump := "heat pump"

  /** The answers the heating check passes to the home calculator, with its
      defaults: 1500 square feet, a $100 electricity bill, a $100 heating
      bill, California and two people. */
  datatype HomeAnswers = HomeAnswers(sqft: Answer, electricBill: Answer, heatingBill: Answer,
                                     state: Answer, household: Answer)

  function HomeAnswersOf(home: Section, intro: Section): (a: HomeAnswers)
    ensures a.heatingBill == Get(home, "heating_bill", Num(100.0))
  {
    HomeAnswers(Get(home, "square_footage", Num(1500.0)), Get(home, "monthly_electricity", Num(100.0)),
                Get(home, "heating_bill", Num(100.0)), Get(intro, "state", Text("CA")),
                Get(intro, "household_size", Num(2.0)))
  }

  /** The home calculator run on the answers minus the same run with the
      heating type replaced by `heatPumpType` and the heating bill cut to
      60%. */
  function HeatingScenarioSavings(t: Tables, a: HomeAnswers, heating: string, bill: real, heatPumpType: string): real {
    HomeTotalsGap(t, a.sqft, a.electricBill, a.state, a.household, heating, a.heatingBill, heatPumpType, Num(bill * 0.6))
  }

  /** The calculator prices "heat pump" as electric heating. */
  lemma HeatPumpIsElectric()
    ensures HeatingKindOf(Lower(HeatPump)) == ElectricHeating
  {
    HeatPumpKind(HeatPump);
  }

  /** The calculator does not recognise "heat_pump". */
  lemma HeatPumpAsWrittenUnrecognised()
    ensures HeatingKindOf(Lower(HeatPumpAsWritten)) == OtherHeating
  {
    UnderscoredHeatPumpKind(HeatPumpAsWritten);
  }

  /** When nothing in the calculator raises, the electricity line is the
      same in both runs and cancels: the savings are the current heating
      line minus the heat-pump scenario's heating line. */
  lemma HeatingScenarioSplit(t: Tables, a: HomeAnswers, heating: string, bill: real,
                              heatPumpType: string, h: real, rate: real)
    requires Numeric(a.heatingBill) == Ok(bill)
    requires FloatOf(a.sqft).Some? && FloatOf(a.electricBill).Some?
    requires Numeric(a.household) == Ok(h) && h != 0.0
    requires rate == KwhRate(t, a.state) && rate != 0.0
    ensures HomeTotalsGap(t, a.sqft, a.electricBill, a.state, a.household, heating, a.heatingBill, heatPumpType, Num(bill * 0.6))
            == HeatingEmissions(t, heating, bill, h, rate, a.state) - HeatingEmissions(t, heatPumpType, bill * 0.6, h, rate, a.state)
  {
    FloatOfNumeric(a.heatingBill, bill);
    FloatOfNumeric(Num(bill * 0.6), bill * 0.6);
    HomeEmissionsDifference(t, a.sqft, a.electricBill, a.state, a.household, heating, a.heatingBill, heatPumpType,
                            Num(bill * 0.6), FloatOf(a.electricBill).value, bill, bill * 0.6, h, rate);
  }

  /** As written, the heat-pump scenario's heating type is not one the
      calculator recognises, so that scenario has no heating line at all:
      the reported savings are the whole current heating line, whatever the
      60% bill would have cost. */
  lemma HeatPumpScenarioIgnoresBill(t: Tables, a: HomeAnswers, heating: string, bill: real,
                                    h: real, rate: real)
    requires Numeric(a.heatingBill) == Ok(bill)
    requires FloatOf(a.sqft).Some? && FloatOf(a.electricBill).Some?
    requires Numeric(a.household) == Ok(h) && h != 0.0
    requires rate == KwhRate(t, a.state) && rate != 0.0
    ensures var state := a.state;
            HeatingScenarioSavings(t, a, heating, bill, HeatPumpAsWritten)
            == HeatingEmissions(t, heating, bill, h, rate, state)
  {
    HeatPumpAsWrittenUnrecognised();
    HeatingScenarioSplit(t, a, heating, bill, HeatPumpAsWritten, h, rate);
  }

  /** With the heat pump priced as electric heating, the savings are the
      current heating line minus electric heating on 60% of the bill. */
  lemma HeatingSavings(t: Tables, a: HomeAnswers, heating: string, bill: real, h: real, rate: real)
    requires Numeric(a.heatingBill) == Ok(bill)
    requires FloatOf(a.sqft).Some? && FloatOf(a.electricBill).Some?
    requires Numeric(a.household) == Ok(h) && h != 0.0
    requires rate == KwhRate(t, a.state) && rate != 0.0
    ensures var state := a.state;
            var electricity := StateFactor(t, "electricity", state);
            HeatingScenarioSavings(t, a, heating, bill, HeatPump)
            == HeatingEmissions(t, heating, bill, h, rate, state)
               - Sum(HeatingEntries(t, ElectricHeating, PerPerson(bill * 0.6, h), rate, state, electricity))
  {
    HeatPumpIsElectric();
    HeatingScenarioSplit(t, a, heating, bill, HeatPump, h, rate);
  }
}
