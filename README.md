# CarbonCoach core, modelled in Dafny

CarbonCoach is a chat assistant that walks a user through a household
carbon-footprint survey. Each answer passes through several steps:

1. The assistant's structured reply is validated and its field names are
   normalised.
2. Every collected value is converted to a number, a boolean or a
   standardised category.
3. The answers go to three calculators: home energy, transport and
   consumption. Each turns its answers into kg CO2 a year and a list of
   breakdown lines.
4. Two recommendation engines read the answers and the stored breakdown:
   - the diagnostic engine finds the user's biggest inefficiencies (fossil
     heating, no solar panels, an inefficient car, extreme electricity
     bills), matches each to incentive programs and stores the
     recommendations;
   - the lifestyle engine suggests habit changes (fewer flights, less
     driving, less energy, less meat, less shopping).

The model covers these pieces. It is organised like this:

- **Values**
  - `Survey`: the survey answers. Python's dynamic typing is kept explicit:
    an answer is a number, a text or a boolean, and a raising operation
    gives an error result.
  - `Dicts`: insertion-ordered dictionaries.
  - `Sorting`: the stable sort Python uses.
  - `Numbers`: `round`, `int` and `str`.
  - `Strings`: ASCII case mapping, stripping and substring search.
- **Calculators**
  - `CarbonCalc`: the three calculators and the total footprint. Each
    calculator is written twice: as a function, and as a method that
    follows the source's loops and running totals, proved equal to the
    function.
  - `CalculatorFigures`: facts about their tables.
- **Diagnostic engine**
  - `Baselines`: its baseline figures.
  - `FuelEconomy`: the fuel-economy estimate.
  - `HeatingScenario`: the heat-pump scenario.
  - `Diagnostics`: the four checks and their ranking. The analysis the
    generator uses, `Analysis`, runs the heat-pump scenario as
    `analyze_heating_source` writes it. `AnalysisCorrected` is the same analysis with the heat pump
    priced as electric heating (see "## Findings").
  - `Programs`: program retrieval, scoring and selection.
  - `StoredRows` and `RecommendationStore`: the recommendations table. It is
    a class whose generator deletes and re-adds a session's rows. The class
    keeps the request's view of the table apart from the committed table,
    because only the deletion is committed (see "## Findings").
- **Lifestyle engine**
  - `BreakdownStore`: reading the latest breakdown back from its table.
  - `BreakdownSearch`: the searches over it.
  - `LifestyleChecks`: the five checks.
  - `Lifestyle`: their ranking and selection.
- **Conversation service**
  - `Conversation`: the survey sections, the progress figure and the search
    for the next unanswered field.
  - `FieldNames`: normalising field names and validating the reply
    structure.
  - `AnswerConversion`: converting answers.
  - `StateCodes`: turning a state name into its postal code.
  - `Initials`: the user's initials.

The database is modelled as sequences of rows in the order a query returns
them:

- the reference tables: emission factors, electricity rates and vehicle
  fuel economy;
- the program tables;
- the breakdown table;
- the recommendation table.

## Model

| member | source | states |
|---|---|---|
| Survey.SectionOf | carbon-calculator/backend/diagnostic_recommendations.py:94-97 | a section that was never answered reads as an empty section |
| Survey.Get | carbon-calculator/backend/diagnostic_recommendations.py:142-146 | a present key gives its answer, a missing one the default |
| Survey.Lookup | carbon-calculator/backend/diagnostic_recommendations.py:209 | `get` without a default is `None` exactly when the key is missing |
| Survey.Numeric | carbon-calculator/backend/diagnostic_recommendations.py:349-354 | arithmetic on an answer raises exactly for text; a boolean counts as 0 or 1 |
| Survey.Lowered | carbon-calculator/backend/diagnostic_recommendations.py:130 | `.lower()` succeeds exactly on text |
| Survey.FloatOf | carbon-calculator/backend/carbon_calc.py:17-23 | `float()` keeps a number and reads a boolean as 1 or 0; only text can raise, and text is read as decimal text (`ParseFloat`) |
| Survey.FloatOfDigitsText | carbon-calculator/backend/carbon_calc.py:17-23 | a whole number stored as its digits converts back to that number |
| Survey.Divide | carbon-calculator/backend/carbon_calc.py:45-46 | division raises exactly for a zero divisor; otherwise the quotient times the divisor is the dividend |
| Survey.Show | carbon-calculator/backend/carbon_calc.py:170 | `str()` of a missing answer is `None`, of text the text itself, of a whole number its digits |
| Baselines.StateElectricity | carbon-calculator/backend/diagnostic_recommendations.py:28-39 | every listed state spends between $31 and $82 a month per person |
| Baselines.StateBaseline | carbon-calculator/backend/diagnostic_recommendations.py:345 | a listed state's figure, else the national $58; only a text answer matches a state |
| Baselines.SizeMultiplier | carbon-calculator/backend/diagnostic_recommendations.py:349-351 | the multiplier is square feet per person over the 850 a person typically occupies |
| Baselines.SizedCost | carbon-calculator/backend/diagnostic_recommendations.py:346-352 | the household size cancels: the cost is the per-person baseline for the home's size |
| Baselines.ExpectedCost | carbon-calculator/backend/diagnostic_recommendations.py:336-352 | raises exactly when the household size or the square footage is text; otherwise the baseline times the household, scaled by size only for a positive square footage |
| Baselines.CostRatio | carbon-calculator/backend/diagnostic_recommendations.py:354 | 1 when nothing is expected, else bill over expectation, raising exactly for a text bill |
| Baselines.CostRatioHigh | carbon-calculator/backend/diagnostic_recommendations.py:354-357 | the ratio exceeds 1.8 exactly when the expectation is positive and the bill exceeds 1.8 times it |
| Numbers.Trunc | carbon-calculator/backend/diagnostic_recommendations.py:184 | `int()` of a float truncates toward zero |
| Numbers.TruncMonotone | carbon-calculator/backend/diagnostic_recommendations.py:318 | truncation never reverses an order |
| Numbers.RoundHalfEven | carbon-calculator/backend/llm_service.py:58 | `round()` gives the nearest integer, an exact half going to the even one |
| Numbers.NatToStringRoundTrip | carbon-calculator/backend/llm_service.py:476-479 | reading back the digits `str(n)` prints gives `n` |
| Numbers.ParseFloatOfDigits | carbon-calculator/backend/carbon_calc.py:17-23 | `float()` reads the digits `str()` prints for a natural number back as that number |
| Dicts.Find | carbon-calculator/backend/lifestyle_recommendations.py:117-118 | `get` finds a key exactly when some entry has it, and gives that entry's value |
| Dicts.PutFind | carbon-calculator/backend/lifestyle_recommendations.py:54 | after `d[k] = v`, `k` reads `v` and every other key reads as before |
| Dicts.PutNew | carbon-calculator/backend/lifestyle_recommendations.py:54 | a new key is appended at the end |
| Dicts.PutExisting | carbon-calculator/backend/lifestyle_recommendations.py:54 | an existing key keeps its position and takes the new value |
| Dicts.PutKeysDistinct | carbon-calculator/backend/lifestyle_recommendations.py:54 | assignment keeps keys distinct |
| Dicts.FromItemsFind | carbon-calculator/backend/lifestyle_recommendations.py:51-54 | the dictionary a loop of assignments builds holds each key's last value, with distinct keys |
| Sorting.SortDescCorrect | carbon-calculator/backend/diagnostic_recommendations.py:124 | `sort(key=..., reverse=True)` orders by key, is a permutation, and is stable |
| Sorting.SortDescPreserves | carbon-calculator/backend/lifestyle_recommendations.py:107 | sorting keeps every property all elements have |
| Sorting.SortDescHead | carbon-calculator/backend/diagnostic_recommendations.py:487-490 | the head of the sorted list has the highest key and is the first such element of the input |
| Sorting.SortDescPrefix | carbon-calculator/backend/diagnostic_recommendations.py:567-570 | a prefix of the sorted list ranks at least as high as the rest, and takes nothing from outside the input |
| Sorting.PermutationDistinct | carbon-calculator/backend/diagnostic_recommendations.py:124 | a rearrangement of a list with pairwise distinct tags keeps them distinct |
| Sorting.SortDescDistinct | carbon-calculator/backend/diagnostic_recommendations.py:124 | the stable sort keeps pairwise distinct tags distinct |
| Sorting.SortDescTop | carbon-calculator/backend/diagnostic_recommendations.py:567-570 | a prefix of the sorted list is sorted, and any input element left out ranks no higher than what is kept |
| CarbonCalc.FirstWhere | carbon-calculator/backend/carbon_calc.py:27-29 | `.first()` gives the earliest matching row, or nothing when no row matches |
| CarbonCalc.FactorOf | carbon-calculator/backend/carbon_calc.py:27-29 | the factor of the first row with that category and region, absent exactly when no such row exists |
| CarbonCalc.StateFactor | carbon-calculator/backend/carbon_calc.py:27-35 | the state's factor when the state has one, otherwise the national (`US`) factor |
| CarbonCalc.RateOf | carbon-calculator/backend/carbon_calc.py:39-42 | a rate found belongs to a row of that state; none is found when no row matches |
| CarbonCalc.MpgOf | carbon-calculator/backend/carbon_calc.py:148-152 | a vehicle's fuel economy is found exactly when a row matches the year, make and model |
| CarbonCalc.Kg | carbon-calculator/backend/carbon_calc.py:50 | emissions are never negative for a non-negative amount and factor |
| CarbonCalc.MonthlyToAnnual | carbon-calculator/backend/carbon_calc.py:46-47 | a year of units at a price costs twelve monthly bills |
| CarbonCalc.PerPerson | carbon-calculator/backend/carbon_calc.py:45 | the shares of all household members add up to the bill |
| CarbonCalc.HeatingEntries | carbon-calculator/backend/carbon_calc.py:61-119 | at most one heating line, none for an unrecognised heating type |
| CarbonCalc.ElectricityEntries | carbon-calculator/backend/carbon_calc.py:44-58 | the electricity line exists exactly when the state or the nation has an electricity factor |
| CarbonCalc.HomeBreakdown | carbon-calculator/backend/carbon_calc.py:25-125 | the lines of the home calculator: at most two |
| CarbonCalc.HomeEmissions | carbon-calculator/backend/carbon_calc.py:7-129 | the home calculator gives at most two lines, and `(0.0, [])` on any exception |
| CarbonCalc.HomeEmissionsConverted | carbon-calculator/backend/carbon_calc.py:17-23 | once the three amounts convert to floats, the result is the breakdown, or nothing when it raises |
| CarbonCalc.HomeBreakdownErr | carbon-calculator/backend/carbon_calc.py:44-62 | it raises when the household size is not a number or is zero, or when the kWh rate is zero |
| CarbonCalc.HomeBreakdownOk | carbon-calculator/backend/carbon_calc.py:49-125 | when nothing raises: the electricity line, if any, then the heating line |
| CarbonCalc.HomeEmissionsTotal | carbon-calculator/backend/carbon_calc.py:121-125 | the home total is the electricity line plus the heating line |
| CarbonCalc.HomeEmissionsDifference | carbon-calculator/backend/diagnostic_recommendations.py:148-175 | two runs that differ only in the heating answers differ by their heating lines: the electricity line cancels |
| CarbonCalc.HeatingLine | carbon-calculator/backend/carbon_calc.py:61-121 | the heating branch computes the line for the fuel and adds exactly its value |
| CarbonCalc.HomeLines | carbon-calculator/backend/carbon_calc.py:25-129 | the `try` block raises exactly when the breakdown does; otherwise it builds that breakdown |
| CarbonCalc.CalculateHomeEmissions | carbon-calculator/backend/carbon_calc.py:7-129 | the calculator's result is `HomeEmissions`; its total is the sum of its lines |
| CarbonCalc.LoweredOpt | carbon-calculator/backend/carbon_calc.py:144-145 | `.lower()` of a dictionary value succeeds exactly for text that is present |
| CarbonCalc.VehicleLabel | carbon-calculator/backend/carbon_calc.py:170 | the vehicle line's label starts with `Vehicle (` and contains the year as printed |
| CarbonCalc.Gallons | carbon-calculator/backend/carbon_calc.py:158 | the gallons burnt times the fuel economy give the miles |
| CarbonCalc.VehicleEntries | carbon-calculator/backend/carbon_calc.py:142-174 | at most one vehicle line |
| CarbonCalc.FlightEntries | carbon-calculator/backend/carbon_calc.py:177-204 | at most two flight lines |
| CarbonCalc.TransportEmissions | carbon-calculator/backend/carbon_calc.py:131-212 | the transport calculator gives at most three lines |
| CarbonCalc.VehicleEntriesOk | carbon-calculator/backend/carbon_calc.py:142-174 | for a positive mileage, text make and model, a non-zero fuel economy and a gasoline factor, the vehicle line is miles over MPG (25 when unknown) times the factor; no line otherwise |
| CarbonCalc.VehicleEntriesErr | carbon-calculator/backend/carbon_calc.py:142 | a mileage that is not numeric raises |
| CarbonCalc.TransportEmissionsErr | carbon-calculator/backend/carbon_calc.py:210-212 | any raise in the vehicle or flight parts gives `(0.0, [])` |
| CarbonCalc.TransportEmissionsOk | carbon-calculator/backend/carbon_calc.py:140-208 | otherwise the vehicle line then the flight lines, totalled |
| CarbonCalc.VehicleOnlyTotal | carbon-calculator/backend/carbon_calc.py:155-167 | without flights, the total is the vehicle's fuel at the gasoline factor |
| CarbonCalc.VehicleLine | carbon-calculator/backend/carbon_calc.py:142-174 | the vehicle block raises exactly when the vehicle part does, else adds its lines' sum |
| CarbonCalc.FlightLines | carbon-calculator/backend/carbon_calc.py:177-204 | the flight block raises exactly for a text flight count, else builds the flight lines |
| CarbonCalc.CalculateTransportEmissions | carbon-calculator/backend/carbon_calc.py:131-212 | the calculator's result is `TransportEmissions`; its total is the sum of its lines |
| CarbonCalc.DietKg | carbon-calculator/backend/carbon_calc.py:224-237 | one of the five per-person diet figures; unknown diets count as moderate meat |
| CarbonCalc.ShoppingKg | carbon-calculator/backend/carbon_calc.py:247-259 | one of the four per-person shopping figures; unknown habits count as moderate |
| CarbonCalc.ConsumptionEmissions | carbon-calculator/backend/carbon_calc.py:214-275 | for text answers, a diet line and a consumer-goods line, totalled; `(0.0, [])` otherwise |
| CarbonCalc.CalculateConsumptionEmissions | carbon-calculator/backend/carbon_calc.py:214-275 | the running-total calculator equals `ConsumptionEmissions` |
| CarbonCalc.DietKeyNormalised | carbon-calculator/backend/carbon_calc.py:233-235 | normalising the diet key is idempotent and does not change the figure |
| CarbonCalc.TotalFootprint | carbon-calculator/backend/carbon_calc.py:277-303 | total kg and tons agree; the share of the 16-ton average is consistent; the category shares add to 100 (each between 0 and 100 for non-negative parts), or are all 0 for a non-positive total |
| CalculatorFigures.NormalKey | carbon-calculator/backend/carbon_calc.py:233-255 | a key already in normal form is its own diet and shopping key |
| CalculatorFigures.MeatDietDrop | carbon-calculator/backend/lifestyle_recommendations.py:297-312 | going from heavy to light meat saves 1400 kg in the calculator's figures, from moderate meat 600 kg |
| CalculatorFigures.FrequentShoppingDrop | carbon-calculator/backend/lifestyle_recommendations.py:339-354 | going from very high to moderate shopping saves 2000 kg, from high 1000 kg |
| CalculatorFigures.HeatPumpKind | carbon-calculator/backend/carbon_calc.py:106 | `heat pump` is priced as electric heating |
| CalculatorFigures.UnderscoredHeatPumpKind | carbon-calculator/backend/carbon_calc.py:62-106 | `heat_pump` matches none of the calculator's heating types |
| FuelEconomy.EstimatedMpg | carbon-calculator/backend/diagnostic_recommendations.py:217-234 | the database fuel economy when a row matches; otherwise 20 MPG for a truck or SUV and nothing for anything else |
| HeatingScenario.HomeAnswersOf | carbon-calculator/backend/diagnostic_recommendations.py:142-146 | the calculator receives the heating bill as answered, or $100 |
| HeatingScenario.HeatPumpIsElectric | carbon-calculator/backend/carbon_calc.py:106 | a heat pump named with a space is priced as electric heating |
| HeatingScenario.HeatPumpAsWrittenUnrecognised | carbon-calculator/backend/diagnostic_recommendations.py:168 | the scenario's `heat_pump` is not a heating type the calculator recognises |
| HeatingScenario.HeatingScenarioSplit | carbon-calculator/backend/diagnostic_recommendations.py:148-175 | `HeatingScenarioSavings`: the electricity line cancels, so the savings are the current heating line minus the scenario's heating line |
| HeatingScenario.HeatPumpScenarioIgnoresBill | carbon-calculator/backend/diagnostic_recommendations.py:159-175 | as written, `HeatingScenarioSavings` is the whole current heating line, whatever the 60% bill would cost |
| HeatingScenario.HeatingSavings | carbon-calculator/backend/diagnostic_recommendations.py:159-175 | with the heat pump priced as electric heating, `HeatingScenarioSavings` is the current heating line minus electric heating on 60% of the bill |
| Diagnostics.CategoryName | carbon-calculator/backend/diagnostic_recommendations.py:80 | each category is stored under one of the four category names |
| Diagnostics.HeatingInsight | carbon-calculator/backend/diagnostic_recommendations.py:177-188 | an insight exactly when savings exceed 500 kg, severe above 2000, savings truncated |
| Diagnostics.HeatingCheckWith | carbon-calculator/backend/diagnostic_recommendations.py:128-203 | raises exactly when the heating type is not text; any insight is a heating insight that keeps its promises |
| Diagnostics.HeatingCheckAsWritten | carbon-calculator/backend/diagnostic_recommendations.py:128-203 | the check with the source's `heat_pump` scenario; any insight keeps its promises |
| Diagnostics.HeatingCheck | carbon-calculator/backend/diagnostic_recommendations.py:128-203 | the check with the heat pump priced as electric heating |
| Diagnostics.HeatingCheckLowCarbon | carbon-calculator/backend/diagnostic_recommendations.py:130-139 | a heating type without gas, oil or propane is never reported |
| Diagnostics.HeatingCheckFallback | carbon-calculator/backend/diagnostic_recommendations.py:189-201 | a fossil heating type with a text heating bill gives the 1500 kg medium estimate |
| Diagnostics.HeatingCheckScenario | carbon-calculator/backend/diagnostic_recommendations.py:130-188 | a fossil heating type with a numeric bill is judged on the scenario's savings |
| Diagnostics.HeatingCheckAsWrittenWholeLine | carbon-calculator/backend/diagnostic_recommendations.py:148-188 | as written, a fossil heating type with a numeric bill is judged on its whole current heating line |
| Diagnostics.HeatingCalculatorRaises | carbon-calculator/backend/diagnostic_recommendations.py:148-177 | when the calculator raises on the household answers, both runs give zero and nothing is reported |
| Diagnostics.SolarSavings | carbon-calculator/backend/diagnostic_recommendations.py:313-318 | solar saves 26.25 kg a year per dollar of monthly bill, truncated |
| Diagnostics.SolarCheck | carbon-calculator/backend/diagnostic_recommendations.py:294-332 | any insight is a solar insight that keeps its promises |
| Diagnostics.SolarCheckExactly | carbon-calculator/backend/diagnostic_recommendations.py:300-320 | solar is recommended exactly when there are no panels, the home is not an apartment or condo, and the bill exceeds $80; the 800 kg threshold never filters |
| Diagnostics.VehicleInsight | carbon-calculator/backend/diagnostic_recommendations.py:259-270 | an insight exactly when savings exceed 1000 kg, severe above 4000, savings truncated |
| Diagnostics.VehicleCheck | carbon-calculator/backend/diagnostic_recommendations.py:206-292 | raises exactly when the make or the model is not text; any insight is a transport insight that keeps its promises |
| Diagnostics.VehicleSavings | carbon-calculator/backend/diagnostic_recommendations.py:240-257 | the savings are the user's fuel minus the electric vehicle's, at the gasoline factor |
| Diagnostics.VehicleTextMileage | carbon-calculator/backend/diagnostic_recommendations.py:271-290 | a text mileage makes both runs report zero, so the fallback estimate is never reached |
| Diagnostics.VehicleCheckUnknownMpg | carbon-calculator/backend/diagnostic_recommendations.py:224-234 | a vehicle whose fuel economy cannot be estimated is never compared |
| Diagnostics.EfficiencySavings | carbon-calculator/backend/diagnostic_recommendations.py:359-364 | efficiency saves 12 kg a year per excess dollar a month, truncated |
| Diagnostics.ExtremeCheck | carbon-calculator/backend/diagnostic_recommendations.py:334-377 | any insight is an efficiency insight that keeps its promises |
| Diagnostics.ExtremeCheckExactly | carbon-calculator/backend/diagnostic_recommendations.py:354-375 | the insight appears exactly when the expectation is positive and the bill exceeds 1.8 times it; its savings are then non-negative |
| Diagnostics.Found | carbon-calculator/backend/diagnostic_recommendations.py:104-121 | `if insight: append` adds the insight or nothing |
| Diagnostics.AnalyzeUserInefficiencies | carbon-calculator/backend/diagnostic_recommendations.py:86-126 | the appending and in-place sort compute `Analysis`, the analysis with the source's `heat_pump` scenario |
| Diagnostics.RankedKeeps | carbon-calculator/backend/diagnostic_recommendations.py:123-124 | ranking the findings keeps what every finding satisfies |
| Diagnostics.FoundAllKeep | carbon-calculator/backend/diagnostic_recommendations.py:104-121 | at most four findings, each satisfying what its check promises |
| Diagnostics.AnalysisShape | carbon-calculator/backend/diagnostic_recommendations.py:86-126 | for `Analysis` and `AnalysisCorrected` alike: at most four insights, highest savings first, each keeping its check's promises |
| Diagnostics.AnalysisPermutation | carbon-calculator/backend/diagnostic_recommendations.py:103-124 | the ranked list is a permutation of the four checks' findings: the sort adds, drops and duplicates nothing |
| Diagnostics.OnePerCategory | carbon-calculator/backend/diagnostic_recommendations.py:103-124 | no two insights share a category, so each check contributes at most one insight |
| Diagnostics.FoundDistinct | carbon-calculator/backend/diagnostic_recommendations.py:103-121 | the appended findings, each of its own check's category, have pairwise distinct categories |
| Diagnostics.RankedDistinct | carbon-calculator/backend/diagnostic_recommendations.py:123-124 | sorting the findings by savings keeps their categories distinct |
| Programs.Matching | carbon-calculator/backend/diagnostic_recommendations.py:388-406 | a table's candidates are exactly its programs funding one of the technologies (of the user's state, for state programs) |
| Programs.Retrieve | carbon-calculator/backend/diagnostic_recommendations.py:379-408 | the candidates are exactly the matching federal and state programs, federal ones first |
| Programs.SpecificityKeywords | carbon-calculator/backend/diagnostic_recommendations.py:417-428 | at most five keywords per technology |
| Programs.ProgramText | carbon-calculator/backend/diagnostic_recommendations.py:433 | name, a space and the summary (or nothing), with no upper case |
| Programs.ContainedCount | carbon-calculator/backend/diagnostic_recommendations.py:442-444 | counts keywords found: zero exactly when none occurs |
| Programs.MatchedKeywords | carbon-calculator/backend/diagnostic_recommendations.py:439-444 | never more matches than keywords counted |
| Programs.KeywordBucketExactly | carbon-calculator/backend/diagnostic_recommendations.py:447-452 | 10 points exactly for a quarter or more matched, 5 for fewer but some, 0 for none or no keywords |
| Programs.TypeBonus | carbon-calculator/backend/diagnostic_recommendations.py:460-469 | the type bonus is between 0 and 5, and 0 without a type |
| Programs.Score | carbon-calculator/backend/diagnostic_recommendations.py:430-475 | a score between 0 and 20 |
| Programs.ScoreProgramSpecificity | carbon-calculator/backend/diagnostic_recommendations.py:430-475 | the loops over technologies and keywords compute `Score` |
| Programs.CountContained | carbon-calculator/backend/diagnostic_recommendations.py:442-444 | the keyword loop computes `ContainedCount` |
| Programs.SelectMostSpecific | carbon-calculator/backend/diagnostic_recommendations.py:477-493 | nothing exactly for no programs; otherwise one of the programs |
| Programs.MostSpecificIsFirstBest | carbon-calculator/backend/diagnostic_recommendations.py:486-493 | the pick scores highest and is the first such program retrieved |
| Programs.SliceLength | carbon-calculator/backend/diagnostic_recommendations.py:570 | how many elements Python's `[:count]` keeps, negative counts included |
| Programs.SelectTopPrograms | carbon-calculator/backend/diagnostic_recommendations.py:557-570 | as many programs as the slice keeps, all from the input |
| Programs.TopProgramsBest | carbon-calculator/backend/diagnostic_recommendations.py:566-570 | the kept programs are in score order and none scores below one left out |
| Programs.TopProgramsAll | carbon-calculator/backend/diagnostic_recommendations.py:566-570 | with a count of at least the number of programs, every program is kept, each as often as retrieved |
| Programs.TopStartsWithMostSpecific | carbon-calculator/backend/diagnostic_recommendations.py:561-570 | the first of the top programs is the most specific program |
| RecommendationStore.Priority | carbon-calculator/backend/diagnostic_recommendations.py:621 | `min(savings // 50, 100)`: 100 exactly from 5000 kg, one point per 50 kg below that |
| RecommendationStore.RowFor | carbon-calculator/backend/diagnostic_recommendations.py:617-625 | exactly one program reference is set, the one for the program's table |
| RecommendationStore.RowsFor | carbon-calculator/backend/diagnostic_recommendations.py:609-626 | one row per pick, in order |
| RecommendationStore.AdviceFor | carbon-calculator/backend/diagnostic_recommendations.py:609-614 | one piece of advice per pick, naming its finding |
| RecommendationStore.StateCode | carbon-calculator/backend/diagnostic_recommendations.py:586-589 | a two-character code, California for a missing, falsy or wrong-length answer; raises exactly for a truthy non-text answer |
| RecommendationStore.PicksOf | carbon-calculator/backend/diagnostic_recommendations.py:609 | each program paired with the finding |
| RecommendationStore.TopPicks | carbon-calculator/backend/diagnostic_recommendations.py:603-607 | `min(3, len(programs))` picks for the top finding, the i-th being the i-th program `select_top_programs` returns |
| RecommendationStore.OtherPick | carbon-calculator/backend/diagnostic_recommendations.py:630-634 | a pick exactly when some program is retrieved, and no retrieved program scores higher than the one picked |
| RecommendationStore.OtherPicks | carbon-calculator/backend/diagnostic_recommendations.py:629-652 | at most one pick per further finding, each a retrieved program for it that no retrieved program outscores |
| RecommendationStore.Further | carbon-calculator/backend/diagnostic_recommendations.py:629 | the second and third findings, when present |
| RecommendationStore.Picks | carbon-calculator/backend/diagnostic_recommendations.py:600-652 | at most five picks, each a retrieved program for one of the first three findings |
| RecommendationStore.RecommendationStore.DeleteSession | carbon-calculator/backend/diagnostic_recommendations.py:582 | the session's rows are removed and every other row is kept in order |
| RecommendationStore.RecommendationStore.Add | carbon-calculator/backend/diagnostic_recommendations.py:626 | the row is appended |
| RecommendationStore.RecommendationStore.AddPicks | carbon-calculator/backend/diagnostic_recommendations.py:609-626 | a row per pick is appended and the matching advice returned |
| RecommendationStore.RecommendationStore.Commit | carbon-calculator/backend/diagnostic_recommendations.py:583 | the database takes the session's view of the table, which is unchanged |
| RecommendationStore.RecommendationStore.EndRequest | carbon-calculator/backend/routes.py:405-444 | at the end of a request without a commit, the session's view falls back to the committed table |
| RecommendationStore.RecommendationStore.GenerateDiagnosticRecommendations | carbon-calculator/backend/diagnostic_recommendations.py:572-659 | in the session's view, the session's rows are replaced by the rows planned from `Analysis` (the source's `heat_pump` scenario); only the deletion is committed; the plan's advice is returned |
| RecommendationStore.RecommendationStore.ServeRecommendations | carbon-calculator/backend/routes.py:405-444 | the reply reads back exactly the plan's rows, and after the request the database holds the table with the session's rows deleted and none added |
| RecommendationStore.RecommendationStore.ServeRecommendationsCommitted | carbon-calculator/backend/routes.py:405-444 | with a commit before the request ends, the database holds exactly the replaced table, and its session rows are the rows the reply showed |
| RecommendationStore.ReadBack | carbon-calculator/backend/routes.py:441-443 | reading a session back after the replacement gives exactly the plan's rows |
| RecommendationStore.CommittedDropsPicks | carbon-calculator/backend/diagnostic_recommendations.py:582-652 | with any pick, the committed table holds no row of the session while the table read back holds the picks' rows, so the two differ |
| RecommendationStore.PlanOutcomes | carbon-calculator/backend/diagnostic_recommendations.py:594-659 | `DiagnosticPlan`: encouragement exactly when nothing is found, generic advice when something raised, else at most five rows with one piece of advice each |
| RecommendationStore.PlanTopPrograms | carbon-calculator/backend/diagnostic_recommendations.py:602-607 | in `DiagnosticPlan`, the first `min(3, len(programs))` picks are the top finding paired with the programs `select_top_programs` ranks first; none scores below a retrieved program left out, and with three or fewer retrieved all of them are picked |
| RecommendationStore.TopPicksChosen | carbon-calculator/backend/diagnostic_recommendations.py:602-607 | the top picks are the highest-scoring programs, all of them when three or fewer are retrieved |
| RecommendationStore.PlanFurtherPrograms | carbon-calculator/backend/diagnostic_recommendations.py:629-634 | in `DiagnosticPlan`, every pick after the top finding's is for the second or third finding, with a program no retrieved program outscores |
| RecommendationStore.PlanPicksRelevant | carbon-calculator/backend/diagnostic_recommendations.py:603-634 | every program `DiagnosticPlan` stores funds its finding's technology and is federal or of the user's state |
| RecommendationStore.PlanPriorities | carbon-calculator/backend/diagnostic_recommendations.py:621-647 | every priority `DiagnosticPlan` stores is between 0 and 100 |
| RecommendationStore.RegenerationReplaces | carbon-calculator/backend/diagnostic_recommendations.py:572-652 | after two regenerations from any two sets of answers and program tables, the session's view of the table (and the database, when each request commits as `ServeRecommendationsCommitted` does) holds exactly the second plan's rows and nothing of the first, the table equals a single regeneration with the second inputs, and every other session's rows are unchanged |
| RecommendationStore.PicksReplacedTwice | carbon-calculator/backend/diagnostic_recommendations.py:580-652 | storing the rows of one list of picks and then of another leaves the session exactly the second list's rows and other sessions untouched |
| StoredRows.FilterMembers | carbon-calculator/backend/diagnostic_recommendations.py:582 | deleting a session keeps exactly the other sessions' rows |
| StoredRows.ReplacedKeepsOtherSessions | carbon-calculator/backend/diagnostic_recommendations.py:582-626 | replacing one session's rows leaves every other session's rows unchanged |
| StoredRows.ReplacedTwice | carbon-calculator/backend/diagnostic_recommendations.py:580-626 | replacing a session's rows with one set and then another equals replacing them with the second set alone |
| StoredRows.ReplacedIdempotent | carbon-calculator/backend/diagnostic_recommendations.py:580-583 | replacing with the same rows twice equals replacing once |
| StoredRows.ReplacedSessionRows | carbon-calculator/backend/diagnostic_recommendations.py:580-626 | after a replacement the session's rows are exactly the new rows, in order, with none of its earlier rows left |
| BreakdownStore.LatestRow | carbon-calculator/backend/lifestyle_recommendations.py:37-39 | the session's row with the highest identifier, none exactly when the session has no rows |
| BreakdownStore.CalculationRows | carbon-calculator/backend/lifestyle_recommendations.py:45-48 | exactly the session's rows of that calculation |
| BreakdownStore.GetLatestBreakdownData | carbon-calculator/backend/lifestyle_recommendations.py:30-61 | the two queries and the loop compute `LatestBreakdown` |
| BreakdownStore.LatestBreakdownFind | carbon-calculator/backend/lifestyle_recommendations.py:50-57 | `LatestBreakdown`: each source holds the value of its last row in the latest calculation; sources are distinct; values come from that calculation |
| BreakdownSearch.FirstValueAt | carbon-calculator/backend/lifestyle_recommendations.py:287-291 | the search gives the first matching entry's value, and 0 when none matches |
| BreakdownSearch.FirstSourceValue | carbon-calculator/backend/lifestyle_recommendations.py:180-184 | the loop with `break` computes `FirstValue` |
| BreakdownSearch.VehicleLabelFound | carbon-calculator/backend/lifestyle_recommendations.py:181-183 | the calculator's vehicle line is found by the search for the same year |
| BreakdownSearch.GoodsLineFound | carbon-calculator/backend/lifestyle_recommendations.py:330-334 | a consumer-goods line is found by the shopping search and is not a diet line |
| BreakdownSearch.ConsumptionLinesFound | carbon-calculator/backend/lifestyle_recommendations.py:286-334 | the calculator's consumption lines are found by the diet and shopping searches |
| LifestyleChecks.TenthBounded | carbon-calculator/backend/lifestyle_recommendations.py:221 | a tenth, truncated, lies between nothing and the truncated whole |
| LifestyleChecks.FlightOutcome | carbon-calculator/backend/lifestyle_recommendations.py:111-170 | `FlightCheck`: no flight emissions, nothing; a text count raises; a recommendation exactly when a count exceeds its threshold, international preferred |
| LifestyleChecks.DrivingOutcome | carbon-calculator/backend/lifestyle_recommendations.py:172-187 | `DrivingDecision`, which `DrivingCheck` applies to the vehicle line: a non-text make or model raises; no vehicle emissions or no mileage gives nothing |
| LifestyleChecks.DrivingRecommendation | carbon-calculator/backend/lifestyle_recommendations.py:189-236 | a recommendation of `DrivingDecision` (and so of `DrivingCheck`) needs mileage above 1.25 times average and a fuel economy below 50; it saves a tenth, never more than current |
| LifestyleChecks.EnergyOutcome | carbon-calculator/backend/lifestyle_recommendations.py:238-280 | `EnergyCheck`: a recommendation exactly for a bill above 1.8 times a positive expectation; saves a tenth of the emissions and of the bill |
| LifestyleChecks.DietDecision | carbon-calculator/backend/lifestyle_recommendations.py:293-323 | `DietDecision`, which `DietCheck` applies to the first diet line: a recommendation exactly for diet emissions and a heavy or moderate meat diet |
| LifestyleChecks.ShoppingDecision | carbon-calculator/backend/lifestyle_recommendations.py:336-365 | `ShoppingDecision`, which `ShoppingCheck` applies to the first goods line: a recommendation exactly for goods emissions and very high or high shopping |
| LifestyleChecks.DietSavingsFromTable | carbon-calculator/backend/lifestyle_recommendations.py:297-312 | the diet savings are the calculator's difference between the diet and light meat |
| LifestyleChecks.ShoppingSavingsFromTable | carbon-calculator/backend/lifestyle_recommendations.py:339-354 | the shopping savings are the calculator's difference between the habit and moderate shopping |
| Lifestyle.Listed | carbon-calculator/backend/lifestyle_recommendations.py:83-84 | `if rec: append` adds at most one recommendation |
| Lifestyle.Opportunities | carbon-calculator/backend/lifestyle_recommendations.py:81-104 | at most five opportunities |
| Lifestyle.AnalysisRanked | carbon-calculator/backend/lifestyle_recommendations.py:106-109 | `LifestyleAnalysis`: at most five, sorted by current emissions, a permutation of what the checks found |
| Lifestyle.OpportunitiesByCheck | carbon-calculator/backend/lifestyle_recommendations.py:81-104 | the first check that raises decides; otherwise each check's finding in check order |
| Lifestyle.AnalyzeLifestyleOpportunities | carbon-calculator/backend/lifestyle_recommendations.py:63-109 | loading, checking and sorting compute `LifestyleAnalysis` of the latest breakdown |
| Lifestyle.CollectOpportunities | carbon-calculator/backend/lifestyle_recommendations.py:68-104 | the appending loop computes `Opportunities` |
| Lifestyle.AppendFound | carbon-calculator/backend/lifestyle_recommendations.py:83-84 | the list grows by the finding, if any |
| Lifestyle.Selected | carbon-calculator/backend/lifestyle_recommendations.py:386-392 | the first one (three or more technology recommendations) or first three (otherwise) |
| Lifestyle.SelectedKeepsHighest | carbon-calculator/backend/lifestyle_recommendations.py:386-392 | those shown are in order and none addresses less than one left out |
| Lifestyle.GeneratedAreHighest | carbon-calculator/backend/lifestyle_recommendations.py:367-401 | `GenerateLifestyleRecommendations`: nothing when the analysis raises; otherwise the highest one or three, in order |
| Conversation.RequiredFieldsBySection | carbon-calculator/backend/llm_service.py:20-29 | the required fields are the sections' fields, section by section |
| Conversation.AnsweredCount | carbon-calculator/backend/llm_service.py:55 | counts answered fields: all of them exactly when every field is answered |
| Conversation.AnsweredCountMonotone | carbon-calculator/backend/llm_service.py:55 | more answers never lower the count |
| Conversation.QuestionProgress | carbon-calculator/backend/llm_service.py:46-60 | between 0 and 100; 0 without responses |
| Conversation.ProgressNearExact | carbon-calculator/backend/llm_service.py:55-58 | within half a point of the exact percentage answered |
| Conversation.ProgressComplete | carbon-calculator/backend/llm_service.py:46-60 | 100 exactly when every required field is answered |
| Conversation.ProgressMonotone | carbon-calculator/backend/llm_service.py:46-60 | answering more never lowers the progress |
| Conversation.PercentageMonotone | carbon-calculator/backend/llm_service.py:58-60 | more answers never give a lower percentage |
| Conversation.RoundHalfEvenMonotone | carbon-calculator/backend/llm_service.py:58 | rounding never reverses an order |
| Conversation.FirstMissing | carbon-calculator/backend/llm_service.py:671-674 | nothing exactly when every field is answered; otherwise an unanswered field |
| Conversation.FirstMissingIsFirst | carbon-calculator/backend/llm_service.py:672-674 | every field before the one picked is answered |
| Conversation.IndexOf | carbon-calculator/backend/llm_service.py:679 | `index` finds the position of a present section, raising exactly for an absent one |
| Conversation.NextSection | carbon-calculator/backend/llm_service.py:677-681 | the section after the current one, when there is one |
| Conversation.FirstMissingField | carbon-calculator/backend/llm_service.py:671-674 | the loop computes `FirstMissing` |
| Conversation.NextMissingField | carbon-calculator/backend/llm_service.py:657-690 | the method computes `NextMissing` |
| Conversation.NextMissingUnanswered | carbon-calculator/backend/llm_service.py:667-686 | a field `NextMissing` proposes is unanswered in the current section, or the section is complete and the next section lacks it |
| Conversation.NextMissingNone | carbon-calculator/backend/llm_service.py:657-690 | `NextMissing` gives no field exactly when the current section and the next one are complete |
| Conversation.NextMissingInIntroduction | carbon-calculator/backend/llm_service.py:668 | for `NextMissing`, answers recorded under other sections do not complete the introduction |
| FieldNames.NormalizeFieldName | carbon-calculator/backend/llm_service.py:362-394 | a name the table does not list is kept exactly as given |
| FieldNames.MappedToRequired | carbon-calculator/backend/llm_service.py:367-392 | every variant stands for a required field |
| FieldNames.NormalizeRequired | carbon-calculator/backend/llm_service.py:394 | the survey's own keys pass through unchanged |
| FieldNames.NormalizeIdempotent | carbon-calculator/backend/llm_service.py:362-394 | normalising twice changes nothing more |
| FieldNames.ValidateResponseStructure | carbon-calculator/backend/llm_service.py:320-360 | the method computes `Validated`, whatever the current section |
| FieldNames.ValidatedEntries | carbon-calculator/backend/llm_service.py:333-339 | `Validated`: an entry the reply has, of any JSON type and `null` included, is passed on unchanged; a missing one takes its default |
| FieldNames.ValidatedKeepsEntries | carbon-calculator/backend/llm_service.py:343-358 | in `Validated`, each normalised name holds the value of its last entry; names are distinct; every name comes from an entry |
| FieldNames.ValidatedKeysNormal | carbon-calculator/backend/llm_service.py:346-358 | every key `Validated` keeps is already normalised |
| Initials.SplitFrom | carbon-calculator/backend/llm_service.py:406 | `split()` gives non-empty words, none exactly for blank text, the first starting at the first non-space |
| Initials.InitialsOfWords | carbon-calculator/backend/llm_service.py:408-419 | at most two letters: none without words, the first word's initial, plus the last word's when there are two or more |
| Initials.GenerateInitials | carbon-calculator/backend/llm_service.py:396-419 | the initials of the stripped name's words, commas read as spaces |
| Initials.InitialsEmpty | carbon-calculator/backend/llm_service.py:398-409 | no initials exactly when the name is only whitespace and commas |
| Initials.InitialsFirst | carbon-calculator/backend/llm_service.py:401-419 | the first initial is the upper-cased first character that is not whitespace or a comma |
| StateCodes.StateCode | carbon-calculator/backend/llm_service.py:575-602 | a two-character answer is upper-cased; an unknown name is kept, stripped |
| StateCodes.TableCodes | carbon-calculator/backend/llm_service.py:577-588 | every code in the table is two upper-case letters |
| StateCodes.KnownStateCode | carbon-calculator/backend/llm_service.py:594-598 | a known state name becomes a postal code |
| StateCodes.PostalCodeKept | carbon-calculator/backend/llm_service.py:590-592 | a postal code is kept as it is |
| StateCodes.StateCodeIdempotent | carbon-calculator/backend/llm_service.py:575-602 | converting a converted state again changes nothing |
| AnswerConversion.FirstNumber | carbon-calculator/backend/llm_service.py:475-479 | a number exactly when the text has a digit, never negative; its value is pinned down by `FirstNumberPrefixed` |
| AnswerConversion.Thousands | carbon-calculator/backend/llm_service.py:469-473 | a number followed by `k` is never negative; `ThousandsDigitsK` gives the value found in `15k` |
| AnswerConversion.NumericText | carbon-calculator/backend/llm_service.py:443-485 | a text answer for a numeric field reads as a non-negative number; `$40` reads as 40 (`NumericTextDollars`), `15k` as 15000 (`NumericTextThousands`), and `40 dollars` or `around 40` as 40 (`FirstNumberPrefixed` with `NumericTextFallsThrough`) |
| AnswerConversion.NumericTextOfDigits | carbon-calculator/backend/llm_service.py:475-479 | a number written in digits reads back as itself, in every numeric field |
| AnswerConversion.NumericTextFallsThrough | carbon-calculator/backend/llm_service.py:465-479 | without a zero phrase or a `k`, the first number decides, and 0 when there is none |
| AnswerConversion.FirstNumberPrefixed | carbon-calculator/backend/llm_service.py:467-479 | a whole number in digits, after text without digits and before the end or a character that is neither a digit nor a point, is the first number read: `$40`, `around 40`, `40 dollars` |
| AnswerConversion.FirstNumberBetween | carbon-calculator/backend/llm_service.py:476-479 | a run of digits so placed reads as the digits' value |
| AnswerConversion.ThousandsDigitsK | carbon-calculator/backend/llm_service.py:470-473 | the `k` pattern finds the number written before the `k` |
| AnswerConversion.NumericTextCountsThousands | carbon-calculator/backend/llm_service.py:465-473 | without a zero phrase, a `k` outside `kwh` after a number makes that number count thousands |
| AnswerConversion.NumericTextThousands | carbon-calculator/backend/llm_service.py:467-473 | a whole number followed by `k` (`15k`) reads as that many thousands, in every numeric field |
| AnswerConversion.NumericTextDigitsK | carbon-calculator/backend/llm_service.py:467-473 | a run of digits followed by `k` reads as the digits' value in thousands |
| AnswerConversion.NumericTextDollars | carbon-calculator/backend/llm_service.py:467-479 | `$40` reads as 40, in every numeric field |
| AnswerConversion.NumericTextDollarDigits | carbon-calculator/backend/llm_service.py:467-479 | a dollar sign and a run of digits read as the digits' value |
| AnswerConversion.BooleanByTrueIndicators | carbon-calculator/backend/llm_service.py:491-502 | the answer is true exactly when a true indicator occurs |
| AnswerConversion.NegatedHaveReadsTrue | carbon-calculator/backend/llm_service.py:493-497 | as written, `don't have` reads as true |
| AnswerConversion.BooleanTextCorrected | carbon-calculator/backend/llm_service.py:491-502 | with negations checked first, they read as false; otherwise as written |
| AnswerConversion.DietType | carbon-calculator/backend/llm_service.py:509-525 | the classification is always one of the five diet categories |
| AnswerConversion.DietTypeCorrected | carbon-calculator/backend/llm_service.py:509-525 | a category name is kept; anything else is classified as written |
| AnswerConversion.DietOther | carbon-calculator/backend/llm_service.py:524-525 | an answer with no diet keyword is moderate meat |
| AnswerConversion.HeatingType | carbon-calculator/backend/llm_service.py:527-543 | a heating category, or the cleaned answer kept |
| AnswerConversion.HeatingNameKept | carbon-calculator/backend/llm_service.py:527-543 | each heating category is classified as itself |
| AnswerConversion.HeatingTypeIdempotent | carbon-calculator/backend/llm_service.py:527-543 | classifying a heating answer twice changes nothing more |
| AnswerConversion.ShoppingFrequency | carbon-calculator/backend/llm_service.py:545-558 | the classification is always one of the four shopping categories |
| AnswerConversion.ShoppingFrequencyCorrected | carbon-calculator/backend/llm_service.py:545-558 | a category name is kept; anything else is classified as written |
| AnswerConversion.HousingType | carbon-calculator/backend/llm_service.py:560-573 | a housing category, or the cleaned answer kept |
| AnswerConversion.HousingNameKept | carbon-calculator/backend/llm_service.py:560-573 | each housing category is classified as itself |
| AnswerConversion.HousingTypeIdempotent | carbon-calculator/backend/llm_service.py:560-573 | classifying a housing answer twice changes nothing more |
| AnswerConversion.TextAnswerIdempotent | carbon-calculator/backend/llm_service.py:505-605 | with category names recognised, a converted text answer converts to itself |
| AnswerConversion.ConvertWith | carbon-calculator/backend/llm_service.py:422-608 | the type is number exactly for a numeric field given a number, boolean or string; boolean exactly for the solar field given a boolean or string; a non-string kept as text passes through unchanged |
| AnswerConversion.ConvertAsWritten | carbon-calculator/backend/llm_service.py:422-608 | the conversion as written has the same response types |
| AnswerConversion.Convert | carbon-calculator/backend/llm_service.py:422-608 | the corrected conversion has the same response types |
| AnswerConversion.ConvertIdempotent | carbon-calculator/backend/llm_service.py:422-608 | converting a converted answer again keeps its value and its type |
| AnswerConversion.DietAsWritten | carbon-calculator/backend/llm_service.py:509-525 | as written, a diet answer is classified by keyword alone |
| AnswerConversion.ShoppingAsWritten | carbon-calculator/backend/llm_service.py:545-558 | as written, a shopping answer is classified by keyword alone |
| AnswerConversion.HeavyMeatRewritten | carbon-calculator/backend/llm_service.py:513-525 | as written, the category `heavy_meat` is stored as `moderate_meat` |
| AnswerConversion.LightMeatModerate | carbon-calculator/backend/llm_service.py:514-525 | as written, the category `light_meat` is classified as `moderate_meat` |
| AnswerConversion.VeryHighRewritten | carbon-calculator/backend/llm_service.py:548-552 | as written, the category `very_high` is stored as `high` |

## Left out

- The conversation loop itself is not modelled: building the prompt, the
  language-model call and client set-up, and parsing its reply text
  (`process_message`, `get_system_prompt`, `_get_client` in
  `llm_service.py`). They are I/O with an external service; the model
  starts from the parsed reply.
- `get_session_data` in `llm_service.py` is not modelled. It only reads
  rows back from the database and reformats them.
- Web routes, the ORM models, the data-loading scripts and the application
  set-up are not part of this model.
- Logging is not modelled. It has no effect on results.
- Database queries are modelled as sequences of rows in the order the query
  returns them:
  - row identifiers and join semantics beyond that order are not modelled;
  - `ilike` is read as an ASCII case-insensitive substring test.
- Floating point is modelled as exact real arithmetic. Rounding errors,
  overflow and the int/float distinction in results are not modelled.
  Where the source calls `int()` or `round()`, the model applies
  truncation or round-half-to-even explicitly.
- Strings are ASCII in the model. Unicode case mapping, Unicode whitespace
  and Unicode digits are not modelled.
- Description and recommendation texts are not modelled. Insights and
  recommendations carry the numbers those texts interpolate; the prose
  itself is left out.
- The required-field list in `llm_service.py` has a comment saying 19
  fields; the list holds 18, and the model follows the list.
- Initials.GenerateInitials: takes a string. The source's guard for a
  non-string name is not modelled.
- Survey.FloatOf: reads decimal text only. Python's `float()` also
  accepts an exponent (`1e3`), underscores between digits (`1_500`),
  `inf`, `infinity` and `nan`, and Unicode digits. The model reads these as
  raising, so a calculator given one returns nothing where the source
  goes on.
- FieldNames.Validated: the collected data is taken to be a
  dictionary. A reply whose `data_collected` is `null` or not an object
  would raise in the source, and that case is not modelled.
- Diagnostics.VehicleCheck: the fallback estimate in the
  `except` branch is not modelled as reachable. Every exception in the
  comparison is caught inside the calculator, so the branch never runs
  (`Diagnostics.VehicleTextMileage` shows the case that comes closest).
- Programs.Retrieve: the `limit` argument of
  `get_programs_for_technologies` is unused by the source and not modelled.
- RecommendationStore.RecommendationStore.GenerateDiagnosticRecommendations:
  `rows` is the table as the request's database session sees it, and
  `committed` is the table in the database. The generator commits only the
  deletion. Its added rows stay uncommitted, and its only caller,
  `get_recommendations` (routes.py:405-444), never commits them. The store's
  delete, add and commit always succeed. A database error inside
  `generate_diagnostic_recommendations` is not modelled. The generic advice
  stands only for the raises the model has: a state answer with no length,
  and a raise inside the analysis.
- RecommendationStore.RecommendationStore.ServeRecommendations: the reply's
  rows are the session's rows in insertion order. The route's ordering by
  priority, its program lookups and its JSON layout are not modelled. The
  end of the request is taken to discard uncommitted changes, which is how
  the application's default database session behaves.
- AnswerConversion.LightMeatModerate: states the as-written behaviour for
  `light_meat` at classifier level. Together with
  `AnswerConversion.DietAsWritten`, this gives the stored value.

## Findings

| source | as written | input that shows it | evidently intended | confidence | as-written member | corrected member |
|---|---|---|---|---|---|---|
| carbon-calculator/backend/llm_service.py:509-558 | diet and shopping answers are classified only by keyword phrases spelled with spaces | `diet_type` = `heavy_meat` (the category name the assistant is told to send, llm_service.py:123) is stored as `moderate_meat`; `shopping_frequency` = `very_high` is stored as `high` | a category name sent as it is listed is kept | high (not executed) | AnswerConversion.HeavyMeatRewritten | AnswerConversion.ConvertIdempotent |
| carbon-calculator/backend/llm_service.py:493-497 | the true indicators are tested before the false ones, and `have` is a true indicator | `solar_panels` = `I don't have any` reads as `True` | a negated answer reads as `False` | high (not executed) | AnswerConversion.NegatedHaveReadsTrue | AnswerConversion.BooleanTextCorrected |
| carbon-calculator/backend/diagnostic_recommendations.py:582-652 | the deletion of the session's earlier recommendations is committed at :583; the new rows are only added (:626, :652), and neither the generator nor `get_recommendations` (routes.py:405-444) commits them | any session whose answers find an insight with a matching program: the reply lists the new recommendations, but once the request ends the database holds none for the session | the new rows are committed with the deletion, so the database holds what the reply showed | medium (not executed; depends on the session being discarded at the end of the request) | RecommendationStore.CommittedDropsPicks | RecommendationStore.RecommendationStore.ServeRecommendationsCommitted |
| carbon-calculator/backend/diagnostic_recommendations.py:165-172 | the heat-pump scenario passes heating type `heat_pump`, which the calculator (carbon_calc.py:62-106) does not recognise | a gas heater with any bill: the scenario has no heating line, so the savings equal the whole current heating emissions rather than current minus 60% electric | the heat pump is priced as electric heating on 60% of the bill | high (not executed) | HeatingScenario.HeatPumpScenarioIgnoresBill | HeatingScenario.HeatingSavings |
