/** The lifestyle recommendation engine: it reads the breakdown of the
    session's latest calculation and the survey answers, suggests up to
    five behaviour changes (fewer flights, less driving, less electricity,
    less meat, less shopping), ranks them by the emissions they address and
    keeps the top one or three. */
module Lifestyle {
  import opened Outcomes
  import opened Numbers
  import opened Survey
  import opened Sorting
  import opened CarbonCalc
  import opened BreakdownStore
  import opened BreakdownSearch
  import opened LifestyleChecks

  function Listed(r: Option<LifestyleRecommendation>): (s: seq<LifestyleRecommendation>)
    ensures |s| <= 1
  {
    if r.Some? then [r.value] else []
  }

  /** The five checks in the order `analyze_lifestyle_opportunities` runs
      them; the first that
      raises ends the analysis. */
  function Opportunities(t: Tables, d: Breakdown, responses: Responses): (r: Result<seq<LifestyleRecommendation>>)
    ensures r.Ok? ==> |r.value| <= 5
  {
    var intro, home := SectionOf(responses, "introduction"), SectionOf(responses, "home_energy");
    var transport, consumption := SectionOf(responses, "transportation"), SectionOf(responses, "consumption");
    match FlightCheck(d, transport)
    case Err(e) => Err(e)
    case Ok(flight) =>
      match DrivingCheck(t, d, transport)
      case Err(e) => Err(e)
      case Ok(driving) =>
        match EnergyCheck(d, home, intro)
        case Err(e) => Err(e)
        case Ok(energy) =>
          Ok(Listed(flight) + Listed(driving) + Listed(energy)
             + Listed(DietCheck(d, consumption)) + Listed(ShoppingCheck(d, consumption)))
  }

  /** `analyze_lifestyle_opportunities` on a breakdown: nothing for an empty
      breakdown, otherwise the opportunities sorted by current emissions,
      highest first, ties in check order. */
  function LifestyleAnalysis(t: Tables, d: Breakdown, responses: Responses): Result<seq<LifestyleRecommendation>> {
    if d == [] then Ok([])
    else
      match Opportunities(t, d, responses)
      case Err(e) => Err(e)
      case Ok(found) => Ok(SortDesc(found, Current))
  }

  /** The analysis ranks the opportunities, keeping each of them once: at
      most five, sorted by current emissions, a permutation of what the
      checks found. */
  lemma AnalysisRanked(t: Tables, d: Breakdown, responses: Responses)
    requires LifestyleAnalysis(t, d, responses).Ok?
    ensures var r := LifestyleAnalysis(t, d, responses).value;
            |r| <= 5 && SortedDesc(r, Current)
            && (d != [] ==> multiset(r) == multiset(Opportunities(t, d, responses).value))
  {
    if d != [] {
      SortDescCorrect(Opportunities(t, d, responses).value, Current);
    }
  }

  /** How the opportunities follow from the individual checks: the first
      check that raises decides the outcome, and otherwise what each check
      found is listed in check order. */
  lemma OpportunitiesByCheck(t: Tables, d: Breakdown, responses: Responses)
    ensures var home, intro := SectionOf(responses, "home_energy"), SectionOf(responses, "introduction");
            var transport, consumption := SectionOf(responses, "transportation"), SectionOf(responses, "consumption");
            var flight, driving, energy := FlightCheck(d, transport), DrivingCheck(t, d, transport), EnergyCheck(d, home, intro);
            var r := Opportunities(t, d, responses);
            (flight.Err? ==> r == Err(flight.error))
            && (flight.Ok? && driving.Err? ==> r == Err(driving.error))
            && (flight.Ok? && driving.Ok? && energy.Err? ==> r == Err(energy.error))
            && (flight.Ok? && driving.Ok? && energy.Ok? ==>
                  r == Ok(Listed(flight.value) + Listed(driving.value) + Listed(energy.value)
                          + Listed(DietCheck(d, consumption)) + Listed(ShoppingCheck(d, consumption))))
  {
  }

  /** `analyze_lifestyle_opportunities`: the latest breakdown is loaded and
      the checks append what they find to a list that is sorted at the end. */
  method AnalyzeLifestyleOpportunities(t: Tables, rows: seq<BreakdownRow>, sessionId: string, responses: Responses)
    returns (r: Result<seq<LifestyleRecommendation>>)
    ensures r == LifestyleAnalysis(t, LatestBreakdown(rows, sessionId), responses)
  {
    var data := GetLatestBreakdownData(rows, sessionId);
    if data == [] {
      return Ok([]);
    }
    var found := CollectOpportunities(t, data, responses);
    if found.Err? {
      return Err(found.error);
    }
    r := Ok(SortDesc(found.value, Current));
  }

  /** The body of `analyze_lifestyle_opportunities` between loading the
      breakdown and sorting: each check in turn, appending what it finds;
      an exception from a check ends the analysis. */
  method CollectOpportunities(t: Tables, data: Breakdown, responses: Responses)
    returns (r: Result<seq<LifestyleRecommendation>>)
    ensures r == Opportunities(t, data, responses)
  {
    OpportunitiesByCheck(t, data, responses);
    var intro, home := SectionOf(responses, "introduction"), SectionOf(responses, "home_energy");
    var transport, consumption := SectionOf(responses, "transportation"), SectionOf(responses, "consumption");
    var recommendations: seq<LifestyleRecommendation> := [];

    var flight := FlightCheck(data, transport);
    if flight.Err? {
      return Err(flight.error);
    }
    recommendations := AppendFound(recommendations, flight.value);
    assert recommendations == Listed(flight.value);

    var vehicleKg := FirstSourceValue(data, VehicleSource(Lookup(transport, "vehicle_year")));
    var driving := DrivingDecision(t, vehicleKg, transport);
    assert driving == DrivingCheck(t, data, transport);
    if driving.Err? {
      return Err(driving.error);
    }
    recommendations := AppendFound(recommendations, driving.value);

    var energy := EnergyCheck(data, home, intro);
    if energy.Err? {
      return Err(energy.error);
    }
    recommendations := AppendFound(recommendations, energy.value);

    var dietKg := FirstSourceValue(data, IsDietSource);
    assert DietDecision(dietKg, consumption) == DietCheck(data, consumption);
    recommendations := AppendFound(recommendations, DietDecision(dietKg, consumption));

    var goodsKg := FirstSourceValue(data, IsGoodsSource);
    assert ShoppingDecision(goodsKg, consumption) == ShoppingCheck(data, consumption);
    recommendations := AppendFound(recommendations, ShoppingDecision(goodsKg, consumption));
    r := Ok(recommendations);
  }

  /** `if rec: recommendations.append(rec)` */
  method AppendFound(recommendations: seq<LifestyleRecommendation>, found: Option<LifestyleRecommendation>)
    returns (r: seq<LifestyleRecommendation>)
    ensures r == recommendations + Listed(found)
  {
    r := recommendations;
    if found.Some? {
      r := r + [found.value];
    }
  }

  /** `generate_lifestyle_recommendations`: the top opportunity when three
      or more technology recommendations exist already, the top three
      otherwise; nothing when the analysis raises. */
  function GenerateLifestyleRecommendations(t: Tables, rows: seq<BreakdownRow>, sessionId: string,
                                            responses: Responses, existingTechRecCount: int): seq<LifestyleRecommendation> {
    match LifestyleAnalysis(t, LatestBreakdown(rows, sessionId), responses)
    case Err(_) => []
    case Ok(all) => Selected(all, existingTechRecCount)
  }

  /** How many of the ranked opportunities are shown: one when three or
      more technology recommendations exist, three otherwise, fewer when
      there are fewer; always the first ones. */
  function Selected(all: seq<LifestyleRecommendation>, existingTechRecCount: int): (r: seq<LifestyleRecommendation>)
    ensures |r| == (if existingTechRecCount >= 3 then Min(1, |all|) else Min(3, |all|))
    ensures r == all[..|r|]
  {
    if all == [] then []
    else if existingTechRecCount >= 3 then all[..Min(1, |all|)]
    else all[..Min(3, |all|)]
  }

  /** Of a ranked list, the ones shown are in order and none addresses less
      than any left out. */
  lemma SelectedKeepsHighest(all: seq<LifestyleRecommendation>, existingTechRecCount: int)
    requires SortedDesc(all, Current)
    ensures var r := Selected(all, existingTechRecCount);
            SortedDesc(r, Current)
            && forall i, j :: 0 <= i < |r| <= j < |all| ==> all[i].currentKg >= all[j].currentKg
  {
  }

  /** What is shown: nothing when the analysis raises; otherwise at most
      one or three of the ranked opportunities, the highest ones, in order. */
  lemma GeneratedAreHighest(t: Tables, rows: seq<BreakdownRow>, sessionId: string, responses: Responses, existingTechRecCount: int)
    ensures var r := GenerateLifestyleRecommendations(t, rows, sessionId, responses, existingTechRecCount);
            var analysis := LifestyleAnalysis(t, LatestBreakdown(rows, sessionId), responses);
            |r| <= (if existingTechRecCount >= 3 then 1 else 3)
            && (analysis.Err? ==> r == [])
            && (analysis.Ok? ==>
                  r == analysis.value[..|r|]
                  && |r| == (if existingTechRecCount >= 3 then Min(1, |analysis.value|) else Min(3, |analysis.value|))
                  && SortedDesc(r, Current)
                  && forall i, j :: 0 <= i < |r| <= j < |analysis.value| ==> analysis.value[i].currentKg >= analysis.value[j].currentKg)
  {
    var analysis := LifestyleAnalysis(t, LatestBreakdown(rows, sessionId), responses);
    if analysis.Ok? {
      AnalysisRanked(t, LatestBreakdown(rows, sessionId), responses);
      SelectedKeepsHighest(analysis.value, existingTechRecCount);
    }
  }
}
