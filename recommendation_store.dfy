/** `generate_diagnostic_recommendations`: the stored recommendations of a
    session are replaced by one row per program recommended for the
    session's findings, up to three programs for the finding that saves
    the most and one each for the next two. */
module RecommendationStore {
  import opened Outcomes
  import opened Numbers
  import opened Survey
  import opened CarbonCalc
  import opened HeatingScenario
  import opened Diagnostics
  import opened Programs
  import opened StoredRows

  /** What the generator returns to its caller: the encouragement when
      nothing was found, the generic advice when something raised, or one
      entry per recommended program naming the finding it serves. */
  datatype Advice = Encouragement | Fallback | ProgramAdvice(insight: Insight)

  /** A finding and a program recommended for it. */
  datatype Pick = Pick(insight: Insight, candidate: Candidate)

  /** What the generator decides: its answer, and the picks it stores. */
  datatype Plan = Plan(advice: seq<Advice>, picks: seq<Pick>)

  /** `min(savings // 50, 100)`; for a positive divisor Python's floor
      division and Dafny's division agree. */
  function Priority(savings: int): (p: int)
    ensures p <= 100
    ensures p == 100 <==> savings >= 5000
    ensures savings < 5000 ==> p * 50 <= savings < p * 50 + 50
    ensures savings >= 0 ==> p >= 0
  {
    Min(savings / 50, 100)
  }

  /** The stored row for a pick: exactly one of the two program references
      is set, the one for the table the program came from. */
  function RowFor(sessionId: string, pick: Pick): (r: Recommendation)
    ensures r.sessionId == sessionId && r.savings == pick.insight.savings
    ensures r.priority == Priority(pick.insight.savings)
    ensures r.federalProgramId.Some? != r.stateProgramId.Some?
    ensures r.federalProgramId.Some? <==> pick.candidate.federal
    ensures r.federalProgramId.Some? ==> r.federalProgramId.value == pick.candidate.program.id
    ensures r.stateProgramId.Some? ==> r.stateProgramId.value == pick.candidate.program.id
  {
    var c := pick.candidate;
    Recommendation(sessionId, CategoryName(pick.insight.category), Priority(pick.insight.savings), pick.insight.savings,
                   if c.federal then Some(c.program.id) else None,
                   if c.federal then None else Some(c.program.id))
  }

  function RowsFor(sessionId: string, picks: seq<Pick>): (rows: seq<Recommendation>)
    ensures |rows| == |picks|
    ensures forall i :: 0 <= i < |picks| ==> rows[i] == RowFor(sessionId, picks[i])
  {
    if picks == [] then [] else RowsFor(sessionId, picks[..|picks| - 1]) + [RowFor(sessionId, picks[|picks| - 1])]
  }

  function AdviceFor(picks: seq<Pick>): (advice: seq<Advice>)
    ensures |advice| == |picks|
    ensures forall i :: 0 <= i < |picks| ==> advice[i] == ProgramAdvice(picks[i].insight)
  {
    if picks == [] then [] else AdviceFor(picks[..|picks| - 1]) + [ProgramAdvice(picks[|picks| - 1].insight)]
  }

  // -------------------------------------------------------------- plan

  /** The state code the generator looks programs up with: a missing or
      falsy answer and text that is not two characters long stand for
      California; a truthy number or boolean has no length and raises. */
  function StateCode(intro: Section): (r: Result<string>)
    ensures r.Ok? ==> |r.value| == 2
    ensures r.Err? <==> Truthy(Get(intro, "state", Text("CA"))) && !Get(intro, "state", Text("CA")).Text?
    ensures Get(intro, "state", Text("CA")).Text? && |Get(intro, "state", Text("CA")).s| == 2
            ==> r == Ok(Get(intro, "state", Text("CA")).s)
  {
    var state := Get(intro, "state", Text("CA"));
    if !Truthy(state) then Ok("CA")
    else
      match state
      case Text(s) => if |s| != 2 then Ok("CA") else Ok(s)
      case _ => Err(TypeMismatch)
  }

  function PicksOf(insight: Insight, candidates: seq<Candidate>): (picks: seq<Pick>)
    ensures |picks| == |candidates|
    ensures forall i :: 0 <= i < |picks| ==> picks[i] == Pick(insight, candidates[i])
  {
    if candidates == [] then []
    else PicksOf(insight, candidates[..|candidates| - 1]) + [Pick(insight, candidates[|candidates| - 1])]
  }

  /** The programs for the finding that saves the most: the best three, or
      all of them when fewer are retrieved. */
  function TopPicks(federalTable: seq<Program>, stateTable: seq<Program>, code: string, top: Insight): (picks: seq<Pick>)
    ensures var programs := Retrieve(federalTable, stateTable, code, top.technologies);
            |picks| == Min(3, |programs|)
            && forall i :: 0 <= i < |picks| ==> picks[i].insight == top && picks[i].candidate in programs
    ensures var programs := Retrieve(federalTable, stateTable, code, top.technologies);
            forall i :: 0 <= i < |picks| ==> picks[i].candidate == SelectTopPrograms(programs, top.technologies, Min(3, |programs|))[i]
  {
    var programs := Retrieve(federalTable, stateTable, code, top.technologies);
    if programs == [] then []
    else PicksOf(top, SelectTopPrograms(programs, top.technologies, Min(3, |programs|)))
  }

  /** The one program for a further finding: the most specific one, if any
      program is retrieved. */
  function OtherPick(federalTable: seq<Program>, stateTable: seq<Program>, code: string, insight: Insight): (pick: Option<Pick>)
    ensures var programs := Retrieve(federalTable, stateTable, code, insight.technologies);
            (pick.None? <==> programs == [])
            && (pick.Some? ==> pick.value.insight == insight && pick.value.candidate in programs)
    ensures var programs := Retrieve(federalTable, stateTable, code, insight.technologies);
            pick.Some? ==> forall c :: c in programs ==>
                             Score(c.program, insight.technologies) <= Score(pick.value.candidate.program, insight.technologies)
  {
    var programs := Retrieve(federalTable, stateTable, code, insight.technologies);
    if programs != [] then
      MostSpecificIsFirstBest(programs, insight.technologies);
      Some(Pick(insight, SelectMostSpecific(programs, insight.technologies).value))
    else None
  }

  function OtherPicks(federalTable: seq<Program>, stateTable: seq<Program>, code: string, rest: seq<Insight>): (picks: seq<Pick>)
    ensures |picks| <= |rest|
    ensures forall p :: p in picks ==> p.insight in rest && p.candidate in Retrieve(federalTable, stateTable, code, p.insight.technologies)
    ensures forall p :: p in picks ==>
              forall c :: c in Retrieve(federalTable, stateTable, code, p.insight.technologies) ==>
                Score(c.program, p.insight.technologies) <= Score(p.candidate.program, p.insight.technologies)
  {
    if rest == [] then []
    else
      var init := rest[..|rest| - 1];
      assert forall x :: x in init ==> x in rest;
      OtherPicks(federalTable, stateTable, code, init)
      + match OtherPick(federalTable, stateTable, code, rest[|rest| - 1])
        case None => []
        case Some(p) => [p]
  }

  /** The further findings: the second and third, when there are any. */
  function Further(insights: seq<Insight>): (rest: seq<Insight>)
    ensures |rest| <= 2 && forall i :: 0 <= i < |rest| ==> i + 1 < |insights| && rest[i] == insights[i + 1]
  {
    if |insights| <= 1 then [] else insights[1..Min(3, |insights|)]
  }

  /** The picks for a non-empty list of findings: the top picks of the
      first, then one for each of the next two that has a program. */
  function Picks(federalTable: seq<Program>, stateTable: seq<Program>, code: string, insights: seq<Insight>): (picks: seq<Pick>)
    requires insights != []
    ensures |picks| <= 5
    ensures forall p :: p in picks ==>
              p.insight in insights && p.candidate in Retrieve(federalTable, stateTable, code, p.insight.technologies)
  {
    var top := TopPicks(federalTable, stateTable, code, insights[0]);
    var rest := Further(insights);
    var others := OtherPicks(federalTable, stateTable, code, rest);
    assert forall x :: x in rest ==> x in insights;
    assert forall p :: p in top + others <==> p in top || p in others;
    top + others
  }

  /** The whole decision, raises included. */
  function DiagnosticPlan(t: Tables, responses: Responses, federalTable: seq<Program>, stateTable: seq<Program>): (plan: Plan)
  {
    match StateCode(SectionOf(responses, "introduction"))
    case Err(_) => Plan([Fallback], [])
    case Ok(code) =>
      match Analysis(t, responses)
      case Err(_) => Plan([Fallback], [])
      case Ok(insights) =>
        if insights == [] then Plan([Encouragement], [])
        else
          var picks := Picks(federalTable, stateTable, code, insights);
          Plan(AdviceFor(picks), picks)
  }

  // ------------------------------------------------------------- store

  /** The recommendations table, as seen through one request's database
      session: `rows` is what the session reads back, uncommitted changes
      included, and `committed` is what the database holds for the next
      request. */
  class RecommendationStore {
    var rows: seq<Recommendation>
    var committed: seq<Recommendation>

    constructor()
      ensures rows == [] && committed == []
    {
      rows := [];
      committed := [];
    }

    /** `db.session.commit()` */
    method Commit()
      modifies this
      ensures committed == old(rows) && rows == old(rows)
    {
      committed := rows;
    }

    /** The end of a request: the session is discarded, and with it every
        change not committed. */
    method EndRequest()
      modifies this
      ensures rows == old(committed) && committed == old(committed)
    {
      rows := committed;
    }

    /** Deletes every row of the session. */
    method DeleteSession(sessionId: string)
      modifies this
      ensures rows == Others(old(rows), sessionId) && committed == old(committed)
    {
      rows := Others(rows, sessionId);
    }

    /** `db.session.add(rec)` */
    method Add(row: Recommendation)
      modifies this
      ensures rows == old(rows) + [row] && committed == old(committed)
    {
      rows := rows + [row];
    }

    /** Stores a row per pick and returns the matching advice. */
    method AddPicks(sessionId: string, picks: seq<Pick>) returns (advice: seq<Advice>)
      modifies this
      ensures rows == old(rows) + RowsFor(sessionId, picks) && committed == old(committed)
      ensures advice == AdviceFor(picks)
    {
      advice := [];
      for i := 0 to |picks|
        invariant rows == old(rows) + RowsFor(sessionId, picks[..i])
        invariant advice == AdviceFor(picks[..i])
        invariant committed == old(committed)
      {
        assert picks[..i + 1][..i] == picks[..i];
        Add(RowFor(sessionId, picks[i]));
        advice := advice + [ProgramAdvice(picks[i].insight)];
      }
      assert picks[..|picks|] == picks;
    }

    /** `generate_diagnostic_recommendations`: the session's rows are
        deleted and the deletion committed first, whatever happens next;
        then the rows of the plan are added, uncommitted, and its advice
        returned. */
    method GenerateDiagnosticRecommendations(t: Tables, responses: Responses, sessionId: string,
                                             federalTable: seq<Program>, stateTable: seq<Program>)
      returns (advice: seq<Advice>)
      modifies this
      ensures advice == DiagnosticPlan(t, responses, federalTable, stateTable).advice
      ensures rows == Replaced(old(rows), sessionId, RowsFor(sessionId, DiagnosticPlan(t, responses, federalTable, stateTable).picks))
      ensures committed == Others(old(rows), sessionId)
    {
      DeleteSession(sessionId);
      Commit();
      var code := StateCode(SectionOf(responses, "introduction"));
      if code.Err? {
        return [Fallback];
      }
      var analysis := AnalyzeUserInefficiencies(t, responses);
      if analysis.Err? {
        return [Fallback];
      }
      var insights := analysis.value;
      if insights == [] {
        return [Encouragement];
      }
      advice := AddPicks(sessionId, Picks(federalTable, stateTable, code.value, insights));
    }

    /** The recommendations request as the program serves it: the
        generator runs, the session's rows are read back for the reply, and
        the request ends without a commit. The reply shows the new rows,
        but the database keeps only the deletion. */
    method ServeRecommendations(t: Tables, responses: Responses, sessionId: string,
                                federalTable: seq<Program>, stateTable: seq<Program>)
      returns (advice: seq<Advice>, shown: seq<Recommendation>)
      modifies this
      ensures advice == DiagnosticPlan(t, responses, federalTable, stateTable).advice
      ensures shown == RowsFor(sessionId, DiagnosticPlan(t, responses, federalTable, stateTable).picks)
      ensures rows == committed == Others(old(rows), sessionId)
    {
      advice := GenerateDiagnosticRecommendations(t, responses, sessionId, federalTable, stateTable);
      ReadBack(old(rows), sessionId, DiagnosticPlan(t, responses, federalTable, stateTable).picks);
      shown := SessionRows(rows, sessionId);
      EndRequest();
    }

    /** The request with the added rows committed before it ends: the
        database then holds exactly what the reply showed for the session,
        and every other session's rows as they were. */
    method ServeRecommendationsCommitted(t: Tables, responses: Responses, sessionId: string,
                                         federalTable: seq<Program>, stateTable: seq<Program>)
      returns (advice: seq<Advice>, shown: seq<Recommendation>)
      modifies this
      ensures advice == DiagnosticPlan(t, responses, federalTable, stateTable).advice
      ensures shown == RowsFor(sessionId, DiagnosticPlan(t, responses, federalTable, stateTable).picks)
      ensures rows == committed
              == Replaced(old(rows), sessionId, RowsFor(sessionId, DiagnosticPlan(t, responses, federalTable, stateTable).picks))
      ensures SessionRows(committed, sessionId) == shown
    {
      advice := GenerateDiagnosticRecommendations(t, responses, sessionId, federalTable, stateTable);
      ReadBack(old(rows), sessionId, DiagnosticPlan(t, responses, federalTable, stateTable).picks);
      shown := SessionRows(rows, sessionId);
      Commit();
      EndRequest();
    }
  }

  /** Reading a session back after its rows were replaced by those of a
      list of picks gives exactly those rows. */
  lemma ReadBack(rows: seq<Recommendation>, sessionId: string, picks: seq<Pick>)
    ensures SessionRows(Replaced(rows, sessionId, RowsFor(sessionId, picks)), sessionId) == RowsFor(sessionId, picks)
  {
    RowsOfSession(sessionId, picks);
    ReplacedSessionRows(rows, sessionId, RowsFor(sessionId, picks));
  }

  /** As served, a request that recommends programs leaves the session
      with none of its rows in the database, although the reply showed
      them: the committed table differs from the table the reply was
      read from exactly in the session's rows. */
  lemma CommittedDropsPicks(rows: seq<Recommendation>, sessionId: string, picks: seq<Pick>)
    requires picks != []
    ensures SessionRows(Others(rows, sessionId), sessionId) == []
    ensures SessionRows(Replaced(rows, sessionId, RowsFor(sessionId, picks)), sessionId) == RowsFor(sessionId, picks) != []
    ensures Others(rows, sessionId) != Replaced(rows, sessionId, RowsFor(sessionId, picks))
  {
    OthersLeaveNone(rows, sessionId);
    ReadBack(rows, sessionId, picks);
  }

  // ------------------------------------------------------------ lemmas

  /** Nothing is stored unless programs were found for some finding: the
      encouragement exactly when the analysis found nothing, the generic
      advice when the state answer or the analysis raised, and otherwise at
      most five rows with one piece of advice per row. */
  lemma PlanOutcomes(t: Tables, responses: Responses, federalTable: seq<Program>, stateTable: seq<Program>)
    ensures var plan := DiagnosticPlan(t, responses, federalTable, stateTable);
            var code := StateCode(SectionOf(responses, "introduction"));
            |plan.picks| <= 5
            && (plan.advice == [Fallback] <==> code.Err? || Analysis(t, responses).Err?)
            && (plan.advice == [Encouragement] <==> code.Ok? && Analysis(t, responses) == Ok([]))
            && (plan.picks != [] ==> plan.advice == AdviceFor(plan.picks))
  {
    var code := StateCode(SectionOf(responses, "introduction"));
    var analysis := Analysis(t, responses);
    if code.Ok? && analysis.Ok? && analysis.value != [] {
      var picks := Picks(federalTable, stateTable, code.value, analysis.value);
      assert DiagnosticPlan(t, responses, federalTable, stateTable) == Plan(AdviceFor(picks), picks);
      assert picks != [] ==> AdviceFor(picks)[0].ProgramAdvice?;
    }
  }

  /** With findings, the one that saves the most gets the programs that
      `select_top_programs` ranks first, up to three: each scores at least as
      high as every retrieved program left out, and when three or fewer are
      retrieved every one of them is stored. */
  lemma PlanTopPrograms(t: Tables, responses: Responses, federalTable: seq<Program>, stateTable: seq<Program>)
    requires StateCode(SectionOf(responses, "introduction")).Ok?
    requires Analysis(t, responses).Ok? && Analysis(t, responses).value != []
    ensures var code := StateCode(SectionOf(responses, "introduction")).value;
            var top := Analysis(t, responses).value[0];
            var picks := DiagnosticPlan(t, responses, federalTable, stateTable).picks;
            var programs := Retrieve(federalTable, stateTable, code, top.technologies);
            var n := Min(3, |programs|);
            var chosen := SelectTopPrograms(programs, top.technologies, n);
            n <= |picks| && |chosen| == n
            && (forall i :: 0 <= i < n ==> picks[i] == Pick(top, chosen[i]))
            && (forall c, i :: c in programs && c !in chosen && 0 <= i < n ==>
                                 Score(picks[i].candidate.program, top.technologies) >= Score(c.program, top.technologies))
            && (|programs| <= 3 ==> multiset(chosen) == multiset(programs))
  {
    var code := StateCode(SectionOf(responses, "introduction")).value;
    var insights := Analysis(t, responses).value;
    var top := TopPicks(federalTable, stateTable, code, insights[0]);
    var others := OtherPicks(federalTable, stateTable, code, Further(insights));
    assert DiagnosticPlan(t, responses, federalTable, stateTable).picks == top + others;
    TopPicksChosen(federalTable, stateTable, code, insights[0]);
  }

  /** The top picks are the programs `select_top_programs` ranks first. */
  lemma TopPicksChosen(federalTable: seq<Program>, stateTable: seq<Program>, code: string, top: Insight)
    ensures var programs := Retrieve(federalTable, stateTable, code, top.technologies);
            var n := Min(3, |programs|);
            var chosen := SelectTopPrograms(programs, top.technologies, n);
            var picks := TopPicks(federalTable, stateTable, code, top);
            |picks| == n == |chosen|
            && (forall i :: 0 <= i < n ==> picks[i] == Pick(top, chosen[i]))
            && (forall c, i :: c in programs && c !in chosen && 0 <= i < n ==>
                                 Score(picks[i].candidate.program, top.technologies) >= Score(c.program, top.technologies))
            && (|programs| <= 3 ==> multiset(chosen) == multiset(programs))
  {
    var programs := Retrieve(federalTable, stateTable, code, top.technologies);
    var n := Min(3, |programs|);
    TopProgramsBest(programs, top.technologies, n);
    if |programs| <= 3 {
      TopProgramsAll(programs, top.technologies, n);
    }
  }

  /** Each of the next two findings gets the program that
      `select_most_specific_program` picks: none scores higher among those
      retrieved for it. */
  lemma PlanFurtherPrograms(t: Tables, responses: Responses, federalTable: seq<Program>, stateTable: seq<Program>)
    requires StateCode(SectionOf(responses, "introduction")).Ok?
    requires Analysis(t, responses).Ok? && Analysis(t, responses).value != []
    ensures var code := StateCode(SectionOf(responses, "introduction")).value;
            var insights := Analysis(t, responses).value;
            var picks := DiagnosticPlan(t, responses, federalTable, stateTable).picks;
            var n := Min(3, |Retrieve(federalTable, stateTable, code, insights[0].technologies)|);
            forall k :: n <= k < |picks| ==>
              picks[k].insight in Further(insights)
              && forall c :: c in Retrieve(federalTable, stateTable, code, picks[k].insight.technologies) ==>
                   Score(c.program, picks[k].insight.technologies) <= Score(picks[k].candidate.program, picks[k].insight.technologies)
  {
    var code := StateCode(SectionOf(responses, "introduction")).value;
    var insights := Analysis(t, responses).value;
    var top := TopPicks(federalTable, stateTable, code, insights[0]);
    var others := OtherPicks(federalTable, stateTable, code, Further(insights));
    assert DiagnosticPlan(t, responses, federalTable, stateTable).picks == top + others;
    forall k | |top| <= k < |top + others|
      ensures (top + others)[k] in others
    {
      assert (top + others)[k] == others[k - |top|];
    }
  }

  /** Every stored program funds a technology of the finding it is stored
      for, and is a federal program or one of the user's state. */
  lemma PlanPicksRelevant(t: Tables, responses: Responses, federalTable: seq<Program>, stateTable: seq<Program>)
    requires StateCode(SectionOf(responses, "introduction")).Ok?
    ensures var code := StateCode(SectionOf(responses, "introduction")).value;
            forall p :: p in DiagnosticPlan(t, responses, federalTable, stateTable).picks ==>
              Funds(p.candidate.program, p.insight.technologies)
              && (if p.candidate.federal then p.candidate.program in federalTable
                  else p.candidate.program in stateTable && p.candidate.program.state == code)
  {
  }

  /** Every stored row has a priority between 0 and 100. */
  lemma PlanPriorities(t: Tables, responses: Responses, federalTable: seq<Program>, stateTable: seq<Program>, sessionId: string)
    ensures forall r :: r in RowsFor(sessionId, DiagnosticPlan(t, responses, federalTable, stateTable).picks) ==> 0 <= r.priority <= 100
  {
    var picks := DiagnosticPlan(t, responses, federalTable, stateTable).picks;
    if picks != [] {
      var code, insights := StateCode(SectionOf(responses, "introduction")).value, Analysis(t, responses).value;
      assert picks == Picks(federalTable, stateTable, code, insights);
      AnalysisShape(t, responses, HeatPumpAsWritten);
      forall p | p in picks ensures p.insight.savings >= 0 {
        var i :| 0 <= i < |insights| && insights[i] == p.insight;
        assert Plausible(insights[i]);
      }
      RowsPriorities(sessionId, picks);
    }
  }

  lemma RowsPriorities(sessionId: string, picks: seq<Pick>)
    requires forall p :: p in picks ==> p.insight.savings >= 0
    ensures forall r :: r in RowsFor(sessionId, picks) ==> 0 <= r.priority <= 100
  {
    forall r | r in RowsFor(sessionId, picks) ensures 0 <= r.priority <= 100 {
      var i :| 0 <= i < |picks| && RowsFor(sessionId, picks)[i] == r;
      assert picks[i] in picks;
    }
  }

  /** Regenerating a session's recommendations twice, from any two sets of
      answers and program tables, leaves the table as if only the second
      call had run: the session holds exactly the second plan's rows, with
      nothing kept from the first, and every other session's rows are as
      they were. Regenerating again from the same inputs therefore changes
      nothing more. */
  lemma RegenerationReplaces(t: Tables, rows: seq<Recommendation>, sessionId: string, other: string,
                             responses1: Responses, federal1: seq<Program>, state1: seq<Program>,
                             responses2: Responses, federal2: seq<Program>, state2: seq<Program>)
    ensures var first := RowsFor(sessionId, DiagnosticPlan(t, responses1, federal1, state1).picks);
            var second := RowsFor(sessionId, DiagnosticPlan(t, responses2, federal2, state2).picks);
            var after := Replaced(Replaced(rows, sessionId, first), sessionId, second);
            after == Replaced(rows, sessionId, second)
            && SessionRows(after, sessionId) == second
            && (other != sessionId ==> SessionRows(after, other) == SessionRows(rows, other))
  {
    PicksReplacedTwice(rows, sessionId, other, DiagnosticPlan(t, responses1, federal1, state1).picks,
                       DiagnosticPlan(t, responses2, federal2, state2).picks);
  }

  /** Storing the rows of two lists of picks one after the other leaves
      only the second list's rows for the session. */
  lemma PicksReplacedTwice(rows: seq<Recommendation>, sessionId: string, other: string, picks1: seq<Pick>, picks2: seq<Pick>)
    ensures var first, second := RowsFor(sessionId, picks1), RowsFor(sessionId, picks2);
            var after := Replaced(Replaced(rows, sessionId, first), sessionId, second);
            after == Replaced(rows, sessionId, second)
            && SessionRows(after, sessionId) == second
            && (other != sessionId ==> SessionRows(after, other) == SessionRows(rows, other))
  {
    var first, second := RowsFor(sessionId, picks1), RowsFor(sessionId, picks2);
    RowsOfSession(sessionId, picks1);
    RowsOfSession(sessionId, picks2);
    ReplacedTwice(rows, sessionId, first, second);
    ReplacedSessionRows(rows, sessionId, second);
    if other != sessionId {
      ReplacedKeepsOtherSessions(rows, sessionId, second, other);
    }
  }

  /** Every row built for a session belongs to it. */
  lemma RowsOfSession(sessionId: string, picks: seq<Pick>)
    ensures forall r :: r in RowsFor(sessionId, picks) ==> r.sessionId == sessionId
  {
    forall r | r in RowsFor(sessionId, picks) ensures r.sessionId == sessionId {
      var i :| 0 <= i < |picks| && RowsFor(sessionId, picks)[i] == r;
    }
  }
}
