/** Incentive programs and how the diagnostic analyzer picks the ones to
    recommend: the programs funding a technology are retrieved (federal
    ones first, then the user's state's), each is scored for how specific
    it is to the finding, and the best one or the best few are kept. */
module Programs {
  import opened Outcomes
  import opened Strings
  import opened Sorting

  /** A federal or state program: its identifier, name, the state it
      belongs to (unused for federal programs), its incentive type and
      summary (both may be missing), whether it is a well-known program,
      and the technology categories it funds. */
  datatype Program = Program(id: int, name: string, state: string, programType: Option<string>,
                             summary: Option<string>, credibilityBoost: bool, technologies: seq<string>)

  /** A retrieved program and whether it came from the federal table. */
  datatype Candidate = Candidate(program: Program, federal: bool)

  // ---------------------------------------------------------- retrieval

  /** The program funds one of the technologies. */
  predicate Funds(p: Program, technologies: seq<string>) {
    exists i :: 0 <= i < |p.technologies| && p.technologies[i] in technologies
  }

  /** One table's programs for the technologies, in table order: every
      federal program funding one of them, or every state program of the
      user's state funding one of them. */
  function Matching(table: seq<Program>, federal: bool, stateCode: string, technologies: seq<string>): (r: seq<Candidate>)
    ensures |r| <= |table|
    ensures forall c :: c in r <==> c.federal == federal && c.program in table && Funds(c.program, technologies)
                                    && (federal || c.program.state == stateCode)
  {
    if table == [] then []
    else
      var p := table[0];
      var rest := Matching(table[1..], federal, stateCode, technologies);
      assert forall q :: q in table <==> q == p || q in table[1..];
      if Funds(p, technologies) && (federal || p.state == stateCode) then [Candidate(p, federal)] + rest else rest
  }

  /** `get_programs_for_technologies`: the federal matches, then the state
      matches. */
  function Retrieve(federalTable: seq<Program>, stateTable: seq<Program>, stateCode: string,
                    technologies: seq<string>): (r: seq<Candidate>)
    ensures forall c :: c in r <==>
              Funds(c.program, technologies)
              && ((c.federal && c.program in federalTable) || (!c.federal && c.program in stateTable && c.program.state == stateCode))
    ensures forall i, j :: 0 <= i < j < |r| && r[j].federal ==> r[i].federal
  {
    var fed, st := Matching(federalTable, true, stateCode, technologies), Matching(stateTable, false, stateCode, technologies);
    assert forall i :: 0 <= i < |fed| ==> fed[i] in fed;
    assert forall i :: 0 <= i < |st| ==> st[i] in st;
    fed + st
  }

  // ------------------------------------------------------------ scoring

  /** The phrases that show a program is specific to a technology. */
  function SpecificityKeywords(technology: string): (keywords: seq<string>)
    ensures |keywords| <= 5
  {
    match technology
    case "electric_vehicles" => ["electric vehicle", "ev", "vehicle", "plug-in"]
    case "heat_pumps" => ["heat pump", "electrification", "hvac", "heating", "cooling"]
    case "solar" => ["solar", "photovoltaic", "pv", "renewable energy"]
    case "comprehensive" => ["energy efficiency", "weatherization", "home improvement"]
    case "hvac" => ["hvac", "heating", "cooling", "air conditioning"]
    case "insulation" => ["insulation", "weatherization", "envelope"]
    case "appliances" => ["appliance", "refrigerator", "washer", "dryer"]
    case "water_heating" => ["water heat", "hot water"]
    case "lighting" => ["lighting", "led", "lamp"]
    case "energy_storage" => ["battery", "storage", "backup power"]
    case _ => []
  }

  /** The text searched for keywords: the name and the summary (or
      nothing), lower case. */
  function ProgramText(p: Program): (text: string)
    ensures |text| == |p.name| + 1 + |p.summary.GetOr("")|
    ensures forall i :: 0 <= i < |text| ==> !IsUpperAscii(text[i])
  {
    Lower(p.name + " " + p.summary.GetOr(""))
  }

  /** How many of the keywords occur in the text. */
  function ContainedCount(text: string, keywords: seq<string>): (n: nat)
    ensures n <= |keywords|
    ensures n == 0 <==> forall i :: 0 <= i < |keywords| ==> !Contains(text, keywords[i])
  {
    if keywords == [] then 0
    else
      var init := keywords[..|keywords| - 1];
      assert forall i :: 0 <= i < |init| ==> init[i] == keywords[i];
      ContainedCount(text, init) + (if Contains(text, keywords[|keywords| - 1]) then 1 else 0)
  }

  /** The number of keywords of all the technologies, counted per
      technology (a keyword two technologies share counts twice). */
  function TargetKeywords(technologies: seq<string>): (n: nat) {
    if technologies == [] then 0
    else TargetKeywords(technologies[..|technologies| - 1]) + |SpecificityKeywords(technologies[|technologies| - 1])|
  }

  /** The number of those keywords the text contains, counted the same way. */
  function MatchedKeywords(text: string, technologies: seq<string>): (n: nat)
    ensures n <= TargetKeywords(technologies)
  {
    if technologies == [] then 0
    else MatchedKeywords(text, technologies[..|technologies| - 1])
         + ContainedCount(text, SpecificityKeywords(technologies[|technologies| - 1]))
  }

  /** The keyword part of the score: 10 when a quarter or more of the
      keywords match, 5 when fewer do but at least one, nothing when none
      match or there are no keywords. */
  function KeywordBucket(matched: nat, total: nat): (points: int) {
    if total > 0 then
      if matched as real / total as real >= 0.25 then 10
      else if matched > 0 then 5
      else 0
    else 0
  }

  /** The quarter threshold is four matches per keyword counted, in whole
      numbers. */
  lemma KeywordBucketExactly(matched: nat, total: nat)
    ensures KeywordBucket(matched, total) == 10 <==> total > 0 && 4 * matched >= total
    ensures KeywordBucket(matched, total) == 5 <==> total > 0 && 0 < matched && 4 * matched < total
    ensures KeywordBucket(matched, total) == 0 <==> total == 0 || matched == 0
  {
    if total > 0 {
      var ratio := matched as real / total as real;
      assert ratio * total as real == matched as real;
      assert (ratio >= 0.25) == (ratio * total as real >= 0.25 * total as real);
    }
  }

  /** Rebates and grants are preferred to loans and tax incentives. */
  function TypeBonus(programType: Option<string>): (points: int)
    ensures 0 <= points <= 5
    ensures programType.None? ==> points == 0
  {
    match programType
    case None => 0
    case Some(kind) =>
      match kind
      case "rebate" => 5
      case "grant" => 4
      case "tax_credit" => 3
      case "tax_deduction" => 2
      case "loan" => 1
      case "tax_incentive" => 1
      case _ => 0
  }

  function CredibilityBonus(p: Program): (points: int) {
    if p.credibilityBoost then 5 else 0
  }

  /** `score_program_specificity`: keyword bucket, type bonus and
      credibility bonus. */
  function Score(p: Program, technologies: seq<string>): (score: int)
    ensures 0 <= score <= 20
  {
    KeywordBucket(MatchedKeywords(ProgramText(p), technologies), TargetKeywords(technologies))
    + TypeBonus(p.programType) + CredibilityBonus(p)
  }

  /** `score_program_specificity`: running totals over the
      technologies and their keywords, then the three parts added. */
  method ScoreProgramSpecificity(p: Program, technologies: seq<string>) returns (score: int)
    ensures score == Score(p, technologies)
  {
    score := 0;
    var text := ProgramText(p);
    var total, matched := 0, 0;
    for i := 0 to |technologies|
      invariant total == TargetKeywords(technologies[..i])
      invariant matched == MatchedKeywords(text, technologies[..i])
    {
      var keywords := SpecificityKeywords(technologies[i]);
      assert technologies[..i + 1][..i] == technologies[..i];
      total := total + |keywords|;
      var found := CountContained(text, keywords);
      matched := matched + found;
    }
    assert technologies[..|technologies|] == technologies;
    if total > 0 {
      if matched as real / total as real >= 0.25 {
        score := score + 10;
      } else if matched > 0 {
        score := score + 5;
      }
    }
    score := score + TypeBonus(p.programType);
    if p.credibilityBoost {
      score := score + 5;
    }
  }

  /** The inner loop of the score: one count per keyword found. */
  method CountContained(text: string, keywords: seq<string>) returns (n: nat)
    ensures n == ContainedCount(text, keywords)
  {
    n := 0;
    for j := 0 to |keywords|
      invariant n == ContainedCount(text, keywords[..j])
    {
      assert keywords[..j + 1][..j] == keywords[..j];
      if Contains(text, keywords[j]) {
        n := n + 1;
      }
    }
    assert keywords[..|keywords|] == keywords;
  }

  // ---------------------------------------------------------- selection

  /** The ranking key for a finding's technologies. */
  function ScoreKey(technologies: seq<string>): Candidate -> int {
    (c: Candidate) => Score(c.program, technologies)
  }

  /** `select_most_specific_program`: nothing for no programs, otherwise
      the head of the programs sorted by score, highest first. */
  function SelectMostSpecific(programs: seq<Candidate>, technologies: seq<string>): (r: Option<Candidate>)
    ensures r.None? <==> programs == []
    ensures r.Some? ==> r.value in programs
  {
    if programs == [] then None
    else
      SortDescPrefix(programs, ScoreKey(technologies), 1);
      Some(SortDesc(programs, ScoreKey(technologies))[0])
  }

  /** The program picked scores highest, and it is the first such program
      in retrieval order, so a federal program wins a tie with a state one. */
  lemma MostSpecificIsFirstBest(programs: seq<Candidate>, technologies: seq<string>)
    requires programs != []
    ensures var best := SelectMostSpecific(programs, technologies).value;
            (forall j :: 0 <= j < |programs| ==> Score(programs[j].program, technologies) <= Score(best.program, technologies))
            && exists i :: 0 <= i < |programs| && programs[i] == best
                           && forall j :: 0 <= j < i ==> Score(programs[j].program, technologies) < Score(best.program, technologies)
  {
    var i := SortDescHead(programs, ScoreKey(technologies));
  }

  /** Python's `s[:stop]`: how many elements of a list of `n` it keeps. */
  function SliceLength(n: nat, stop: int): (k: nat)
    ensures k <= n
    ensures stop >= 0 ==> k == if stop < n then stop else n
    ensures stop < 0 ==> k == if n + stop > 0 then n + stop else 0
  {
    if stop >= 0 then (if stop < n then stop else n)
    else if n + stop > 0 then n + stop else 0
  }

  /** `select_top_programs`: the first `count` programs sorted by score,
      highest first, ties in retrieval order. */
  function SelectTopPrograms(programs: seq<Candidate>, technologies: seq<string>, count: int): (r: seq<Candidate>)
    ensures |r| == SliceLength(|programs|, count)
    ensures forall i :: 0 <= i < |r| ==> r[i] in programs
  {
    var k := SliceLength(|programs|, count);
    SortDescPrefix(programs, ScoreKey(technologies), k);
    SortDesc(programs, ScoreKey(technologies))[..k]
  }

  /** The programs kept are in score order, and each scores at least as
      much as every program left out. */
  lemma TopProgramsBest(programs: seq<Candidate>, technologies: seq<string>, count: int)
    ensures var r := SelectTopPrograms(programs, technologies, count);
            SortedDesc(r, ScoreKey(technologies))
            && forall c, i :: c in programs && c !in r && 0 <= i < |r| ==> Score(r[i].program, technologies) >= Score(c.program, technologies)
  {
    var key, n := ScoreKey(technologies), SliceLength(|programs|, count);
    SortDescTop(programs, key, n);
    var r := SortDesc(programs, key)[..n];
    assert r == SelectTopPrograms(programs, technologies, count);
    forall c, i | c in programs && c !in r && 0 <= i < |r|
      ensures Score(r[i].program, technologies) >= Score(c.program, technologies)
    {
      assert key(r[i]) >= key(c);
    }
  }

  /** With room for every program, `select_top_programs` keeps them all,
      each as often as it was retrieved. */
  lemma TopProgramsAll(programs: seq<Candidate>, technologies: seq<string>, count: int)
    requires count >= |programs|
    ensures multiset(SelectTopPrograms(programs, technologies, count)) == multiset(programs)
  {
    var key := ScoreKey(technologies);
    SortDescCorrect(programs, key);
    assert SortDesc(programs, key)[..|programs|] == SortDesc(programs, key);
  }

  /** With room for at least one program, the first of the top programs is
      the most specific one. */
  lemma TopStartsWithMostSpecific(programs: seq<Candidate>, technologies: seq<string>, count: int)
    requires programs != [] && count >= 1
    ensures SelectTopPrograms(programs, technologies, count)[0] == SelectMostSpecific(programs, technologies).value
  {
  }
}
