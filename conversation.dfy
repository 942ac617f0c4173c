/** The conversation's structure: the survey sections in the order the
    assistant walks through them, the fields each one collects, the progress
    figure shown to the user and the search for the next unanswered field. */
module Conversation {
  import opened Outcomes
  import opened Numbers

  /** A stored answer (`UserResponse` row) as the progress and next-field
      computations see it: which section it was given in and which field it
      answers. */
  datatype UserResponse = UserResponse(section: string, questionKey: string, responseValue: string, responseType: string)

  /** A JSON value, as the assistant's reply carries it. */
  datatype Json =
    | JNull
    | JBool(b: bool)
    | JNumber(n: real)
    | JString(s: string)
    | JList(items: seq<Json>)
    | JObject(entries: seq<(string, Json)>)
  {
    /** A number, a string or a boolean; not `null`, a list or an object. */
    predicate Scalar() { JNumber? || JString? || JBool? }
  }

  const Sections: seq<string> := ["introduction", "home_energy", "transportation", "consumption", "results"]

  const IntroductionFields: seq<string> := ["name", "city", "state", "household_size", "housing_type"]
  const HomeEnergyFields: seq<string> :=
    ["square_footage", "monthly_electricity", "heating_type", "heating_bill", "solar_panels"]
  const TransportationFields: seq<string> :=
    ["vehicle_year", "vehicle_make", "vehicle_model", "annual_miles", "domestic_flights", "international_flights"]
  const ConsumptionFields: seq<string> := ["diet_type", "shopping_frequency"]

  /** Every field the survey needs, in question order. */
  const RequiredFields: seq<string> :=
    ["name", "city", "state", "household_size", "housing_type",
     "square_footage", "monthly_electricity", "heating_type", "heating_bill", "solar_panels",
     "vehicle_year", "vehicle_make", "vehicle_model", "annual_miles", "domestic_flights", "international_flights",
     "diet_type", "shopping_frequency"]

  /** `required_fields.get(section, [])`: the fields a section asks for; the
      results section and unknown sections ask for none. */
  function SectionFields(section: string): seq<string> {
    if section == "introduction" then IntroductionFields
    else if section == "home_energy" then HomeEnergyFields
    else if section == "transportation" then TransportationFields
    else if section == "consumption" then ConsumptionFields
    else []
  }

  /** The required fields are exactly the sections' fields, section by section. */
  lemma RequiredFieldsBySection()
    ensures RequiredFields == SectionFields(Sections[0]) + SectionFields(Sections[1])
                            + SectionFields(Sections[2]) + SectionFields(Sections[3])
  {
  }

  /** `{r.question_key for r in responses}` */
  function AnsweredKeys(responses: seq<UserResponse>): set<string> {
    set r | r in responses :: r.questionKey
  }

  /** `{r.question_key for r in responses if r.section == section}` */
  function SectionKeys(responses: seq<UserResponse>, section: string): set<string> {
    set r | r in responses && r.section == section :: r.questionKey
  }

  /** How many of `fields` have an answer; all of them exactly when the count
      reaches the number of fields. */
  function AnsweredCount(fields: seq<string>, answered: set<string>): (n: nat)
    ensures n <= |fields|
    ensures n == |fields| <==> forall i :: 0 <= i < |fields| ==> fields[i] in answered
  {
    if fields == [] then 0
    else (if fields[0] in answered then 1 else 0) + AnsweredCount(fields[1..], answered)
  }

  /** Answering more fields never lowers the count. */
  lemma {:induction false} AnsweredCountMonotone(fields: seq<string>, fewer: set<string>, more: set<string>)
    requires fewer <= more
    ensures AnsweredCount(fields, fewer) <= AnsweredCount(fields, more)
  {
    if fields != [] {
      AnsweredCountMonotone(fields[1..], fewer, more);
    }
  }

  /** `min(int(round(answered / total * 100)), 100)` */
  function Percentage(answered: nat, total: nat): int
    requires total > 0
  {
    Min(RoundHalfEven(answered as real / total as real * 100.0), 100)
  }

  /** More answers never give a lower percentage. */
  lemma PercentageMonotone(fewer: nat, more: nat, total: nat)
    requires total > 0 && fewer <= more
    ensures Percentage(fewer, total) <= Percentage(more, total)
  {
    var x := fewer as real / total as real * 100.0;
    var y := more as real / total as real * 100.0;
    assert x <= y;
    RoundHalfEvenMonotone(x, y);
  }

  /** `calculate_question_progress`: the share of required fields answered,
      as a whole percentage rounded half to even, never above 100; no
      responses at all give 0. */
  function QuestionProgress(responses: seq<UserResponse>): (p: int)
    ensures 0 <= p <= 100
    ensures responses == [] ==> p == 0
  {
    if responses == [] then 0
    else Percentage(AnsweredCount(RequiredFields, AnsweredKeys(responses)), |RequiredFields|)
  }

  /** The progress figure is within half a point of the exact percentage of
      required fields answered. */
  lemma ProgressNearExact(responses: seq<UserResponse>)
    requires responses != []
    ensures var exact := AnsweredCount(RequiredFields, AnsweredKeys(responses)) as real * 100.0 / 18.0;
            exact - 0.5 <= QuestionProgress(responses) as real <= exact + 0.5
  {
  }

  /** Progress reaches 100 exactly when every required field has an answer. */
  lemma ProgressComplete(responses: seq<UserResponse>)
    ensures QuestionProgress(responses) == 100
        <==> forall i :: 0 <= i < |RequiredFields| ==> RequiredFields[i] in AnsweredKeys(responses)
  {
    var keys := AnsweredKeys(responses);
    var n := AnsweredCount(RequiredFields, keys);
    if responses == [] {
      assert RequiredFields[0] !in keys;
    } else if n < 18 {
      assert n as real / 18.0 * 100.0 <= 1700.0 / 18.0;
    } else {
      assert n as real / 18.0 * 100.0 == 100.0;
    }
  }

  /** Answering more never lowers the progress figure. */
  lemma ProgressMonotone(responses: seq<UserResponse>, later: seq<UserResponse>)
    requires AnsweredKeys(responses) <= AnsweredKeys(later)
    requires responses != [] ==> later != []
    ensures QuestionProgress(responses) <= QuestionProgress(later)
  {
    if responses != [] {
      AnsweredCountMonotone(RequiredFields, AnsweredKeys(responses), AnsweredKeys(later));
      PercentageMonotone(AnsweredCount(RequiredFields, AnsweredKeys(responses)),
                         AnsweredCount(RequiredFields, AnsweredKeys(later)), |RequiredFields|);
    }
  }

  /** Rounding half to even never reverses the order of two values. */
  lemma RoundHalfEvenMonotone(x: real, y: real)
    requires x <= y
    ensures RoundHalfEven(x) <= RoundHalfEven(y)
  {
    if x < y {
      assert RoundHalfEven(x) as real - 0.5 <= x < y <= RoundHalfEven(y) as real + 0.5;
    }
  }

  /** The first of `fields` without an answer, if any. */
  function FirstMissing(fields: seq<string>, existing: set<string>): (r: Option<string>)
    ensures r.None? <==> forall i :: 0 <= i < |fields| ==> fields[i] in existing
    ensures r.Some? ==> r.value in fields && r.value !in existing
  {
    if fields == [] then None
    else if fields[0] !in existing then Some(fields[0])
    else FirstMissing(fields[1..], existing)
  }

  /** Every field before the one `FirstMissing` picks has an answer. */
  lemma {:induction false} FirstMissingIsFirst(fields: seq<string>, existing: set<string>) returns (k: nat)
    requires FirstMissing(fields, existing).Some?
    ensures k < |fields| && fields[k] == FirstMissing(fields, existing).value
    ensures forall j :: 0 <= j < k ==> fields[j] in existing
  {
    if fields[0] !in existing {
      k := 0;
    } else {
      var k' := FirstMissingIsFirst(fields[1..], existing);
      k := k' + 1;
    }
  }

  /** `sections.index(section)`, `None` where Python raises `ValueError`. */
  function IndexOf(xs: seq<string>, x: string): (r: Option<nat>)
    ensures r.Some? ==> r.value < |xs| && xs[r.value] == x
    ensures r.None? <==> x !in xs
  {
    if xs == [] then None
    else if xs[0] == x then Some(0)
    else match IndexOf(xs[1..], x)
      case Some(i) => Some(i + 1)
      case None => None
  }

  /** The section after `section`, when there is one. */
  function NextSection(section: string): (r: Option<string>)
    ensures r.Some? ==> r.value in Sections
  {
    match IndexOf(Sections, section)
    case Some(i) => if i < |Sections| - 1 then Some(Sections[i + 1]) else None
    case None => None
  }

  /** What `_get_next_missing_field` returns: the current section's first
      unanswered field, or else the next section's, or `None`. */
  function NextMissing(current: string, responses: seq<UserResponse>): Option<string> {
    match FirstMissing(SectionFields(current), SectionKeys(responses, current))
    case Some(f) => Some(f)
    case None =>
      match NextSection(current)
      case Some(next) => FirstMissing(SectionFields(next), SectionKeys(responses, next))
      case None => None
  }

  /** The `for field in required: if field not in existing_keys` loop. */
  method FirstMissingField(fields: seq<string>, existing: set<string>) returns (r: Option<string>)
    ensures r == FirstMissing(fields, existing)
  {
    var i := 0;
    while i < |fields|
      invariant i <= |fields|
      invariant FirstMissing(fields, existing) == FirstMissing(fields[i..], existing)
    {
      if fields[i] !in existing {
        return Some(fields[i]);
      }
      assert fields[i..][1..] == fields[i + 1..];
      i := i + 1;
    }
    return None;
  }

  /** `_get_next_missing_field` */
  method NextMissingField(current: string, responses: seq<UserResponse>) returns (r: Option<string>)
    ensures r == NextMissing(current, responses)
  {
    var existing := SectionKeys(responses, current);
    r := FirstMissingField(SectionFields(current), existing);
    if r.Some? {
      return;
    }
    var index := IndexOf(Sections, current);
    if index.Some? && index.value < |Sections| - 1 {
      var next := Sections[index.value + 1];
      r := FirstMissingField(SectionFields(next), SectionKeys(responses, next));
    }
  }

  /** A field the search proposes is still unanswered: either the current
      section lacks it, or the current section is complete and the following
      section lacks it. */
  lemma NextMissingUnanswered(current: string, responses: seq<UserResponse>)
    requires NextMissing(current, responses).Some?
    ensures var f := NextMissing(current, responses).value;
      || (f in SectionFields(current) && f !in SectionKeys(responses, current))
      || (&& NextSection(current).Some?
          && (forall i :: 0 <= i < |SectionFields(current)| ==> SectionFields(current)[i] in SectionKeys(responses, current))
          && f in SectionFields(NextSection(current).value)
          && f !in SectionKeys(responses, NextSection(current).value))
  {
  }

  /** No field is proposed exactly when the current section is complete and
      so is the section after it, if any. */
  lemma NextMissingNone(current: string, responses: seq<UserResponse>)
    ensures NextMissing(current, responses).None?
        <==> ((forall i :: 0 <= i < |SectionFields(current)| ==> SectionFields(current)[i] in SectionKeys(responses, current))
          && (NextSection(current).Some? ==>
                forall i :: 0 <= i < |SectionFields(NextSection(current).value)| ==>
                  SectionFields(NextSection(current).value)[i] in SectionKeys(responses, NextSection(current).value)))
  {
  }

  /** Answers given in other sections do not count: only answers recorded
      under a section complete it. */
  lemma NextMissingInIntroduction(responses: seq<UserResponse>)
    requires forall r :: r in responses ==> r.section != "introduction"
    ensures NextMissing("introduction", responses) == Some("name")
  {
    assert SectionKeys(responses, "introduction") == {};
  }
}
