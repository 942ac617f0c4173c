/** Field names in the assistant's replies: the variants the assistant is
    known to use are mapped to the survey's own keys, and the reply's
    structure is completed with defaults. */
module FieldNames {
  import opened Outcomes
  import opened Strings
  import opened Dicts
  import opened Conversation

  /** Known variants of a field name and the survey key each stands for. */
  const KeyMappings: Dict<string, string> := [
    ("location_city", "city"),
    ("location_state", "state"),
    ("monthly_heating", "heating_bill"),
    ("heating_cost", "heating_bill"),
    ("electricity_bill", "monthly_electricity"),
    ("electric_bill", "monthly_electricity"),
    ("car_year", "vehicle_year"),
    ("car_make", "vehicle_make"),
    ("car_model", "vehicle_model"),
    ("domestic_flights_per_year", "domestic_flights"),
    ("international_flights_per_year", "international_flights"),
    ("home_size", "square_footage"),
    ("house_size", "square_footage")
  ]

  /** `_normalize_field_name`: the variant table is consulted with the
      lower-cased name; a name it does not list is kept exactly as given. */
  function NormalizeFieldName(key: string): (r: string)
    ensures Find(KeyMappings, Lower(key)).None? ==> r == key
  {
    FindOr(KeyMappings, Lower(key), key)
  }

  /** Every variant stands for a required survey field. */
  lemma MappedToRequired(key: string)
    requires Find(KeyMappings, Lower(key)).Some?
    ensures NormalizeFieldName(key) in RequiredFields
  {
    forall i | 0 <= i < |KeyMappings| ensures KeyMappings[i].1 in RequiredFields {
      TargetRequired(i);
    }
  }

  lemma TargetRequired(i: nat)
    requires i < |KeyMappings|
    ensures KeyMappings[i].1 in RequiredFields
  {
    var targets := [1, 2, 8, 8, 6, 6, 10, 11, 12, 14, 15, 5, 5];
    assert KeyMappings[i].1 == RequiredFields[targets[i]];
  }

  /** No survey key has an upper-case letter (first half of the list). */
  lemma RequiredFieldsLowerFront(j: nat)
    requires j < 9
    ensures forall i :: 0 <= i < |RequiredFields[j]| ==> !IsUpperAscii(RequiredFields[j][i])
  {
  }

  /** No survey key has an upper-case letter (second half of the list). */
  lemma RequiredFieldsLowerBack(j: nat)
    requires 9 <= j < |RequiredFields|
    ensures forall i :: 0 <= i < |RequiredFields[j]| ==> !IsUpperAscii(RequiredFields[j][i])
  {
  }

  /** No survey key has upper-case letters. */
  lemma RequiredFieldsLower(j: nat)
    requires j < |RequiredFields|
    ensures Lower(RequiredFields[j]) == RequiredFields[j]
  {
    if j < 9 {
      RequiredFieldsLowerFront(j);
    } else {
      RequiredFieldsLowerBack(j);
    }
    LowerFixed(RequiredFields[j]);
  }

  /** No survey key is itself listed as a variant. */
  lemma RequiredFieldsNotVariants(j: nat)
    requires j < |RequiredFields|
    ensures forall i :: 0 <= i < |KeyMappings| ==> KeyMappings[i].0 != RequiredFields[j]
  {
  }

  /** The survey's own keys pass through unchanged. */
  lemma NormalizeRequired(k: string)
    requires k in RequiredFields
    ensures NormalizeFieldName(k) == k
  {
    var j :| 0 <= j < |RequiredFields| && RequiredFields[j] == k;
    RequiredFieldsLower(j);
    RequiredFieldsNotVariants(j);
  }

  /** Normalising twice changes nothing more. */
  lemma NormalizeIdempotent(key: string)
    ensures NormalizeFieldName(NormalizeFieldName(key)) == NormalizeFieldName(key)
  {
    if Find(KeyMappings, Lower(key)).Some? {
      MappedToRequired(key);
      NormalizeRequired(NormalizeFieldName(key));
    }
  }

  /** The assistant's reply as parsed from its JSON. An entry the reply does
      not have is `None`; one it has, `null` included, is `Some`. */
  datatype AssistantReply = AssistantReply(
    message: Option<Json>,
    dataCollected: Option<Dict<string, Json>>,
    sectionComplete: Option<Json>,
    nextSection: Option<Json>,
    needsClarification: Option<Json>)

  /** The reply with every entry present and the collected field names
      normalised. */
  datatype ValidatedReply = ValidatedReply(
    message: Json,
    dataCollected: Dict<string, Json>,
    sectionComplete: Json,
    nextSection: Json,
    needsClarification: Json)

  /** The collected items with their names normalised, in reply order. */
  function NormalizedItems(items: Dict<string, Json>): (r: seq<(string, Json)>)
    ensures |r| == |items|
    ensures forall i :: 0 <= i < |items| ==> r[i] == (NormalizeFieldName(items[i].0), items[i].1)
  {
    seq(|items|, i requires 0 <= i < |items| => (NormalizeFieldName(items[i].0), items[i].1))
  }

  /** What `_validate_response_structure` returns: each entry the reply has
      kept as it is, defaults for the ones it lacks (an empty message, not
      complete, no next section, nothing to clarify), and the collected data
      re-keyed by normalised name, a later entry overwriting an earlier one
      that normalises to the same name. */
  function Validated(reply: AssistantReply): ValidatedReply {
    ValidatedReply(
      reply.message.GetOr(JString("")),
      FromItems(NormalizedItems(reply.dataCollected.GetOr([]))),
      reply.sectionComplete.GetOr(JBool(false)),
      reply.nextSection.GetOr(JNull),
      reply.needsClarification.GetOr(JList([])))
  }

  /** An entry the reply has, of whatever type and `null` included, is
      passed on unchanged; only a missing entry takes its default. */
  lemma ValidatedEntries(reply: AssistantReply)
    ensures reply.message.Some? ==> Validated(reply).message == reply.message.value
    ensures reply.message.None? ==> Validated(reply).message == JString("")
    ensures reply.sectionComplete.Some? ==> Validated(reply).sectionComplete == reply.sectionComplete.value
    ensures reply.sectionComplete.None? ==> Validated(reply).sectionComplete == JBool(false)
    ensures reply.nextSection.Some? ==> Validated(reply).nextSection == reply.nextSection.value
    ensures reply.nextSection.None? ==> Validated(reply).nextSection == JNull
    ensures reply.needsClarification.Some? ==> Validated(reply).needsClarification == reply.needsClarification.value
    ensures reply.needsClarification.None? ==> Validated(reply).needsClarification == JList([])
    ensures reply.dataCollected.None? ==> Validated(reply).dataCollected == []
  {
  }

  /** One more item re-keys one more entry of the dictionary. */
  lemma NormalizedStep(items: Dict<string, Json>, i: nat)
    requires i < |items|
    ensures FromItems(NormalizedItems(items[..i + 1]))
         == Put(FromItems(NormalizedItems(items[..i])), NormalizeFieldName(items[i].0), items[i].1)
  {
    var n := NormalizedItems(items[..i + 1]);
    assert n[..i] == NormalizedItems(items[..i]);
  }

  /** `_validate_response_structure`. Whether a field belongs to the current
      section only decides whether a warning is logged: both branches store
      it, so `currentSection` does not influence the result. */
  method ValidateResponseStructure(reply: AssistantReply, currentSection: string) returns (v: ValidatedReply)
    ensures v == Validated(reply)
  {
    var data: Dict<string, Json> := [];
    if reply.dataCollected.Some? {
      var items := reply.dataCollected.value;
      for i := 0 to |items|
        invariant data == FromItems(NormalizedItems(items[..i]))
      {
        NormalizedStep(items, i);
        data := Put(data, NormalizeFieldName(items[i].0), items[i].1);
      }
      assert items[..|items|] == items;
    }
    v := ValidatedReply(
      reply.message.GetOr(JString("")),
      data,
      reply.sectionComplete.GetOr(JBool(false)),
      reply.nextSection.GetOr(JNull),
      reply.needsClarification.GetOr(JList([])));
  }

  /** Every collected entry survives under its normalised name, holding the
      value of the last entry with that name; no name appears twice. */
  lemma ValidatedKeepsEntries(reply: AssistantReply, k: string)
    requires reply.dataCollected.Some?
    ensures Find(Validated(reply).dataCollected, k) == LastValue(NormalizedItems(reply.dataCollected.value), k)
    ensures KeysDistinct(Validated(reply).dataCollected)
    ensures (exists i :: 0 <= i < |reply.dataCollected.value| && NormalizeFieldName(reply.dataCollected.value[i].0) == k)
        ==> Find(Validated(reply).dataCollected, k).Some?
  {
    FromItemsFind(NormalizedItems(reply.dataCollected.value), k);
  }

  /** Every key of the validated data is already in normal form. */
  lemma ValidatedKeysNormal(reply: AssistantReply, j: nat)
    requires j < |Validated(reply).dataCollected|
    ensures var k := Validated(reply).dataCollected[j].0;
      NormalizeFieldName(k) == k
  {
    var items := NormalizedItems(reply.dataCollected.GetOr([]));
    var k := Validated(reply).dataCollected[j].0;
    FromItemsFind(items, k);
    assert Find(FromItems(items), k).Some?;
    var i :| 0 <= i < |items| && items[i].0 == k;
    NormalizeIdempotent(reply.dataCollected.value[i].0);
  }
}
