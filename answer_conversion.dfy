/** How an answer the assistant collected is converted before it is stored:
    numeric fields are read as numbers, the solar-panel field as a boolean,
    and a few text fields are reduced to fixed category names. */
module AnswerConversion {
  import opened Outcomes
  import opened Strings
  import opened Numbers
  import opened Conversation
  import opened StateCodes

  /** The `response_type` stored beside a value. */
  datatype ResponseType = NumberType | BooleanType | TextType

  const NumericFields: seq<string> :=
    ["square_footage", "monthly_electricity", "heating_bill", "annual_miles",
     "household_size", "vehicle_year", "domestic_flights", "international_flights"]
  const BooleanFields: seq<string> := ["solar_panels"]
  const FlightFields: seq<string> := ["domestic_flights", "international_flights"]

  /** Phrases that make a heating bill zero: heating paid with electricity. */
  const HeatingBillZeroPhrases: seq<string> :=
    ["included", "same", "combined", "together", "electric", "zero", "none",
     "no separate", "no extra", "built in", "part of", "with electric"]

  /** Phrases that make a flight count zero. */
  const FlightZeroPhrases: seq<string> :=
    ["none", "zero", "no flights", "never", "dont fly", "don't fly", "no travel", "rarely", "not often"]

  /** `value.lower().strip()` */
  function Clean(value: string): string {
    Strip(Lower(value))
  }

  /** The greedy match of `\d+\.?\d*` starting at the digit at `p`: where it
      ends and the number it spells. */
  function NumberAt(s: string, p: nat): (m: (nat, real))
    requires p < |s| && IsDigit(s[p])
    ensures p < m.0 <= |s| && m.1 >= 0.0
  {
    var e := p + DigitRun(s, p);
    if e < |s| && s[e] == '.' then
      var f := DigitRun(s, e + 1);
      (e + 1 + f, DecimalValue(s[p..e], s[e + 1..e + 1 + f]))
    else (e, DigitsValue(s[p..e]) as real)
  }

  /** `re.findall(r'\d+\.?\d*', s[i:])[0]` read with `float`: the number
      starting at the first digit, if there is a digit. */
  function FirstNumber(s: string, i: nat): (r: Option<real>)
    requires i <= |s|
    ensures r.None? <==> forall m :: i <= m < |s| ==> !IsDigit(s[m])
    ensures r.Some? ==> r.value >= 0.0
    decreases |s| - i
  {
    if i == |s| then None
    else if IsDigit(s[i]) then Some(NumberAt(s, i).1)
    else FirstNumber(s, i + 1)
  }

  /** Whitespace and then a `k` follow position `e`. */
  predicate KFollows(s: string, e: nat)
    requires e <= |s|
  {
    var k := e + SpaceRun(s, e);
    k < |s| && s[k] == 'k'
  }

  /** `re.findall(r'(\d+\.?\d*)\s*k', s[i:])[0]` read with `float`: the
      first number, at any digit position, followed by optional whitespace
      and a `k`. A shorter match than the greedy one is always followed by
      a digit or a point, so only the greedy match can succeed. */
  function Thousands(s: string, i: nat): (r: Option<real>)
    requires i <= |s|
    ensures r.Some? ==> r.value >= 0.0
    decreases |s| - i
  {
    if i == |s| then None
    else if IsDigit(s[i]) && KFollows(s, NumberAt(s, i).0) then Some(NumberAt(s, i).1)
    else Thousands(s, i + 1)
  }

  /** A text answer for a numeric field: a zero phrase (for the heating bill
      and the flight counts) gives 0; a number followed by `k` counts
      thousands, unless the text mentions kWh; otherwise the first number in
      the text; and 0 when there is none. The sign is never read. */
  function NumericText(key: string, value: string): (v: real)
    ensures v >= 0.0
  {
    var lower := Clean(value);
    if key == "heating_bill" && ContainsAny(lower, HeatingBillZeroPhrases) then 0.0
    else if key in FlightFields && ContainsAny(lower, FlightZeroPhrases) then 0.0
    else if Contains(lower, "k") && !Contains(lower, "kwh") && Thousands(lower, 0).Some? then
      Thousands(lower, 0).value * 1000.0
    else FirstNumber(value, 0).GetOr(0.0)
  }

  const TrueIndicators: seq<string> := ["yes", "true", "1", "y", "have", "installed", "got"]
  const FalseIndicators: seq<string> := ["no", "false", "0", "n", "none", "dont have", "don't have", "nope"]

  /** A text answer for the solar-panel field, as written: any true
      indicator gives `true`; a false indicator, or neither, gives `false`. */
  function BooleanText(value: string): bool {
    var lower := Clean(value);
    if ContainsAny(lower, TrueIndicators) then true
    else if ContainsAny(lower, FalseIndicators) then false
    else false
  }

  /** The false indicators never decide anything: the answer is `true`
      exactly when a true indicator occurs. */
  lemma BooleanByTrueIndicators(value: string)
    ensures BooleanText(value) <==> ContainsAny(Clean(value), TrueIndicators)
  {
  }

  /** The negated phrases among the false indicators. */
  const NegatedHave: seq<string> := ["dont have", "don't have"]

  /** The solar-panel reading with the negated phrases checked first, so
      that they can take effect. */
  function BooleanTextCorrected(value: string): (b: bool)
    ensures ContainsAny(Clean(value), NegatedHave) ==> !b
    ensures !ContainsAny(Clean(value), NegatedHave) ==> b == BooleanText(value)
  {
    if ContainsAny(Clean(value), NegatedHave) then false else BooleanText(value)
  }

  /** As written, a negated phrase always reads as `true`: each contains the
      true indicator `have`. */
  lemma NegatedHaveReadsTrue(value: string)
    requires ContainsAny(Clean(value), NegatedHave)
    ensures BooleanText(value)
  {
    NegatedHaveContainsHave(Clean(value));
  }

  lemma NegatedHaveContainsHave(lower: string)
    requires ContainsAny(lower, NegatedHave)
    ensures ContainsAny(lower, TrueIndicators)
  {
    var i :| 0 <= i < |NegatedHave| && Contains(lower, NegatedHave[i]);
    var w := NegatedHave[i];
    var have := w[|w| - 4..|w|];
    assert have == "have";
    ContainsPiece(lower, w, |w| - 4, |w|);
    assert TrueIndicators[4] == have;
  }

  const DietTypes: seq<string> := ["vegan", "vegetarian", "light_meat", "moderate_meat", "heavy_meat"]
  const VeganWords: seq<string> := ["vegan", "plant-based", "no animal products"]
  const VegetarianWords: seq<string> := ["vegetarian", "veggie", "no meat", "pescatarian"]
  const HeavyMeatWords: seq<string> :=
    ["heavy meat", "lots of meat", "meat lover", "carnivore", "bacon", "steak daily", "multiple times"]
  const LightMeatWords: seq<string> :=
    ["light meat", "little meat", "few times", "occasionally", "rarely", "weekend only"]

  /** The diet category of a cleaned answer, as written: the first of vegan,
      vegetarian, heavy and light meat whose keywords occur, else moderate. */
  function DietType(clean: string): (r: string)
    ensures r in DietTypes
  {
    if ContainsAny(clean, VeganWords) then "vegan"
    else if ContainsAny(clean, VegetarianWords) then "vegetarian"
    else if ContainsAny(clean, HeavyMeatWords) then "heavy_meat"
    else if ContainsAny(clean, LightMeatWords) then "light_meat"
    else "moderate_meat"
  }

  /** The diet category with the category names themselves recognised. */
  function DietTypeCorrected(clean: string): (r: string)
    ensures r in DietTypes
    ensures clean in DietTypes ==> r == clean
    ensures clean !in DietTypes ==> r == DietType(clean)
  {
    if clean in DietTypes then clean else DietType(clean)
  }

  const HeatingTypes: seq<string> := ["gas", "electric", "heat_pump", "oil"]
  const GasWords: seq<string> := ["gas", "natural gas", "propane"]
  const ElectricWords: seq<string> := ["electric", "electricity", "baseboard", "resistive"]
  const HeatPumpWords: seq<string> := ["heat pump", "hvac", "central air"]
  const OilWords: seq<string> := ["oil", "heating oil", "fuel oil"]

  /** The heating category of a cleaned answer: gas, electric, heat pump or
      oil by keyword, in that order; an answer with none of the keywords is
      kept. */
  function HeatingType(clean: string): (r: string)
    ensures r in HeatingTypes || r == clean
  {
    if ContainsAny(clean, GasWords) then "gas"
    else if ContainsAny(clean, ElectricWords) then "electric"
    else if ContainsAny(clean, HeatPumpWords) then "heat_pump"
    else if ContainsAny(clean, OilWords) then "oil"
    else clean
  }

  const ShoppingFrequencies: seq<string> := ["low", "moderate", "high", "very_high"]
  const LowWords: seq<string> := ["low", "minimal", "rarely", "never", "almost never", "seldom", "occasionally"]
  const HighWords: seq<string> :=
    ["high", "frequent", "lots", "often", "weekly", "multiple times", "constantly", "always"]
  const VeryHighWords: seq<string> := ["very high", "excessive", "daily", "every day", "addicted", "compulsive"]

  /** The shopping category of a cleaned answer, as written: very high, high
      and low by keyword, in that order, else moderate. */
  function ShoppingFrequency(clean: string): (r: string)
    ensures r in ShoppingFrequencies
  {
    if ContainsAny(clean, VeryHighWords) then "very_high"
    else if ContainsAny(clean, HighWords) then "high"
    else if ContainsAny(clean, LowWords) then "low"
    else "moderate"
  }

  /** The shopping category with the category names themselves recognised. */
  function ShoppingFrequencyCorrected(clean: string): (r: string)
    ensures r in ShoppingFrequencies
    ensures clean in ShoppingFrequencies ==> r == clean
    ensures clean !in ShoppingFrequencies ==> r == ShoppingFrequency(clean)
  {
    if clean in ShoppingFrequencies then clean else ShoppingFrequency(clean)
  }

  const HousingTypes: seq<string> := ["house", "apartment", "condo"]
  const HouseWords: seq<string> := ["house", "home", "single family", "detached", "standalone"]
  const ApartmentWords: seq<string> := ["apartment", "apt", "flat", "unit", "complex"]
  const CondoWords: seq<string> := ["condo", "condominium", "townhouse", "townhome"]

  /** The housing category of a cleaned answer: house, apartment or condo by
      keyword, in that order; an answer with none of the keywords is kept. */
  function HousingType(clean: string): (r: string)
    ensures r in HousingTypes || r == clean
  {
    if ContainsAny(clean, HouseWords) then "house"
    else if ContainsAny(clean, ApartmentWords) then "apartment"
    else if ContainsAny(clean, CondoWords) then "condo"
    else clean
  }

  /** A text answer for a text field. The diet and shopping categories are
      recognised by name only when `namesKept` holds. */
  function TextAnswer(key: string, value: string, namesKept: bool): string {
    var clean := Clean(value);
    if key == "diet_type" then (if namesKept then DietTypeCorrected(clean) else DietType(clean))
    else if key == "heating_type" then HeatingType(clean)
    else if key == "shopping_frequency" then
      (if namesKept then ShoppingFrequencyCorrected(clean) else ShoppingFrequency(clean))
    else if key == "housing_type" then HousingType(clean)
    else if key == "state" then StateCode(value)
    else Strip(value)
  }

  /** `_validate_and_convert_response`, with the category names recognised
      (`namesKept`) or as written, and the solar-panel reading corrected or
      as written (`negationFirst`). A number or a boolean for a numeric
      field passes through (a boolean is an integer in Python); a string is
      read as a number. A boolean for the solar-panel field passes through; a
      string is read as a boolean. A string for any other field is cleaned
      up. Anything else is kept and typed as text. */
  function ConvertWith(key: string, value: Json, namesKept: bool, negationFirst: bool): (r: (Json, ResponseType))
    ensures r.1 == NumberType <==> key in NumericFields && value.Scalar()
    ensures r.1 == BooleanType <==> key !in NumericFields && key in BooleanFields && (value.JBool? || value.JString?)
    ensures r.1 == NumberType ==> r.0.JNumber? || r.0.JBool?
    ensures r.1 == BooleanType ==> r.0.JBool?
    ensures value.JString? && r.1 == TextType ==> r.0.JString?
    ensures !value.JString? && r.1 == TextType ==> r.0 == value
  {
    if key in NumericFields then
      match value
      case JNumber(_) => (value, NumberType)
      case JBool(_) => (value, NumberType)
      case JString(s) => (JNumber(NumericText(key, s)), NumberType)
      case _ => (value, TextType)
    else if key in BooleanFields then
      match value
      case JBool(_) => (value, BooleanType)
      case JString(s) => (JBool(if negationFirst then BooleanTextCorrected(s) else BooleanText(s)), BooleanType)
      case _ => (value, TextType)
    else
      match value
      case JString(s) => (JString(TextAnswer(key, s, namesKept)), TextType)
      case _ => (value, TextType)
  }

  /** The conversion as `_validate_and_convert_response` writes it. */
  function ConvertAsWritten(key: string, value: Json): (r: (Json, ResponseType))
    ensures r.1 == NumberType <==> key in NumericFields && value.Scalar()
  {
    ConvertWith(key, value, false, false)
  }

  /** The conversion with both corrections. */
  function Convert(key: string, value: Json): (r: (Json, ResponseType))
    ensures r.1 == NumberType <==> key in NumericFields && value.Scalar()
  {
    ConvertWith(key, value, true, true)
  }

  /** A number written out in digits reads back as that number, in every
      numeric field. */
  lemma NumericTextOfDigits(key: string, n: nat)
    ensures NumericText(key, NatToString(n)) == n as real
  {
    NumericTextOfDigitString(key, NatToString(n));
    NatToStringRoundTrip(n);
  }

  /** A run of digits reads back as its value. */
  lemma NumericTextOfDigitString(key: string, s: string)
    requires AllDigits(s) && s != []
    ensures NumericText(key, s) == DigitsValue(s) as real
  {
    CleanOfDigits(s);
    DigitsNoPhrase(s);
    NumericTextFallsThrough(key, s);
    FirstNumberOfDigits(s);
  }

  /** Digits hold no zero phrase and no `k`. */
  lemma DigitsNoPhrase(s: string)
    requires AllDigits(s)
    ensures !ContainsAny(s, HeatingBillZeroPhrases) && !ContainsAny(s, FlightZeroPhrases) && !Contains(s, "k")
  {
    NoLetters(s, HeatingBillZeroPhrases);
    NoLetters(s, FlightZeroPhrases);
    NotContainedByChar(s, "k", 'k');
  }

  /** Without a zero phrase and without a `k`, the first number decides. */
  lemma NumericTextFallsThrough(key: string, value: string)
    requires Clean(value) == value
    requires !ContainsAny(value, HeatingBillZeroPhrases) && !ContainsAny(value, FlightZeroPhrases)
    requires !Contains(value, "k")
    ensures NumericText(key, value) == FirstNumber(value, 0).GetOr(0.0)
  {
  }

  /** Digits are already clean. */
  lemma CleanOfDigits(s: string)
    requires AllDigits(s) && s != []
    ensures Clean(s) == s
  {
    assert forall i :: 0 <= i < |s| ==> !IsUpperAscii(s[i]);
    LowerFixed(s);
    assert !IsSpace(s[0]) && !IsSpace(s[|s| - 1]);
    StripFixed(s);
  }

  /** No phrase that starts with a letter other than `k` occurs in text
      whose only lower-case letter is `k`. */
  lemma NoLetters(s: string, words: seq<string>)
    requires forall j :: 0 <= j < |s| ==> !IsLowerAscii(s[j]) || s[j] == 'k'
    requires forall i :: 0 <= i < |words| ==> words[i] != [] && IsLowerAscii(words[i][0]) && words[i][0] != 'k'
    ensures !ContainsAny(s, words)
  {
    forall i | 0 <= i < |words| ensures !Contains(s, words[i]) {
      NotContainedByChar(s, words[i], words[i][0]);
    }
  }

  /** The first number in a run of digits is the whole run. */
  lemma FirstNumberOfDigits(s: string)
    requires AllDigits(s) && s != []
    ensures FirstNumber(s, 0) == Some(DigitsValue(s) as real)
  {
    DigitRunAll(s, 0);
    assert s[0..|s|] == s;
  }

  /** Digits from `p` up to `q`, then no digit: the run from `p` ends at `q`. */
  lemma {:induction false} DigitRunTo(s: string, p: nat, q: nat)
    requires p <= q <= |s|
    requires forall m :: p <= m < q ==> IsDigit(s[m])
    requires q == |s| || !IsDigit(s[q])
    ensures DigitRun(s, p) == q - p
    decreases q - p
  {
    if p < q {
      DigitRunTo(s, p + 1, q);
    }
  }

  /** With no digit from `i` until the digit at `p`, the first number is
      the one that starts at `p`. */
  lemma {:induction false} FirstNumberFrom(s: string, i: nat, p: nat)
    requires i <= p < |s| && IsDigit(s[p])
    requires forall m :: i <= m < p ==> !IsDigit(s[m])
    ensures FirstNumber(s, i) == Some(NumberAt(s, p).1)
    decreases p - i
  {
    if i < p {
      FirstNumberFrom(s, i + 1, p);
    }
  }

  /** A whole number in digits, after text without digits and before text
      that does not go on with a digit or a point, is the first number:
      `$40`, `around 40`, `40 dollars`. */
  lemma FirstNumberPrefixed(prefix: string, n: nat, suffix: string)
    requires forall m :: 0 <= m < |prefix| ==> !IsDigit(prefix[m])
    requires suffix == [] || (!IsDigit(suffix[0]) && suffix[0] != '.')
    ensures FirstNumber(prefix + NatToString(n) + suffix, 0) == Some(n as real)
  {
    FirstNumberBetween(prefix, NatToString(n), suffix);
    NatToStringRoundTrip(n);
  }

  /** A run of digits between text without digits and text that does not go
      on with a digit or a point is the first number. */
  lemma FirstNumberBetween(prefix: string, d: string, suffix: string)
    requires AllDigits(d) && d != []
    requires forall m :: 0 <= m < |prefix| ==> !IsDigit(prefix[m])
    requires suffix == [] || (!IsDigit(suffix[0]) && suffix[0] != '.')
    ensures FirstNumber(prefix + d + suffix, 0) == Some(DigitsValue(d) as real)
  {
    var s := prefix + d + suffix;
    var p, e := |prefix|, |prefix| + |d|;
    forall m | 0 <= m < p ensures !IsDigit(s[m]) {
      assert s[m] == prefix[m];
    }
    forall m | p <= m < e ensures IsDigit(s[m]) {
      assert s[m] == d[m - p];
    }
    assert e == |s| || s[e] == suffix[0];
    FirstNumberFrom(s, 0, p);
    DigitRunTo(s, p, e);
    assert s[p..e] == d;
  }

  /** `15k` is already clean. */
  lemma CleanDigitsK(d: string)
    requires AllDigits(d) && d != []
    ensures Clean(d + "k") == d + "k"
  {
    var s := d + "k";
    assert forall i :: 0 <= i < |s| ==> !IsUpperAscii(s[i]);
    LowerFixed(s);
    assert !IsSpace(s[0]) && !IsSpace(s[|s| - 1]);
    StripFixed(s);
  }

  /** `15k` holds a `k` but no zero phrase and no `kwh`. */
  lemma NoZeroPhraseDigitsK(d: string)
    requires AllDigits(d)
    ensures var s := d + "k";
            !ContainsAny(s, HeatingBillZeroPhrases) && !ContainsAny(s, FlightZeroPhrases)
            && Contains(s, "k") && !Contains(s, "kwh")
  {
    var s := d + "k";
    assert forall j :: 0 <= j < |s| ==> !IsLowerAscii(s[j]) || s[j] == 'k';
    NoLetters(s, HeatingBillZeroPhrases);
    NoLetters(s, FlightZeroPhrases);
    NotContainedByChar(s, "kwh", 'w');
    ContainsLast(s);
  }

  /** The last character of a text is found in it. */
  lemma {:induction false} ContainsLast(s: string)
    requires s != []
    ensures Contains(s, [s[|s| - 1]])
    decreases |s|
  {
    if |s| > 1 {
      ContainsLast(s[1..]);
    }
  }

  /** The `k` pattern finds the number in `15k`. */
  lemma ThousandsDigitsK(d: string)
    requires AllDigits(d) && d != []
    ensures Thousands(d + "k", 0) == Some(DigitsValue(d) as real)
  {
    var s, e := d + "k", |d|;
    forall m | 0 <= m < e ensures IsDigit(s[m]) {
      assert s[m] == d[m];
    }
    assert s[e] == 'k';
    DigitRunTo(s, 0, e);
    assert s[0..e] == d;
    assert NumberAt(s, 0) == (e, DigitsValue(d) as real);
    assert SpaceRun(s, e) == 0;
    assert KFollows(s, e);
  }

  /** Without a zero phrase, a `k` outside `kwh` that follows a number
      decides: that number counts thousands. */
  lemma NumericTextCountsThousands(key: string, value: string, v: real)
    requires Clean(value) == value
    requires !ContainsAny(value, HeatingBillZeroPhrases) && !ContainsAny(value, FlightZeroPhrases)
    requires Contains(value, "k") && !Contains(value, "kwh") && Thousands(value, 0) == Some(v)
    ensures NumericText(key, value) == v * 1000.0
  {
    var lower := Clean(value);
    assert !ContainsAny(lower, HeatingBillZeroPhrases) && !ContainsAny(lower, FlightZeroPhrases);
    assert Contains(lower, "k") && !Contains(lower, "kwh") && Thousands(lower, 0) == Some(v);
  }

  /** `about 15k` without the words: a whole number in digits followed by
      `k` counts thousands, in every numeric field. */
  lemma NumericTextThousands(key: string, n: nat)
    ensures NumericText(key, NatToString(n) + "k") == n as real * 1000.0
  {
    NumericTextDigitsK(key, NatToString(n));
    NatToStringRoundTrip(n);
  }

  /** A run of digits followed by `k` counts thousands. */
  lemma NumericTextDigitsK(key: string, d: string)
    requires AllDigits(d) && d != []
    ensures NumericText(key, d + "k") == DigitsValue(d) as real * 1000.0
  {
    CleanDigitsK(d);
    NoZeroPhraseDigitsK(d);
    ThousandsDigitsK(d);
    NumericTextCountsThousands(key, d + "k", DigitsValue(d) as real);
  }

  /** `$40` is already clean. */
  lemma CleanDollars(d: string)
    requires AllDigits(d) && d != []
    ensures Clean("$" + d) == "$" + d
  {
    var s := "$" + d;
    assert forall i :: 0 <= i < |s| ==> !IsUpperAscii(s[i]);
    LowerFixed(s);
    assert !IsSpace(s[0]) && !IsSpace(s[|s| - 1]);
    StripFixed(s);
  }

  /** `$40` holds no zero phrase and no `k`. */
  lemma NoZeroPhraseDollars(d: string)
    requires AllDigits(d)
    ensures var s := "$" + d;
            !ContainsAny(s, HeatingBillZeroPhrases) && !ContainsAny(s, FlightZeroPhrases) && !Contains(s, "k")
  {
    var s := "$" + d;
    assert forall j :: 0 <= j < |s| ==> !IsLowerAscii(s[j]) || s[j] == 'k';
    NoLetters(s, HeatingBillZeroPhrases);
    NoLetters(s, FlightZeroPhrases);
    assert 'k' !in s;
    NotContainedByChar(s, "k", 'k');
  }

  /** `$40`: a dollar sign before a whole number in digits is passed over,
      in every numeric field. */
  lemma NumericTextDollars(key: string, n: nat)
    ensures NumericText(key, "$" + NatToString(n)) == n as real
  {
    NumericTextDollarDigits(key, NatToString(n));
    NatToStringRoundTrip(n);
  }

  /** A dollar sign and a run of digits read as the digits' value. */
  lemma NumericTextDollarDigits(key: string, d: string)
    requires AllDigits(d) && d != []
    ensures NumericText(key, "$" + d) == DigitsValue(d) as real
  {
    FirstNumberDollars(d);
    CleanDollars(d);
    NoZeroPhraseDollars(d);
    NumericTextFirstNumber(key, "$" + d, DigitsValue(d) as real);
  }

  /** In `$40` the first number is 40. */
  lemma FirstNumberDollars(d: string)
    requires AllDigits(d) && d != []
    ensures FirstNumber("$" + d, 0) == Some(DigitsValue(d) as real)
  {
    assert !IsDigit("$"[0]);
    FirstNumberBetween("$", d, []);
    assert "$" + d + [] == "$" + d;
  }

  /** Without a zero phrase and without a `k`, a text whose first number is
      `v` reads as `v`. */
  lemma NumericTextFirstNumber(key: string, value: string, v: real)
    requires Clean(value) == value
    requires !ContainsAny(value, HeatingBillZeroPhrases) && !ContainsAny(value, FlightZeroPhrases)
    requires !Contains(value, "k")
    requires FirstNumber(value, 0) == Some(v)
    ensures NumericText(key, value) == v
  {
    NumericTextFallsThrough(key, value);
  }

  /** Cleaning is idempotent. */
  lemma CleanIdempotent(value: string)
    ensures Clean(Clean(value)) == Clean(value)
  {
    var l := Lower(value);
    StripLower(l);
    LowerIdempotent(value);
    StripIdempotent(l);
  }

  /** Lower-case text without surrounding whitespace is already clean. */
  lemma CleanFixed(s: string)
    requires s != [] && !IsSpace(s[0]) && !IsSpace(s[|s| - 1])
    requires forall i :: 0 <= i < |s| ==> !IsUpperAscii(s[i])
    ensures Clean(s) == s
  {
    LowerFixed(s);
    StripFixed(s);
  }

  /** Each diet category name is clean. */
  lemma DietNameClean(j: nat)
    requires j < |DietTypes|
    ensures Clean(DietTypes[j]) == DietTypes[j]
  {
    CleanFixed(DietTypes[j]);
  }

  /** Each shopping category name is clean. */
  lemma ShoppingNameClean(j: nat)
    requires j < |ShoppingFrequencies|
    ensures Clean(ShoppingFrequencies[j]) == ShoppingFrequencies[j]
  {
    CleanFixed(ShoppingFrequencies[j]);
  }

  /** A text that contains itself. */
  lemma ContainsSelf(s: string)
    ensures Contains(s, s)
  {
    ContainsPrefix(s, s);
  }

  /** Each heating category name is clean. */
  lemma HeatingNameClean(j: nat)
    requires j < |HeatingTypes|
    ensures Clean(HeatingTypes[j]) == HeatingTypes[j]
  {
    CleanFixed(HeatingTypes[j]);
  }

  /** Each housing category name is clean. */
  lemma HousingNameClean(j: nat)
    requires j < |HousingTypes|
    ensures Clean(HousingTypes[j]) == HousingTypes[j]
  {
    CleanFixed(HousingTypes[j]);
  }

  lemma GasKept()
    ensures HeatingType("gas") == "gas"
  {
    ContainsSelf(GasWords[0]);
  }

  lemma ElectricKept()
    ensures HeatingType("electric") == "electric"
  {
    NoneContained("electric", GasWords, ['g', 'g', 'p']);
    ContainsSelf(ElectricWords[0]);
  }

  /** `heat_pump` has none of the heating keywords (they spell the pump with
      a space), so it is kept as it is. */
  lemma HeatPumpKept()
    ensures HeatingType("heat_pump") == "heat_pump"
  {
    NoneContained("heat_pump", GasWords, ['g', 'g', 'o']);
    NoneContained("heat_pump", ElectricWords, ['l', 'l', 'b', 'r']);
    NoneContained("heat_pump", HeatPumpWords, [' ', 'v', 'c']);
    NoneContained("heat_pump", OilWords, ['o', 'i', 'f']);
  }

  lemma OilKept()
    ensures HeatingType("oil") == "oil"
  {
    NoneContained("oil", GasWords, ['g', 'g', 'p']);
    NoneContained("oil", ElectricWords, ['e', 'e', 'b', 'r']);
    NoneContained("oil", HeatPumpWords, ['h', 'h', 'c']);
    ContainsSelf(OilWords[0]);
  }

  /** Every heating category name is classified as itself. */
  lemma HeatingNameKept(j: nat)
    requires j < |HeatingTypes|
    ensures HeatingType(HeatingTypes[j]) == HeatingTypes[j]
  {
    if j == 0 { GasKept(); }
    else if j == 1 { ElectricKept(); }
    else if j == 2 { HeatPumpKept(); }
    else { OilKept(); }
  }

  lemma HouseKept()
    ensures HousingType("house") == "house"
  {
    ContainsSelf(HouseWords[0]);
  }

  lemma ApartmentKept()
    ensures HousingType("apartment") == "apartment"
  {
    NoneContained("apartment", HouseWords, ['h', 'h', 's', 'd', 's']);
    ContainsSelf(ApartmentWords[0]);
  }

  lemma CondoKept()
    ensures HousingType("condo") == "condo"
  {
    NoneContained("condo", HouseWords, ['h', 'h', 's', 'e', 's']);
    NoneContained("condo", ApartmentWords, ['a', 'a', 'f', 'u', 'm']);
    ContainsSelf(CondoWords[0]);
  }

  /** Every housing category name is classified as itself. */
  lemma HousingNameKept(j: nat)
    requires j < |HousingTypes|
    ensures HousingType(HousingTypes[j]) == HousingTypes[j]
  {
    if j == 0 { HouseKept(); }
    else if j == 1 { ApartmentKept(); }
    else { CondoKept(); }
  }

  /** A heating answer, once classified, is classified the same again. */
  lemma HeatingTypeIdempotent(value: string)
    ensures var r := HeatingType(Clean(value)); HeatingType(Clean(r)) == r
  {
    var c := Clean(value);
    var r := HeatingType(c);
    if r in HeatingTypes {
      var j :| 0 <= j < |HeatingTypes| && HeatingTypes[j] == r;
      HeatingNameClean(j);
      HeatingNameKept(j);
      assert HeatingType(Clean(r)) == r;
    } else {
      CleanIdempotent(value);
      assert Clean(r) == r;
    }
  }

  /** A housing answer, once classified, is classified the same again. */
  lemma HousingTypeIdempotent(value: string)
    ensures var r := HousingType(Clean(value)); HousingType(Clean(r)) == r
  {
    var c := Clean(value);
    var r := HousingType(c);
    if r in HousingTypes {
      var j :| 0 <= j < |HousingTypes| && HousingTypes[j] == r;
      HousingNameClean(j);
      HousingNameKept(j);
      assert HousingType(Clean(r)) == r;
    } else {
      CleanIdempotent(value);
      assert Clean(r) == r;
    }
  }

  /** With the category names recognised, a text answer converted once is
      converted to itself again. */
  lemma TextAnswerIdempotent(key: string, value: string)
    ensures var t := TextAnswer(key, value, true); TextAnswer(key, t, true) == t
  {
    if key == "diet_type" {
      DietAnswerIdempotent(value);
    } else if key == "heating_type" {
      HeatingTypeIdempotent(value);
    } else if key == "shopping_frequency" {
      ShoppingAnswerIdempotent(value);
    } else if key == "housing_type" {
      HousingTypeIdempotent(value);
    } else if key == "state" {
      StateCodeIdempotent(value);
    } else {
      StripIdempotent(value);
    }
  }

  /** A diet answer, once classified, is classified the same again. */
  lemma DietAnswerIdempotent(value: string)
    ensures var r := DietTypeCorrected(Clean(value)); DietTypeCorrected(Clean(r)) == r
  {
    var r := DietTypeCorrected(Clean(value));
    var j :| 0 <= j < |DietTypes| && DietTypes[j] == r;
    DietNameClean(j);
  }

  /** A shopping answer, once classified, is classified the same again. */
  lemma ShoppingAnswerIdempotent(value: string)
    ensures var r := ShoppingFrequencyCorrected(Clean(value)); ShoppingFrequencyCorrected(Clean(r)) == r
  {
    var r := ShoppingFrequencyCorrected(Clean(value));
    var j :| 0 <= j < |ShoppingFrequencies| && ShoppingFrequencies[j] == r;
    ShoppingNameClean(j);
  }

  /** The corrected conversion is idempotent: a stored answer, read back and
      converted again, keeps its value and its type. */
  lemma ConvertIdempotent(key: string, value: Json)
    ensures Convert(key, Convert(key, value).0) == Convert(key, value)
  {
    if key !in NumericFields && key !in BooleanFields && value.JString? {
      TextAnswerIdempotent(key, value.s);
    }
  }

  /** As written, a string for a text field is the text answer with the
      category names not recognised. */
  lemma TextFieldAsWritten(key: string, value: string)
    requires key !in NumericFields && key !in BooleanFields
    ensures ConvertAsWritten(key, JString(value)) == (JString(TextAnswer(key, value, false)), TextType)
  {
  }

  /** As written, a diet answer is classified by keyword alone. */
  lemma DietAsWritten(value: string)
    ensures ConvertAsWritten("diet_type", JString(value)) == (JString(DietType(Clean(value))), TextType)
  {
    assert "diet_type" !in NumericFields && "diet_type" !in BooleanFields;
    TextFieldAsWritten("diet_type", value);
    assert TextAnswer("diet_type", value, false) == DietType(Clean(value));
  }

  lemma DietRewritten(c: string, d: string)
    requires Clean(c) == c && DietType(c) == d
    ensures ConvertAsWritten("diet_type", JString(c)) == (JString(d), TextType)
  {
    DietAsWritten(c);
  }

  /** As written, a shopping answer is classified by keyword alone. */
  lemma ShoppingAsWritten(value: string)
    ensures ConvertAsWritten("shopping_frequency", JString(value)) == (JString(ShoppingFrequency(Clean(value))), TextType)
  {
    assert "shopping_frequency" !in NumericFields && "shopping_frequency" !in BooleanFields;
    TextFieldAsWritten("shopping_frequency", value);
    assert "shopping_frequency" != "diet_type" && "shopping_frequency" != "heating_type";
    assert TextAnswer("shopping_frequency", value, false) == ShoppingFrequency(Clean(value));
  }

  /** A diet answer with none of the keywords is moderate. */
  lemma DietOther(c: string)
    requires !ContainsAny(c, VeganWords) && !ContainsAny(c, VegetarianWords)
    requires !ContainsAny(c, HeavyMeatWords) && !ContainsAny(c, LightMeatWords)
    ensures DietType(c) == "moderate_meat"
  {
  }

  /** As written, the diet category `heavy_meat` itself is stored as
      `moderate_meat`: its underscore keeps the keyword `heavy meat` from
      matching. */
  lemma HeavyMeatRewritten()
    ensures ConvertAsWritten("diet_type", JString("heavy_meat")) == (JString("moderate_meat"), TextType)
  {
    DietNameClean(4);
    HeavyMeatModerate();
    DietRewritten("heavy_meat", "moderate_meat");
  }

  lemma HeavyMeatModerate()
    ensures DietType("heavy_meat") == "moderate_meat"
  {
    HeavyMeatNotInVeganWords();
    HeavyMeatNotInVegetarianWords();
    HeavyMeatNotInHeavyMeatWords();
    HeavyMeatNotInLightMeatWords();
    DietOther("heavy_meat");
  }

  lemma HeavyMeatNotInVeganWords()
    ensures !ContainsAny("heavy_meat", VeganWords)
  {
    NoneContained("heavy_meat", VeganWords, ['g', 'p', 'n']);
  }

  lemma HeavyMeatNotInVegetarianWords()
    ensures !ContainsAny("heavy_meat", VegetarianWords)
  {
    NoneContained("heavy_meat", VegetarianWords, ['g', 'g', 'n', 'p']);
  }

  lemma HeavyMeatNotInHeavyMeatWords()
    ensures !ContainsAny("heavy_meat", HeavyMeatWords)
  {
    NoneContained("heavy_meat", HeavyMeatWords, [' ', 'l', 'l', 'c', 'b', 's', 'u']);
  }

  lemma HeavyMeatNotInLightMeatWords()
    ensures !ContainsAny("heavy_meat", LightMeatWords)
  {
    NoneContained("heavy_meat", LightMeatWords, ['l', 'l', 'f', 'o', 'r', 'w']);
  }

  /** As written, the diet category `light_meat` is classified as
      `moderate_meat`, so `DietAsWritten` stores it as that. */
  lemma LightMeatModerate()
    ensures DietType("light_meat") == "moderate_meat"
  {
    LightMeatNotInVeganWords();
    LightMeatNotInVegetarianWords();
    LightMeatNotInHeavyMeatWords();
    LightMeatNotInLightMeatWords();
    DietOther("light_meat");
  }

  lemma LightMeatNotInVeganWords()
    ensures !ContainsAny("light_meat", VeganWords)
  {
    NoneContained("light_meat", VeganWords, ['v', 'p', 'n']);
  }

  lemma LightMeatNotInVegetarianWords()
    ensures !ContainsAny("light_meat", VegetarianWords)
  {
    NoneContained("light_meat", VegetarianWords, ['v', 'v', 'n', 'p']);
  }

  lemma LightMeatNotInHeavyMeatWords()
    ensures !ContainsAny("light_meat", HeavyMeatWords)
  {
    NoneContained("light_meat", HeavyMeatWords, ['v', 'o', 'o', 'c', 'b', 's', 'u']);
  }

  lemma LightMeatNotInLightMeatWords()
    ensures !ContainsAny("light_meat", LightMeatWords)
  {
    NoneContained("light_meat", LightMeatWords, [' ', ' ', 'f', 'o', 'r', 'w']);
  }

  /** As written, the shopping category `very_high` is stored as `high`. */
  lemma VeryHighRewritten()
    ensures ConvertAsWritten("shopping_frequency", JString("very_high")) == (JString("high"), TextType)
  {
    ShoppingNameClean(3);
    VeryHighHigh();
    ShoppingAsWritten("very_high");
  }

  lemma VeryHighHigh()
    ensures ShoppingFrequency("very_high") == "high"
  {
    var c := "very_high";
    NoneContained(c, VeryHighWords, [' ', 'x', 'd', ' ', 'a', 'c']);
    ContainsSelf(c);
    ContainsPiece(c, c, 5, 9);
    assert c[5..9] == HighWords[0];
  }
}
