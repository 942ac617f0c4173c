/** The state a user names, reduced to its two-letter postal code. */
module StateCodes {
  import opened Outcomes
  import opened Strings
  import opened Dicts

  /** Lower-case state names and their postal codes, in alphabetical order
      (kept as five groups of ten). */
  const StateNames: Dict<string, string> := StatesAlToGa + StatesHiToMd + StatesMaToNj + StatesNmToSc + StatesSdToWy

  const StatesAlToGa: Dict<string, string> := [
    ("alabama", "AL"), ("alaska", "AK"), ("arizona", "AZ"), ("arkansas", "AR"), ("california", "CA"),
    ("colorado", "CO"), ("connecticut", "CT"), ("delaware", "DE"), ("florida", "FL"), ("georgia", "GA")]
  const StatesHiToMd: Dict<string, string> := [
    ("hawaii", "HI"), ("idaho", "ID"), ("illinois", "IL"), ("indiana", "IN"), ("iowa", "IA"),
    ("kansas", "KS"), ("kentucky", "KY"), ("louisiana", "LA"), ("maine", "ME"), ("maryland", "MD")]
  const StatesMaToNj: Dict<string, string> := [
    ("massachusetts", "MA"), ("michigan", "MI"), ("minnesota", "MN"), ("mississippi", "MS"), ("missouri", "MO"),
    ("montana", "MT"), ("nebraska", "NE"), ("nevada", "NV"), ("new hampshire", "NH"), ("new jersey", "NJ")]
  const StatesNmToSc: Dict<string, string> := [
    ("new mexico", "NM"), ("new york", "NY"), ("north carolina", "NC"), ("north dakota", "ND"), ("ohio", "OH"),
    ("oklahoma", "OK"), ("oregon", "OR"), ("pennsylvania", "PA"), ("rhode island", "RI"), ("south carolina", "SC")]
  const StatesSdToWy: Dict<string, string> := [
    ("south dakota", "SD"), ("tennessee", "TN"), ("texas", "TX"), ("utah", "UT"), ("vermont", "VT"),
    ("virginia", "VA"), ("washington", "WA"), ("west virginia", "WV"), ("wisconsin", "WI"), ("wyoming", "WY")]

  /** Two upper-case ASCII letters. */
  predicate IsPostalCode(code: string) {
    |code| == 2 && IsUpperAscii(code[0]) && IsUpperAscii(code[1])
  }

  /** The state answer as stored: a two-character answer is taken for a code
      and upper-cased; a known state name, in any case and with any
      surrounding whitespace, becomes its code; anything else is kept,
      stripped. */
  function StateCode(value: string): (r: string)
    ensures |Strip(value)| == 2 ==> r == Upper(Strip(value))
    ensures |Strip(value)| != 2 && Find(StateNames, Strip(Lower(value))).None? ==> r == Strip(value)
  {
    var stripped := Strip(value);
    if |stripped| == 2 then Upper(stripped)
    else match Find(StateNames, Strip(Lower(value)))
      case Some(code) => code
      case None => stripped
  }

  lemma StatesAlToGaCodes(i: nat)
    requires i < |StatesAlToGa|
    ensures IsPostalCode(StatesAlToGa[i].1)
  {
  }

  lemma StatesHiToMdCodes(i: nat)
    requires i < |StatesHiToMd|
    ensures IsPostalCode(StatesHiToMd[i].1)
  {
  }

  lemma StatesMaToNjCodes(i: nat)
    requires i < |StatesMaToNj|
    ensures IsPostalCode(StatesMaToNj[i].1)
  {
  }

  lemma StatesNmToScCodes(i: nat)
    requires i < |StatesNmToSc|
    ensures IsPostalCode(StatesNmToSc[i].1)
  {
  }

  lemma StatesSdToWyCodes(i: nat)
    requires i < |StatesSdToWy|
    ensures IsPostalCode(StatesSdToWy[i].1)
  {
  }

  /** Every code in the table is two upper-case letters. */
  lemma TableCodes(name: string)
    requires Find(StateNames, name).Some?
    ensures IsPostalCode(Find(StateNames, name).value)
  {
    forall i | 0 <= i < |StateNames| ensures IsPostalCode(StateNames[i].1) {
      if i < 10 { StatesAlToGaCodes(i); }
      else if i < 20 { StatesHiToMdCodes(i - 10); }
      else if i < 30 { StatesMaToNjCodes(i - 20); }
      else if i < 40 { StatesNmToScCodes(i - 30); }
      else { StatesSdToWyCodes(i - 40); }
    }
  }

  /** A recognised state name always becomes a postal code. */
  lemma KnownStateCode(value: string)
    requires |Strip(value)| != 2 && Find(StateNames, Strip(Lower(value))).Some?
    ensures IsPostalCode(StateCode(value))
  {
    TableCodes(Strip(Lower(value)));
  }

  /** A postal code is left as it is. */
  lemma PostalCodeKept(code: string)
    requires IsPostalCode(code)
    ensures StateCode(code) == code
  {
    PostalCodeClean(code);
  }

  lemma PostalCodeClean(code: string)
    requires IsPostalCode(code)
    ensures Strip(code) == code && Upper(code) == code
  {
    PostalCodeStripped(code);
    PostalCodeUpper(code);
  }

  lemma PostalCodeStripped(code: string)
    requires IsPostalCode(code)
    ensures Strip(code) == code
  {
    assert !IsSpace(code[0]) && !IsSpace(code[1]);
    StripFixed(code);
  }

  lemma PostalCodeUpper(code: string)
    requires IsPostalCode(code)
    ensures Upper(code) == code
  {
    assert Upper(code)[0] == code[0] && Upper(code)[1] == code[1];
  }

  /** Upper-casing text without surrounding whitespace adds none. */
  lemma UpperStripped(t: string)
    requires |t| == 2 && !IsSpace(t[0]) && !IsSpace(t[1])
    ensures Strip(Upper(t)) == Upper(t)
  {
    var u := Upper(t);
    assert !IsSpace(u[0]) && !IsSpace(u[1]);
    StripFixed(u);
  }

  /** A two-character answer, once upper-cased, is kept as it is. */
  lemma TwoCharacterKept(value: string)
    requires |Strip(value)| == 2
    ensures StateCode(StateCode(value)) == StateCode(value)
  {
    var t := Strip(value);
    UpperStripped(t);
    UpperIdempotent(t);
    CodeKept(Upper(t));
  }

  /** Upper-cased, stripped, two-character text is its own code. */
  lemma CodeKept(u: string)
    requires |u| == 2 && Strip(u) == u && Upper(u) == u
    ensures StateCode(u) == u
  {
  }

  /** An unknown name, once stripped, is still unknown and kept. */
  lemma UnknownKept(value: string)
    requires |Strip(value)| != 2 && Find(StateNames, Strip(Lower(value))).None?
    ensures StateCode(StateCode(value)) == StateCode(value)
  {
    var stripped := Strip(value);
    assert StateCode(value) == stripped;
    StripIdempotent(value);
    StripLower(stripped);
    StripLower(value);
    assert Strip(Lower(stripped)) == Strip(Lower(value));
  }

  /** Converting a converted answer again changes nothing. */
  lemma StateCodeIdempotent(value: string)
    ensures StateCode(StateCode(value)) == StateCode(value)
  {
    if |Strip(value)| == 2 {
      TwoCharacterKept(value);
    } else if Find(StateNames, Strip(Lower(value))).Some? {
      KnownStateCode(value);
      PostalCodeKept(StateCode(value));
    } else {
      UnknownKept(value);
    }
  }
}
