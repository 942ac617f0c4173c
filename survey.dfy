/** Survey answers as the recommendation engines see them: a dictionary per
    survey section whose values may be numbers, text or booleans. Python
    decides at run time what an operation on such a value does, so the
    operations that can raise are modelled as `Result`s. */
module Survey {
  import opened Outcomes
  import opened Strings
  import opened Numbers

  datatype Answer = Num(n: real) | Text(s: string) | Flag(b: bool)

  type Section = map<string, Answer>
  type Responses = map<string, Section>

  /** `responses.get(name, {})` */
  function SectionOf(responses: Responses, name: string): (sec: Section)
    ensures name !in responses ==> sec == map[]
  {
    if name in responses then responses[name] else map[]
  }

  /** `section.get(key, default)` */
  function Get(sec: Section, key: string, default: Answer): (a: Answer)
    ensures key in sec ==> a == sec[key]
    ensures key !in sec ==> a == default
  {
    if key in sec then sec[key] else default
  }

  /** `section.get(key)`: `None` for a missing key. */
  function Lookup(sec: Section, key: string): (a: Option<Answer>)
    ensures a.Some? <==> key in sec
  {
    if key in sec then Some(sec[key]) else None
  }

  /** Python truthiness: non-zero numbers, non-empty text, `True`. */
  predicate Truthy(a: Answer) {
    match a
    case Num(n) => n != 0.0
    case Text(s) => s != []
    case Flag(b) => b
  }

  predicate TruthyOpt(a: Option<Answer>) {
    a.Some? && Truthy(a.value)
  }

  /** The value in arithmetic and ordering comparisons: a boolean counts as
      0 or 1, while text against a number raises TypeError. */
  function Numeric(a: Answer): (r: Result<real>)
    ensures r.Err? <==> a.Text?
    ensures a.Num? ==> r == Ok(a.n)
    ensures a.Flag? ==> r == Ok(if a.b then 1.0 else 0.0)
  {
    match a
    case Num(n) => Ok(n)
    case Flag(b) => Ok(if b then 1.0 else 0.0)
    case Text(_) => Err(TypeMismatch)
  }

  /** `value.lower()`: only text has the method. */
  function Lowered(a: Answer): (r: Result<string>)
    ensures r.Err? <==> !a.Text?
    ensures a.Text? ==> r == Ok(Lower(a.s))
  {
    if a.Text? then Ok(Lower(a.s)) else Err(TypeMismatch)
  }

  /** `float(value)`: `None` where Python raises ValueError. Only text can
      raise; text is read as decimal text by `ParseFloat`. */
  function FloatOf(a: Answer): (r: Option<real>)
    ensures a.Num? ==> r == Some(a.n)
    ensures a.Flag? ==> r == Some(if a.b then 1.0 else 0.0)
    ensures r.None? ==> a.Text?
    ensures a.Text? ==> r == ParseFloat(a.s)
  {
    match a
    case Num(n) => Some(n)
    case Flag(b) => Some(if b then 1.0 else 0.0)
    case Text(s) => ParseFloat(s)
  }

  /** Whatever `float()` accepts without raising, it reads as `Numeric` does. */
  lemma FloatOfNumeric(a: Answer, v: real)
    requires Numeric(a) == Ok(v)
    ensures FloatOf(a) == Some(v)
  {
  }

  /** A whole number stored as text converts back to that number. */
  lemma FloatOfDigitsText(n: nat)
    ensures FloatOf(Text(NatToString(n))) == Some(n as real)
  {
    ParseFloatOfDigits(n);
  }

  /** `x / y` on numbers: dividing by zero raises ZeroDivisionError. */
  function Divide(x: real, y: real): (r: Result<real>)
    ensures r.Err? <==> y == 0.0
    ensures r.Ok? ==> r.value * y == x
  {
    if y == 0.0 then Err(DivisionByZero) else Ok(x / y)
  }

  /** `str(value)` of an optional answer. */
  function Show(a: Option<Answer>): (s: string)
    ensures a == None ==> s == "None"
    ensures a.Some? && a.value.Text? ==> s == a.value.s
    ensures a.Some? && a.value.Num? && a.value.n >= 0.0 && a.value.n == a.value.n.Floor as real
            ==> s == NatToString(a.value.n.Floor)
  {
    match a
    case None => "None"
    case Some(Num(n)) => ShowNumber(n)
    case Some(Text(s)) => s
    case Some(Flag(b)) => if b then "True" else "False"
  }
}
