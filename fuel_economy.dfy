/** The fuel economy both analyzers assume for the user's vehicle: the
    first matching row of the fuel-economy table, or a typical figure for
    a truck or SUV. */
module FuelEconomy {
  import opened Outcomes
  import opened Strings
  import opened Survey
  import opened CarbonCalc

  const TruckWords := ["truck", "suv", "suburban", "tahoe", "escalade", "navigator",
                       "expedition", "f-150", "silverado", "ram", "tundra", "titan"]
  const TruckMpg := 20.0

  /** The fuel economy of the first matching vehicle row or, for a make and
      model that name a truck or SUV, 20 MPG; `None` when neither is known. */
  function EstimatedMpg(t: Tables, year: Option<Answer>, make: string, model: string): (r: Option<real>)
    ensures MpgOf(t, year, make, model).Some? ==> r == MpgOf(t, year, make, model)
    ensures MpgOf(t, year, make, model).None? ==>
              (r.Some? <==> ContainsAny(make + " " + model, TruckWords)) && (r.Some? ==> r.value == TruckMpg)
  {
    match MpgOf(t, year, make, model)
    case Some(mpg) => Some(mpg)
    case None => if ContainsAny(make + " " + model, TruckWords) then Some(TruckMpg) else None
  }
}
