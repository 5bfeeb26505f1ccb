/** The one piece of arithmetic the bot adds to the figures it fetches: the
    recovered count of a state, derived from the other counts. */
module Stats {

  /** The counts a state record carries. `recovered` is the derived field. */
  datatype StateFigures = StateFigures(cases: int, todayCases: int, deaths: int, todayDeaths: int,
                                       active: int, recovered: int)

  /** Cases that are neither deaths nor still active count as recovered. */
  function Recovered(cases: int, deaths: int, active: int): (r: int)
    ensures r + deaths + active == cases
    ensures r >= 0 <==> deaths + active <= cases
  {
    cases - deaths - active
  }

  /** The scheduled update overwrites a record's recovered field with the
      derived count and leaves every other field alone. */
  function WithRecovered(f: StateFigures): (g: StateFigures)
    ensures g.recovered + g.deaths + g.active == g.cases
    ensures g == f.(recovered := g.recovered)
  {
    f.(recovered := Recovered(f.cases, f.deaths, f.active))
  }
}
