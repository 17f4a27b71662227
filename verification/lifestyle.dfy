/** An enum-indexed reference for the quiz: the three choices each picker
    offers and the annual emissions of every choice written out in
    kilograms. The string-keyed calculator in `EcoQuiz` is proved to agree
    with it for every recognised selection. */
module Lifestyle {
  import opened Wrappers

  datatype Commute = WalkBike | Car | PublicTransport
  datatype Diet = Veggie | Mixed | Carnivore
  datatype Energy = Renewable | NonRenewable | Mix

  /** A quiz answer whose pickers all hold one of their offered tags, with
      the flight count as the number the flight text parsed to. */
  datatype Profile = Profile(commute: Commute, flights: real, diet: Diet, energy: Energy)

  /** The tag each picker stores for a choice. */
  function CommuteLabel(c: Commute): string {
    match c
    case WalkBike => "Walk/Bike"
    case Car => "Car"
    case PublicTransport => "Public Transport"
  }

  function DietLabel(d: Diet): string {
    match d
    case Veggie => "Veggie"
    case Mixed => "Mixed"
    case Carnivore => "Carnivore"
  }

  function EnergyLabel(e: Energy): string {
    match e
    case Renewable => "Renewable"
    case NonRenewable => "Non-Renewable"
    case Mix => "Mix"
  }

  /** Reads a picker tag back; any other text is not a choice. */
  function ParseCommute(s: string): (r: Option<Commute>)
    ensures r.Some? ==> CommuteLabel(r.value) == s
    ensures forall c :: CommuteLabel(c) == s ==> r == Some(c)
  {
    if s == "Walk/Bike" then Some(WalkBike)
    else if s == "Car" then Some(Car)
    else if s == "Public Transport" then Some(PublicTransport)
    else None
  }

  function ParseDiet(s: string): (r: Option<Diet>)
    ensures r.Some? ==> DietLabel(r.value) == s
    ensures forall d :: DietLabel(d) == s ==> r == Some(d)
  {
    if s == "Veggie" then Some(Veggie)
    else if s == "Mixed" then Some(Mixed)
    else if s == "Carnivore" then Some(Carnivore)
    else None
  }

  function ParseEnergy(s: string): (r: Option<Energy>)
    ensures r.Some? ==> EnergyLabel(r.value) == s
    ensures forall e :: EnergyLabel(e) == s ==> r == Some(e)
  {
    if s == "Renewable" then Some(Renewable)
    else if s == "Non-Renewable" then Some(NonRenewable)
    else if s == "Mix" then Some(Mix)
    else None
  }

  /** Annual emissions of each choice in kilograms, already multiplied out
      (52 weeks of commuting, 365 days of diet and of home energy). */
  function AnnualCommuteKg(c: Commute): real {
    match c
    case WalkBike => 0.0
    case Car => 239.2
    case PublicTransport => 124.8
  }

  function AnnualDietKg(d: Diet): real {
    match d
    case Veggie => 1277.5
    case Mixed => 2007.5
    case Carnivore => 2737.5
  }

  function AnnualEnergyKg(e: Energy): real {
    match e
    case Renewable => 0.0
    case NonRenewable => 2920.0
    case Mix => 1460.0
  }

  /** 90 kg for every flight. */
  function AnnualFlightKg(flights: real): real {
    90.0 * flights
  }

  function AnnualKg(p: Profile): (r: real)
    ensures p.flights >= 0.0 ==> r >= 1277.5
  {
    AnnualCommuteKg(p.commute) + AnnualFlightKg(p.flights) + AnnualDietKg(p.diet) + AnnualEnergyKg(p.energy)
  }
}
