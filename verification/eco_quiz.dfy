/** The quiz view model: the five form fields, the string-keyed emission
    tables and `calculateFootprint`, which turns the form into a total in
    tonnes of CO2 per year and a score from 1 (worst) to 3 (best) for each of
    the four improvement areas. */
module EcoQuiz {
  import opened Wrappers
  import opened Lifestyle

  /** What one submission yields: the annual total in tonnes and the score of
      each improvement area. */
  datatype QuizResult = QuizResult(totalCO2: real, improvementAreas: map<string, int>)

  /** The form as the user left it. The flight count is still text. */
  datatype EcoQuizViewModel = EcoQuizViewModel(
    selectedCountry: string,
    selectedCommute: string,
    flightFrequency: string,
    selectedDiet: string,
    selectedEnergy: string)

  /** The form before the user touches it. */
  const InitialForm := EcoQuizViewModel("USA", "Walk/Bike", "0", "Veggie", "Renewable")

  /** Swift's `Double(String)` initialiser, whose grammar is not modelled:
      it yields a number or nothing. */
  type DoubleParser = string -> Option<real>

  /** Emission factors per unit: commuting per week, flying per flight,
      diet and home energy per day. */
  const CommuteEmissions: map<string, real> := map["Walk/Bike" := 0.0, "Car" := 4.6, "Public Transport" := 2.4]
  const FlightEmissions: real := 90.0
  const DietEmissions: map<string, real> := map["Veggie" := 3.5, "Mixed" := 5.5, "Carnivore" := 7.5]
  const EnergyEmissions: map<string, real> := map["Renewable" := 0.0, "Non-Renewable" := 8.0, "Mix" := 4.0]

  const WeeksPerYear: real := 52.0
  const DaysPerYear: real := 365.0
  const KgPerTonne: real := 1000.0

  /** The four improvement areas, in the order the results screen lists them. */
  const Areas: seq<string> := ["Commute", "Flying", "Diet", "Home Energy"]

  /** `table[key] ?? 0`: a key the table lacks contributes nothing. */
  function Lookup(table: map<string, real>, key: string): (r: real)
    ensures key in table ==> r == table[key]
    ensures key !in table ==> r == 0.0
  {
    if key in table then table[key] else 0.0
  }

  /** `Double(flightFrequency) ?? 0`: text that does not parse counts as no flights. */
  function AnnualFlights(vm: EcoQuizViewModel, parseDouble: DoubleParser): real {
    parseDouble(vm.flightFrequency).GetOr(0.0)
  }

  function AnnualCommuteEmissions(vm: EcoQuizViewModel): real {
    Lookup(CommuteEmissions, vm.selectedCommute) * WeeksPerYear
  }

  function AnnualFlightEmissions(vm: EcoQuizViewModel, parseDouble: DoubleParser): real {
    AnnualFlights(vm, parseDouble) * FlightEmissions
  }

  function AnnualDietEmissions(vm: EcoQuizViewModel): real {
    Lookup(DietEmissions, vm.selectedDiet) * DaysPerYear
  }

  function AnnualEnergyEmissions(vm: EcoQuizViewModel): real {
    Lookup(EnergyEmissions, vm.selectedEnergy) * DaysPerYear
  }

  /** Commute score: Walk/Bike 3, Public Transport 2, anything else 1. */
  function CommuteScore(commute: string): (s: int)
    ensures 1 <= s <= 3
    ensures s == 3 <==> commute == CommuteLabel(WalkBike)
    ensures s == 2 <==> commute == CommuteLabel(PublicTransport)
    ensures commute !in CommuteEmissions ==> s == 1
  {
    if commute == "Walk/Bike" then 3 else if commute == "Public Transport" then 2 else 1
  }

  /** Flying score: at most two flights scores 3, more scores 1; never 2. */
  function FlyingScore(annualFlights: real): (s: int)
    ensures s == 1 || s == 3
    ensures s == 3 <==> annualFlights <= 2.0
  {
    if annualFlights <= 2.0 then 3 else 1
  }

  /** Diet score: Veggie 3, Mixed 2, anything else 1. */
  function DietScore(diet: string): (s: int)
    ensures 1 <= s <= 3
    ensures s == 3 <==> diet == DietLabel(Veggie)
    ensures s == 2 <==> diet == DietLabel(Mixed)
    ensures diet !in DietEmissions ==> s == 1
  {
    if diet == "Veggie" then 3 else if diet == "Mixed" then 2 else 1
  }

  /** Home energy score: Renewable 3, Mix 2, anything else 1. */
  function EnergyScore(energy: string): (s: int)
    ensures 1 <= s <= 3
    ensures s == 3 <==> energy == EnergyLabel(Renewable)
    ensures s == 2 <==> energy == EnergyLabel(Mix)
    ensures energy !in EnergyEmissions ==> s == 1
  {
    if energy == "Renewable" then 3 else if energy == "Mix" then 2 else 1
  }

  /** The score of each improvement area, keyed by its name. */
  function ImprovementAreas(vm: EcoQuizViewModel, annualFlights: real): (m: map<string, int>)
    ensures m.Keys == {"Commute", "Flying", "Diet", "Home Energy"}
    ensures forall a :: a in m ==> 1 <= m[a] <= 3
    ensures m["Flying"] != 2
    ensures m["Flying"] == 3 <==> annualFlights <= 2.0
  {
    map[
      "Commute" := CommuteScore(vm.selectedCommute),
      "Flying" := FlyingScore(annualFlights),
      "Diet" := DietScore(vm.selectedDiet),
      "Home Energy" := EnergyScore(vm.selectedEnergy)]
  }

  /** The footprint of one submission. The country field is never read. */
  function CalculateFootprint(vm: EcoQuizViewModel, parseDouble: DoubleParser): (r: QuizResult)
    ensures r.improvementAreas.Keys == {"Commute", "Flying", "Diet", "Home Energy"}
    ensures forall a :: a in r.improvementAreas ==> 1 <= r.improvementAreas[a] <= 3
    ensures r.improvementAreas["Flying"] != 2
    ensures r.improvementAreas["Flying"] == 3 <==> AnnualFlights(vm, parseDouble) <= 2.0
    ensures AnnualFlights(vm, parseDouble) >= 0.0 ==> r.totalCO2 >= 0.0
  {
    var totalAnnualEmissions :=
      AnnualCommuteEmissions(vm) + AnnualFlightEmissions(vm, parseDouble)
      + AnnualDietEmissions(vm) + AnnualEnergyEmissions(vm);
    QuizResult(totalAnnualEmissions / KgPerTonne, ImprovementAreas(vm, AnnualFlights(vm, parseDouble)))
  }
}
