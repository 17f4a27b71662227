/** Properties of `EcoQuiz.CalculateFootprint` that relate several calls, or
    relate the string-keyed tables to the enum-indexed reference. */
module FootprintProperties {
  import opened Wrappers
  import opened Lifestyle
  import opened EcoQuiz

  /** Looking a picker tag up in its table and annualising gives the
      reference's annual kilograms for that choice; text that is no tag
      looks up as 0. */
  lemma LookupMatchesReference(c: Commute, d: Diet, e: Energy, s: string)
    ensures Lookup(CommuteEmissions, CommuteLabel(c)) * WeeksPerYear == AnnualCommuteKg(c)
    ensures Lookup(DietEmissions, DietLabel(d)) * DaysPerYear == AnnualDietKg(d)
    ensures Lookup(EnergyEmissions, EnergyLabel(e)) * DaysPerYear == AnnualEnergyKg(e)
    ensures ParseCommute(s).None? ==> Lookup(CommuteEmissions, s) == 0.0
    ensures ParseDiet(s).None? ==> Lookup(DietEmissions, s) == 0.0
    ensures ParseEnergy(s).None? ==> Lookup(EnergyEmissions, s) == 0.0
  {
  }

  /** A selection has an emission factor exactly when it is one of the tags
      its picker offers. */
  lemma TablesCoverPickerTags(s: string)
    ensures s in CommuteEmissions <==> ParseCommute(s).Some?
    ensures s in DietEmissions <==> ParseDiet(s).Some?
    ensures s in EnergyEmissions <==> ParseEnergy(s).Some?
  {
  }

  /** For a form whose pickers all hold offered tags and whose flight text
      parses, the calculator agrees with the enum-indexed reference: the
      total is the reference's annual kilograms over 1000, and each area is
      scored from its choice's tag. */
  lemma FootprintMatchesReference(vm: EcoQuizViewModel, parseDouble: DoubleParser, p: Profile)
    requires vm.selectedCommute == CommuteLabel(p.commute)
    requires vm.selectedDiet == DietLabel(p.diet)
    requires vm.selectedEnergy == EnergyLabel(p.energy)
    requires parseDouble(vm.flightFrequency) == Some(p.flights)
    ensures CalculateFootprint(vm, parseDouble).totalCO2 == AnnualKg(p) / 1000.0
    ensures CalculateFootprint(vm, parseDouble).improvementAreas == map[
      "Commute" := CommuteScore(CommuteLabel(p.commute)),
      "Flying" := FlyingScore(p.flights),
      "Diet" := DietScore(DietLabel(p.diet)),
      "Home Energy" := EnergyScore(EnergyLabel(p.energy))]
  {
  }

  /** The country field has no influence on the result. */
  lemma CountryIsIgnored(vm: EcoQuizViewModel, parseDouble: DoubleParser, country: string)
    ensures CalculateFootprint(vm.(selectedCountry := country), parseDouble) == CalculateFootprint(vm, parseDouble)
  {
  }

  /** An unrecognised commute contributes no emissions, so it totals like
      Walk/Bike; its score falls to 1 and the other three scores are the
      same as for Walk/Bike. */
  lemma UnrecognisedCommuteEmitsNothing(vm: EcoQuizViewModel, parseDouble: DoubleParser)
    requires vm.selectedCommute !in CommuteEmissions
    ensures CalculateFootprint(vm, parseDouble).totalCO2
         == CalculateFootprint(vm.(selectedCommute := "Walk/Bike"), parseDouble).totalCO2
    ensures CalculateFootprint(vm, parseDouble).improvementAreas
         == CalculateFootprint(vm.(selectedCommute := "Walk/Bike"), parseDouble).improvementAreas["Commute" := 1]
  {
    var walk := vm.(selectedCommute := "Walk/Bike");
    assert AnnualCommuteEmissions(vm) == AnnualCommuteEmissions(walk) == 0.0;
    var m, w := CalculateFootprint(vm, parseDouble).improvementAreas,
                CalculateFootprint(walk, parseDouble).improvementAreas["Commute" := 1];
    assert m.Keys == w.Keys;
    assert m["Commute"] == 1 == w["Commute"];
    assert forall a | a in m && a != "Commute" :: m[a] == w[a];
  }

  /** An unrecognised diet contributes no emissions, so it totals 1.2775
      tonnes below Veggie; its score falls to 1 and the other three scores
      are the same as for Veggie. */
  lemma UnrecognisedDietEmitsNothing(vm: EcoQuizViewModel, parseDouble: DoubleParser)
    requires vm.selectedDiet !in DietEmissions
    ensures CalculateFootprint(vm, parseDouble).totalCO2
         == CalculateFootprint(vm.(selectedDiet := "Veggie"), parseDouble).totalCO2 - 1.2775
    ensures CalculateFootprint(vm, parseDouble).improvementAreas
         == CalculateFootprint(vm.(selectedDiet := "Veggie"), parseDouble).improvementAreas["Diet" := 1]
  {
  }

  /** An unrecognised energy source contributes no emissions, so it totals
      like Renewable; its score falls to 1 and the other three scores are the
      same as for Renewable. */
  lemma UnrecognisedEnergyEmitsNothing(vm: EcoQuizViewModel, parseDouble: DoubleParser)
    requires vm.selectedEnergy !in EnergyEmissions
    ensures CalculateFootprint(vm, parseDouble).totalCO2
         == CalculateFootprint(vm.(selectedEnergy := "Renewable"), parseDouble).totalCO2
    ensures CalculateFootprint(vm, parseDouble).improvementAreas
         == CalculateFootprint(vm.(selectedEnergy := "Renewable"), parseDouble).improvementAreas["Home Energy" := 1]
  {
  }

  /** Flight text that does not parse gives the same result as text that
      parses to zero. */
  lemma UnparseableFlightsCountAsZero(vm: EcoQuizViewModel, parseDouble: DoubleParser, zeroText: string)
    requires parseDouble(vm.flightFrequency) == None
    requires parseDouble(zeroText) == Some(0.0)
    ensures CalculateFootprint(vm, parseDouble) == CalculateFootprint(vm.(flightFrequency := zeroText), parseDouble)
  {
  }

  /** Flight text counting more flights never lowers the total; every extra
      flight adds 0.09 tonnes. */
  lemma TotalMonotoneInFlights(vm: EcoQuizViewModel, parseDouble: DoubleParser, moreText: string)
    requires AnnualFlights(vm, parseDouble) <= AnnualFlights(vm.(flightFrequency := moreText), parseDouble)
    ensures CalculateFootprint(vm, parseDouble).totalCO2
            <= CalculateFootprint(vm.(flightFrequency := moreText), parseDouble).totalCO2
    ensures CalculateFootprint(vm.(flightFrequency := moreText), parseDouble).totalCO2
            - CalculateFootprint(vm, parseDouble).totalCO2
            == 0.09 * (AnnualFlights(vm.(flightFrequency := moreText), parseDouble) - AnnualFlights(vm, parseDouble))
  {
  }

  /** Among the offered commute tags, a higher score means strictly lower
      weekly emissions, and the other way round. */
  lemma CommuteScoreOrdersEmissions(a: string, b: string)
    requires a in CommuteEmissions && b in CommuteEmissions
    ensures CommuteScore(a) > CommuteScore(b) <==> CommuteEmissions[a] < CommuteEmissions[b]
  {
  }

  lemma DietScoreOrdersEmissions(a: string, b: string)
    requires a in DietEmissions && b in DietEmissions
    ensures DietScore(a) > DietScore(b) <==> DietEmissions[a] < DietEmissions[b]
  {
  }

  lemma EnergyScoreOrdersEmissions(a: string, b: string)
    requires a in EnergyEmissions && b in EnergyEmissions
    ensures EnergyScore(a) > EnergyScore(b) <==> EnergyEmissions[a] < EnergyEmissions[b]
  {
  }

  /** A better Flying score means strictly fewer flight emissions: Flying
      scores 3 exactly when flights add at most 180 kg. Two counts above 2
      both score 1, so the converse does not hold. */
  lemma FlyingScoreOrdersEmissions(a: real, b: real)
    ensures FlyingScore(a) > FlyingScore(b) ==> AnnualFlightKg(a) < AnnualFlightKg(b)
    ensures FlyingScore(a) == 3 <==> AnnualFlightKg(a) <= 180.0
  {
  }

  /** A parsed negative flight count drives the total below zero: the total
      is non-negative only for non-negative flight counts. */
  lemma NegativeFlightsGiveNegativeTotal(parseDouble: DoubleParser)
    requires parseDouble("-20") == Some(-20.0)
    ensures CalculateFootprint(InitialForm.(flightFrequency := "-20"), parseDouble).totalCO2 < 0.0
  {
  }

  /** The greenest answers with no flights: 1.2775 tonnes, every score 3. */
  lemma GreenestProfile(parseDouble: DoubleParser)
    requires parseDouble("0") == Some(0.0)
    ensures CalculateFootprint(InitialForm, parseDouble)
            == QuizResult(1.2775, map["Commute" := 3, "Flying" := 3, "Diet" := 3, "Home Energy" := 3])
  {
  }

  /** Car, five flights, Carnivore, Non-Renewable: 6.3467 tonnes, every score 1. */
  lemma HeaviestProfile(parseDouble: DoubleParser)
    requires parseDouble("5") == Some(5.0)
    ensures CalculateFootprint(EcoQuizViewModel("USA", "Car", "5", "Carnivore", "Non-Renewable"), parseDouble)
            == QuizResult(6.3467, map["Commute" := 1, "Flying" := 1, "Diet" := 1, "Home Energy" := 1])
  {
  }

  /** Text parsing to two flights still scores 3 on Flying; text parsing
      to three scores 1. */
  lemma FlyingBoundary(vm: EcoQuizViewModel, parseDouble: DoubleParser, twoText: string, threeText: string)
    requires parseDouble(twoText) == Some(2.0)
    requires parseDouble(threeText) == Some(3.0)
    ensures CalculateFootprint(vm.(flightFrequency := twoText), parseDouble).improvementAreas["Flying"] == 3
    ensures CalculateFootprint(vm.(flightFrequency := threeText), parseDouble).improvementAreas["Flying"] == 1
  {
  }
}
