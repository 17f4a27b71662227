# EcoBuddy footprint quiz, modelled in Dafny

EcoBuddy is a small SwiftUI app about sustainable habits. The only part with real logic is the carbon-footprint quiz (`WWDC.swiftpm/EcoQuizView.swift`). This project models that part.

The user fills in a form: a country, a commute method, a flight count typed as text, a diet and a home energy source. `EcoQuizViewModel.calculateFootprint` looks up a per-unit emission factor for each choice in a string-keyed table. A key that is missing from a table counts as 0. Each factor is annualised: commuting ×52 weeks, flights ×90 kg per flight, diet and home energy ×365 days. The four amounts are summed and divided by 1000, giving tonnes of CO2 per year. The function also scores four improvement areas from 1 (worst) to 3 (best). The results screen then draws three dots per area, coloured by `ResultsView.indicatorColor`.

Files:

- `wrappers.dfy` (`Wrappers`): `Option`, with `GetOr` for Swift's `??`.
- `lifestyle.dfy` (`Lifestyle`): an enum-indexed reference. It lists each picker's three choices and their tags, and the annual kilograms of every choice written out.
- `eco_quiz.dfy` (`EcoQuiz`): the form, the emission tables, the per-area scores, the score map and `CalculateFootprint`.
- `footprint_properties.dfy` (`FootprintProperties`): lemmas that relate several calculations. They also tie the string-keyed calculator to the reference.
- `results_view.dfy` (`ResultsView`): the dot colours, one row of dots, the whole breakdown, and the placeholder result the sheet shows when nothing was computed.

Modelling choices:

- Arithmetic is exact `real` arithmetic. Every factor is an exact decimal.
- The selections stay `string`s, and the tables are `map<string, real>` constants. So the default-0 path for an unknown key and the fall-through-to-1 score path both stay visible.
- Swift's `Double(String)` is a parameter `parseDouble: string -> Option<real>`. `None` stands for text that does not parse.

Facts about the code that the model keeps:

- The flight count is a text field parsed as a `Double`. So negative and fractional counts are possible, and the total is non-negative only when the parsed count is non-negative. `NegativeFlightsGiveNegativeTotal` exhibits a negative total.
- The pickers (EcoQuizView.swift:69-94) only ever store their three tags, and the initial selections are tags too. The code still compares plain strings, so the model accepts any string. A string that is not a tag emits nothing and scores 1.
- Dot lighting is modelled as written: score 3 lights only dot 0, and score 1 lights all three. The model does not change this inversion.

## Model

| member | source | states |
|---|---|---|
| EcoQuiz.CommuteScore | WWDC.swiftpm/EcoQuizView.swift:43 | score is in 1..3; it is 3 exactly for "Walk/Bike" and 2 exactly for "Public Transport"; a string with no commute factor scores 1 |
| EcoQuiz.FlyingScore | WWDC.swiftpm/EcoQuizView.swift:44 | score is 1 or 3, never 2; it is 3 exactly when the flight count is at most 2 |
| EcoQuiz.DietScore | WWDC.swiftpm/EcoQuizView.swift:45 | score is in 1..3; it is 3 exactly for "Veggie" and 2 exactly for "Mixed"; a string with no diet factor scores 1 |
| EcoQuiz.EnergyScore | WWDC.swiftpm/EcoQuizView.swift:46 | score is in 1..3; it is 3 exactly for "Renewable" and 2 exactly for "Mix"; a string with no energy factor scores 1 |
| EcoQuiz.ImprovementAreas | WWDC.swiftpm/EcoQuizView.swift:42-47 | the score map has exactly the keys Commute, Flying, Diet and Home Energy, each valued in 1..3; Flying is never 2 and is 3 exactly when the flight count is at most 2 |
| EcoQuiz.CalculateFootprint | WWDC.swiftpm/EcoQuizView.swift:27-52 | the score map has exactly the keys Commute, Flying, Diet and Home Energy, each valued in 1..3; Flying is never 2 and is 3 exactly when the parsed count is at most 2; the total is non-negative when the parsed flight count is |
| Lifestyle.ParseCommute | WWDC.swiftpm/EcoQuizView.swift:69-73 | reading a commute picker tag back gives the choice whose tag it is, and no other text gives a choice |
| Lifestyle.ParseDiet | WWDC.swiftpm/EcoQuizView.swift:82-86 | reading a diet picker tag back gives the choice whose tag it is, and no other text gives a choice |
| Lifestyle.ParseEnergy | WWDC.swiftpm/EcoQuizView.swift:90-94 | reading an energy picker tag back gives the choice whose tag it is, and no other text gives a choice |
| Lifestyle.AnnualKg | WWDC.swiftpm/EcoQuizView.swift:22-40 | with a non-negative flight count, a profile's annual emissions are at least 1277.5 kg (the Veggie diet floor) |
| FootprintProperties.LookupMatchesReference | WWDC.swiftpm/EcoQuizView.swift:22-38 | looking up a picker tag in its table (`?? 0`) and annualising gives that choice's reference annual kilograms; text that is no tag looks up as 0 |
| FootprintProperties.TablesCoverPickerTags | WWDC.swiftpm/EcoQuizView.swift:22-25 | each emission table's keys are exactly its picker's three tags |
| FootprintProperties.FootprintMatchesReference | WWDC.swiftpm/EcoQuizView.swift:22-49 | for tag selections and a parsed count, the total is the reference's (commute·52 + flights·90 + diet·365 + energy·365) kg over 1000, and the score map is exactly the four areas scored from those tags and that count |
| FootprintProperties.CountryIsIgnored | WWDC.swiftpm/EcoQuizView.swift:16-52 | changing the country field leaves the result unchanged |
| FootprintProperties.UnrecognisedCommuteEmitsNothing | WWDC.swiftpm/EcoQuizView.swift:28-47 | a commute string with no factor totals like Walk/Bike; its Commute score is 1 and the other three scores equal Walk/Bike's |
| FootprintProperties.UnrecognisedDietEmitsNothing | WWDC.swiftpm/EcoQuizView.swift:34-47 | a diet string with no factor totals 1.2775 t below Veggie; its Diet score is 1 and the other three scores equal Veggie's |
| FootprintProperties.UnrecognisedEnergyEmitsNothing | WWDC.swiftpm/EcoQuizView.swift:37-47 | an energy string with no factor totals like Renewable; its Home Energy score is 1 and the other three scores equal Renewable's |
| FootprintProperties.UnparseableFlightsCountAsZero | WWDC.swiftpm/EcoQuizView.swift:31 | under one parser, flight text that does not parse gives the same result as text that parses to 0 |
| FootprintProperties.TotalMonotoneInFlights | WWDC.swiftpm/EcoQuizView.swift:31-49 | flight text counting more flights never lowers the total; the difference is 0.09 t per flight |
| FootprintProperties.CommuteScoreOrdersEmissions | WWDC.swiftpm/EcoQuizView.swift:22-43 | among the commute tags, a higher score holds exactly when the weekly factor is strictly lower |
| FootprintProperties.DietScoreOrdersEmissions | WWDC.swiftpm/EcoQuizView.swift:24-45 | among the diet tags, a higher score holds exactly when the daily factor is strictly lower |
| FootprintProperties.EnergyScoreOrdersEmissions | WWDC.swiftpm/EcoQuizView.swift:25-46 | among the energy tags, a higher score holds exactly when the daily factor is strictly lower |
| FootprintProperties.FlyingScoreOrdersEmissions | WWDC.swiftpm/EcoQuizView.swift:23-44 | a better Flying score means strictly lower flight emissions, and Flying scores 3 exactly when flights add at most 180 kg |
| FootprintProperties.NegativeFlightsGiveNegativeTotal | WWDC.swiftpm/EcoQuizView.swift:31-49 | a form whose flight text parses to -20 has a negative total |
| FootprintProperties.GreenestProfile | WWDC.swiftpm/EcoQuizView.swift:16-52 | the initial form (Walk/Bike, 0 flights, Veggie, Renewable) gives 1.2775 t with every score 3 |
| FootprintProperties.HeaviestProfile | WWDC.swiftpm/EcoQuizView.swift:22-52 | Car, 5 flights, Carnivore, Non-Renewable gives 6.3467 t with every score 1 |
| FootprintProperties.FlyingBoundary | WWDC.swiftpm/EcoQuizView.swift:44 | text parsing to 2 flights scores 3 on Flying; text parsing to 3 scores 1 |
| ResultsView.IndicatorColor | WWDC.swiftpm/EcoQuizView.swift:189-201 | a dot is lit exactly when the area's score s is in 1..3 and the index is below 4 - s; a lit dot is green, yellow or red for 3, 2 or 1; an area the result lacks is gray |
| ResultsView.DotRow | WWDC.swiftpm/EcoQuizView.swift:157-162 | one row has three dots, each coloured by IndicatorColor; a score s in 1..3 lights 4 - s of them, any other score none |
| ResultsView.Breakdown | WWDC.swiftpm/EcoQuizView.swift:152-164 | one row per area, in the order Commute, Flying, Diet, Home Energy; each dot is coloured by IndicatorColor, and an area scored s in 1..3 has 4 - s lit dots |
| ResultsView.ComputedRowsAreLit | WWDC.swiftpm/EcoQuizView.swift:189-201 | for a computed result every area lights its first dot, and the Flying row is never yellow |
| ResultsView.PlaceholderIsAllGray | WWDC.swiftpm/EcoQuizView.swift:115 | when no result exists, the placeholder the sheet shows has every dot gray |
| ResultsView.GreenerScoresLightFewerDots | WWDC.swiftpm/EcoQuizView.swift:192-197 | of two areas, the one with the higher score leaves gray a dot that the other lights |
| ResultsView.Presented | WWDC.swiftpm/EcoQuizView.swift:115 | the sheet shows the computed result when there is one; otherwise a zero total with exactly the four areas, each scored 0 |

## Left out

- Every SwiftUI view body: forms, pickers, sheet presentation, navigation and styling. These are declarative layout with no logic.
- The `%.1f` display of the total (line 135), and IEEE-754 rounding, NaN and infinities. The model uses exact reals, so a parse to NaN or infinity is not representable.
- The grammar of Swift's `Double(String)`. It is a library call, so it appears only as the `parseDouble` parameter.
- `@Published` / `ObservableObject` observation mechanics.
- The points counter: `SharedData.points` in MyApp.swift, incremented by 50 in CardView.swift. It is a single UI-driven addition.
- DashboardView.swift and ContentView.swift: static challenge content and tab state.
- The `QuizQuestion` struct (EcoQuizView.swift:4-7): nothing in the quiz uses it.
