/** The results screen's breakdown: for each improvement area a row of three
    dots, each coloured by `indicatorColor` from the area's score. As the app
    has it, a score of 3 lights one green dot, 2 lights two yellow dots and 1
    lights three red dots; every other score, and an area the result lacks,
    leaves all dots gray. */
module ResultsView {
  import opened Wrappers
  import opened EcoQuiz

  datatype Color = Green | Yellow | Red | Gray

  /** Dots drawn per improvement area. */
  const DotsPerArea: nat := 3

  /** What the results sheet shows when no result was computed: a zero
      total with every area scored 0. */
  const Placeholder := QuizResult(0.0, map["Commute" := 0, "Flying" := 0, "Diet" := 0, "Home Energy" := 0])

  /** The result handed to the sheet: the computed one, else the placeholder. */
  function Presented(result: Option<QuizResult>): (r: QuizResult)
    ensures result.Some? ==> r == result.value
    ensures result.None? ==> r.totalCO2 == 0.0 && r.improvementAreas.Keys == set a | a in Areas
    ensures result.None? ==> forall area :: AreaScore(r, area) == 0
  {
    result.GetOr(Placeholder)
  }

  /** `improvementAreas[area] ?? 0`. */
  function AreaScore(result: QuizResult, area: string): int {
    if area in result.improvementAreas then result.improvementAreas[area] else 0
  }

  /** The colour a lit dot takes for each score. */
  function ScoreColor(score: int): Color {
    if score == 3 then Green else if score == 2 then Yellow else if score == 1 then Red else Gray
  }

  /** The colour of dot `index` in the row of `area`. A score s in 1..3
      lights exactly the dots before position 4 - s, in that score's colour. */
  function IndicatorColor(result: QuizResult, area: string, index: int): (c: Color)
    ensures var s := AreaScore(result, area);
      c != Gray <==> 1 <= s <= 3 && index < 4 - s
    ensures c != Gray ==> c == ScoreColor(AreaScore(result, area))
    ensures area !in result.improvementAreas ==> c == Gray
  {
    var score := AreaScore(result, area);
    if score == 3 && index < 1 then Green
    else if score == 2 && index < 2 then Yellow
    else if score == 1 && index < 3 then Red
    else Gray
  }

  /** How many dots of a row are lit. */
  function LitCount(row: seq<Color>): nat
    ensures LitCount(row) <= |row|
  {
    if |row| == 0 then 0
    else LitCount(row[..|row| - 1]) + (if row[|row| - 1] != Gray then 1 else 0)
  }

  /** A row lit on exactly its first k dots has k lit dots. */
  lemma {:induction false} LitPrefixCount(row: seq<Color>, k: nat)
    requires k <= |row|
    requires forall j :: 0 <= j < |row| ==> (row[j] != Gray <==> j < k)
    ensures LitCount(row) == k
  {
    if |row| == 0 {
    } else if k == |row| {
      var front := row[..|row| - 1];
      LitPrefixCount(front, k - 1);
    } else {
      var front := row[..|row| - 1];
      LitPrefixCount(front, k);
    }
  }

  /** Draws the three dots of one area, left to right. */
  method DotRow(result: QuizResult, area: string) returns (row: seq<Color>)
    ensures |row| == DotsPerArea
    ensures forall j :: 0 <= j < |row| ==> row[j] == IndicatorColor(result, area, j)
    ensures var s := AreaScore(result, area);
      1 <= s <= 3 ==> LitCount(row) == 4 - s
    ensures var s := AreaScore(result, area);
      !(1 <= s <= 3) ==> LitCount(row) == 0
  {
    row := [];
    for index := 0 to DotsPerArea
      invariant |row| == index
      invariant forall j :: 0 <= j < index ==> row[j] == IndicatorColor(result, area, j)
    {
      row := row + [IndicatorColor(result, area, index)];
    }
    var s := AreaScore(result, area);
    if 1 <= s <= 3 {
      LitPrefixCount(row, 4 - s);
    } else {
      LitPrefixCount(row, 0);
    }
  }

  /** Draws the whole breakdown: one row per improvement area, in order. */
  method Breakdown(result: QuizResult) returns (rows: seq<seq<Color>>)
    ensures |rows| == |Areas|
    ensures forall i :: 0 <= i < |rows| ==> |rows[i]| == DotsPerArea
    ensures forall i, j :: 0 <= i < |rows| && 0 <= j < |rows[i]| ==> rows[i][j] == IndicatorColor(result, Areas[i], j)
    ensures forall i :: 0 <= i < |rows| && 1 <= AreaScore(result, Areas[i]) <= 3 ==>
      LitCount(rows[i]) == 4 - AreaScore(result, Areas[i])
  {
    rows := [];
    for i := 0 to |Areas|
      invariant |rows| == i
      invariant forall k :: 0 <= k < i ==> |rows[k]| == DotsPerArea
      invariant forall k, j :: 0 <= k < i && 0 <= j < |rows[k]| ==> rows[k][j] == IndicatorColor(result, Areas[k], j)
      invariant forall k :: 0 <= k < i && 1 <= AreaScore(result, Areas[k]) <= 3 ==>
        LitCount(rows[k]) == 4 - AreaScore(result, Areas[k])
    {
      var row := DotRow(result, Areas[i]);
      rows := rows + [row];
    }
  }

  /** Every area of a computed result lights at least its first dot, and the
      Flying row is never yellow. */
  lemma ComputedRowsAreLit(vm: EcoQuizViewModel, parseDouble: DoubleParser, area: string, index: int)
    requires area in Areas
    ensures IndicatorColor(CalculateFootprint(vm, parseDouble), area, 0) != Gray
    ensures IndicatorColor(CalculateFootprint(vm, parseDouble), "Flying", index) != Yellow
  {
  }

  /** When no result was computed, every dot of every area is gray. */
  lemma PlaceholderIsAllGray(area: string, index: int)
    ensures IndicatorColor(Presented(None), area, index) == Gray
  {
  }

  /** A greener score lights strictly fewer dots: the row does not fill up
      as the score improves. */
  lemma GreenerScoresLightFewerDots(result: QuizResult, greener: string, worse: string)
    requires 1 <= AreaScore(result, worse) < AreaScore(result, greener) <= 3
    ensures IndicatorColor(result, greener, 4 - AreaScore(result, greener)) == Gray
    ensures IndicatorColor(result, worse, 4 - AreaScore(result, greener)) != Gray
  {
  }
}
