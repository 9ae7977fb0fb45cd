/**
  Scoring of one assessment of the multi-assessment game (parte2_oficial.py):
  the category tables, the first-match category lookup, the recommendation
  lookup, the result title and the three assessments the game runs.
*/
module Assessment {

  /** One entry of a category table: a name and an inclusive score range. */
  datatype Category = Category(name: string, low: int, high: int)

  predicate InRange(c: Category, score: int) {
    c.low <= score <= c.high
  }

  /** The name the lookup falls back to when no range holds the score. */
  const Fallback: string := "NORMAL"

  /** The table of the depression assessment, shared by all three assessments. */
  const SharedCategories: seq<Category> := [
    Category("NORMAL", 0, 4),
    Category("LEVE", 5, 9),
    Category("MODERADO", 10, 14),
    Category("SEVERO", 15, 19),
    Category("EXTREMAMENTE SEVERO", 20, 27)
  ]

  /** Labels of the five answer buttons; button `i` carries the value `i`. */
  const OptionLabels: seq<string> := ["0", "1", "2", "3", "4"]

  /** Every assessment asks five questions; only their number matters here. */
  const QuestionsPerAssessment: nat := 5

  /** One assessment: title, number of questions, category table and the
      recommendation text keyed by category name. */
  datatype AssessmentData = AssessmentData(
    title: string,
    questionCount: nat,
    categories: seq<Category>,
    recommendations: map<string, string>)

  /** The recommendation texts of one assessment. The texts themselves are not
      modelled: each is represented by a placeholder naming its assessment and
      category, so that the texts of different keys stay distinct. */
  function Recommendations(title: string): map<string, string> {
    map[
      "NORMAL" := title + "/NORMAL",
      "LEVE" := title + "/LEVE",
      "MODERADO" := title + "/MODERADO",
      "SEVERO" := title + "/SEVERO",
      "EXTREMAMENTE SEVERO" := title + "/EXTREMAMENTE SEVERO"
    ]
  }

  /** The assessments in the order the game runs them. */
  const Assessments: seq<AssessmentData> := [
    AssessmentData("Depressão", QuestionsPerAssessment, SharedCategories, Recommendations("Depressão")),
    AssessmentData("Ansiedade", QuestionsPerAssessment, SharedCategories, Recommendations("Ansiedade")),
    AssessmentData("Estresse", QuestionsPerAssessment, SharedCategories, Recommendations("Estresse"))
  ]

  /** Sum of the selected values, the running score of an assessment. */
  function Sum(values: seq<int>): int {
    if values == [] then 0 else Sum(values[..|values| - 1]) + values[|values| - 1]
  }

  /** Every value is one a button can carry. */
  predicate OptionValues(values: seq<int>) {
    forall i | 0 <= i < |values| :: 0 <= values[i] < |OptionLabels|
  }

  /** The first entry of `table`, in table order, whose range holds `score`;
      `Fallback` when no entry does. */
  function CategoryOf(table: seq<Category>, score: int): (name: string)
    ensures forall k | 0 <= k < |table| && InRange(table[k], score) ::
              (forall j | 0 <= j < k :: !InRange(table[j], score)) ==> name == table[k].name
    ensures (forall k | 0 <= k < |table| :: !InRange(table[k], score)) ==> name == Fallback
  {
    if table == [] then Fallback
    else if InRange(table[0], score) then table[0].name
    else CategoryOf(table[1..], score)
  }

  /** The recommendation keyed by `category`, or the empty text when the key
      is absent. */
  function Recommendation(recommendations: map<string, string>, category: string): string {
    if category in recommendations then recommendations[category] else ""
  }

  /** The title of the result screen, `"{title}: {category}"`. */
  function ResultTitle(title: string, category: string): (r: string)
    ensures r != ""
    ensures |r| == |title| + 2 + |category|
    ensures r[..|title|] == title && r[|title| + 2..] == category
    ensures r[|title|..|title| + 2] == ": "
  {
    title + ": " + category
  }

  /** Ranges in table order never overlap: each ends before the next begins. */
  predicate Disjoint(table: seq<Category>) {
    forall i, j | 0 <= i < j < |table| :: table[i].high < table[j].low
  }

  /** Each range is non-empty and begins right after the previous one ends. */
  predicate Contiguous(table: seq<Category>) {
    (forall i | 0 <= i < |table| :: table[i].low <= table[i].high) &&
    (forall i | 0 <= i < |table| - 1 :: table[i + 1].low == table[i].high + 1)
  }

  /** The shared table is disjoint and contiguous and spans exactly 0..27. */
  lemma SharedTableWellFormed()
    ensures Disjoint(SharedCategories) && Contiguous(SharedCategories)
    ensures SharedCategories[0].low == 0 && SharedCategories[|SharedCategories| - 1].high == 27
  {
    ContiguousDisjoint(SharedCategories);
  }

  /** A contiguous table is disjoint. */
  lemma ContiguousDisjoint(table: seq<Category>)
    requires Contiguous(table)
    ensures Disjoint(table)
  {
    forall i, j | 0 <= i < j < |table| ensures table[i].high < table[j].low {
      ContiguousGap(table, i, j);
    }
  }

  lemma {:induction false} ContiguousGap(table: seq<Category>, i: nat, j: nat)
    requires Contiguous(table) && i < j < |table|
    ensures table[i].high < table[j].low
    decreases j - i
  {
    if i + 1 < j {
      ContiguousGap(table, i, j - 1);
    }
  }

  /** In a disjoint table, a score inside an entry's declared range is given
      that entry's name. */
  lemma InRangeYieldsName(table: seq<Category>, k: nat, score: int)
    requires Disjoint(table) && k < |table| && InRange(table[k], score)
    ensures CategoryOf(table, score) == table[k].name
  {
    forall j | 0 <= j < k ensures !InRange(table[j], score) {
      assert table[j].high < table[k].low;
    }
  }

  /** In a contiguous table every score between the first low and the last
      high is inside some entry's range, so the fallback is never used. */
  lemma {:induction false} CoveredScoreMatches(table: seq<Category>, score: int)
    requires |table| > 0 && Contiguous(table)
    requires table[0].low <= score <= table[|table| - 1].high
    ensures exists k | 0 <= k < |table| :: InRange(table[k], score)
  {
    if !InRange(table[0], score) {
      var rest := table[1..];
      assert |rest| > 0 && rest[0].low == table[0].high + 1;
      assert rest[|rest| - 1] == table[|table| - 1];
      CoveredScoreMatches(rest, score);
      var k :| 0 <= k < |rest| && InRange(rest[k], score);
      assert InRange(table[k + 1], score);
    }
  }

  /** A sum of `n` button values lies between 0 and 4 * n. */
  lemma {:induction false} SumBounds(values: seq<int>)
    requires OptionValues(values)
    ensures 0 <= Sum(values) <= 4 * |values|
  {
    if values != [] {
      var init := values[..|values| - 1];
      assert OptionValues(init) by {
        forall i | 0 <= i < |init| ensures 0 <= init[i] < |OptionLabels| {
          assert init[i] == values[i];
        }
      }
      SumBounds(init);
    }
  }

  /** Appending a selection adds its value to the sum. */
  lemma SumAppend(values: seq<int>, v: int)
    ensures Sum(values + [v]) == Sum(values) + v
  {
    assert (values + [v])[..|values|] == values;
  }

  /** A completed assessment (five answers of value 0..4) scores at most 20,
      which lies in exactly one entry of the shared table; the lookup returns
      that entry's name and never needs the fallback. */
  lemma CompletedScoreCategorized(values: seq<int>)
    requires |values| == QuestionsPerAssessment && OptionValues(values)
    ensures 0 <= Sum(values) <= 20
    ensures exists k | 0 <= k < |SharedCategories| ::
              InRange(SharedCategories[k], Sum(values)) &&
              CategoryOf(SharedCategories, Sum(values)) == SharedCategories[k].name
  {
    SumBounds(values);
    SharedTableWellFormed();
    CoveredScoreMatches(SharedCategories, Sum(values));
    var k :| 0 <= k < |SharedCategories| && InRange(SharedCategories[k], Sum(values));
    InRangeYieldsName(SharedCategories, k, Sum(values));
  }

  /** For every assessment the game runs, the category of a completed answer
      set is a key of its recommendations, so the result text is the keyed
      text and never the empty default. */
  lemma CompletedRecommendation(a: nat, values: seq<int>)
    requires a < |Assessments|
    requires |values| == Assessments[a].questionCount && OptionValues(values)
    ensures CategoryOf(Assessments[a].categories, Sum(values)) in Assessments[a].recommendations
    ensures Recommendation(Assessments[a].recommendations, CategoryOf(Assessments[a].categories, Sum(values)))
            == Assessments[a].recommendations[CategoryOf(Assessments[a].categories, Sum(values))]
  {
    var t := Assessments[a];
    assert t.categories == SharedCategories && t.questionCount == QuestionsPerAssessment &&
           t.recommendations == Recommendations(t.title);
    CompletedScoreCategorized(values);
    var k :| 0 <= k < |SharedCategories| && CategoryOf(SharedCategories, Sum(values)) == SharedCategories[k].name;
    RecommendationKeys(t.title, k);
  }

  /** Every category name of the shared table keys a recommendation. */
  lemma RecommendationKeys(title: string, k: nat)
    requires k < |SharedCategories|
    ensures SharedCategories[k].name in Recommendations(title)
  {
  }
}
