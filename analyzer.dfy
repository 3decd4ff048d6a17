/**
 * The mock analyzer of the capture screen. When its timer fires, the capture screen builds
 * a table with one randomly drawn result per food item and returns the entry for the
 * current item's identifier, falling back to the turmeric entry for any other identifier.
 *
 * Each entry consumes four independent `Math.random()` draws: one for the verdict, one for
 * the confidence, one for the colour-analysis text and one for the adulterant. Here the
 * draws are parameters, so the table and the lookup are ordinary functions.
 */
module Analyzer {

  import opened Wrappers
  import Catalog

  datatype Verdict = Pure | Adulterated

  /** The result object handed to the navigation controller. */
  datatype TestResult = TestResult(
    purityStatus: Verdict,
    confidence: int,
    colorAnalysis: string,
    adulterant: Option<string>)

  /** The fixed parameters of one entry of the table. */
  datatype Row = Row(
    threshold: real,
    base: int,
    span: nat,
    pureText: string,
    adulteratedText: string,
    adulterantName: string)

  /** The four draws one entry consumes, in the order the application makes them. */
  datatype Draws = Draws(purity: real, confidence: real, color: real, adulterant: real)

  /** A value `Math.random()` can return. */
  predicate InUnit(x: real) {
    0.0 <= x < 1.0
  }

  predicate ValidDraws(d: Draws) {
    InUnit(d.purity) && InUnit(d.confidence) && InUnit(d.color) && InUnit(d.adulterant)
  }

  /** Every entry of the table gets draws that `Math.random()` can return. */
  predicate ValidDrawSource(draw: string -> Draws) {
    forall id | id in Rows :: ValidDraws(draw(id))
  }

  /** The identifier whose entry is used when the looked-up one is missing. */
  const Fallback: string := "turmeric"

  /** The parameters of the table, keyed by food identifier. */
  const Rows: map<string, Row> := map[
    "turmeric" := Row(0.3, 80, 20,
      "No color change detected with lemon juice",
      "Pink/violet color change detected",
      "Metanil Yellow"),
    "honey" := Row(0.4, 75, 25,
      "Honey did not absorb into tissue paper",
      "Honey absorbed quickly into paper",
      "Sugar Syrup"),
    "black-pepper" := Row(0.5, 70, 30,
      "Pure pepper powder floated properly",
      "Foreign particles detected sinking",
      "Papaya Seeds"),
    "chili-powder" := Row(0.4, 75, 25,
      "Natural reddish tinge in water",
      "Intense artificial coloring detected",
      "Sudan Red Dye"),
    "milk" := Row(0.6, 80, 20,
      "Milk formed distinct white trail in water",
      "Milk mixed too readily with water",
      "Water/Synthetic Milk"),
    "ghee" := Row(0.5, 75, 25,
      "Melted smoothly with pleasant aroma",
      "Didn't melt properly, gritty texture detected",
      "Animal Fat/Vegetable Oil"),
    "rice" := Row(0.4, 70, 30,
      "Mild yellow-brown color with iodine",
      "Deep blue/black color change detected",
      "Artificial Starch Powder"),
    "salt" := Row(0.7, 85, 15,
      "Completely dissolved with clear solution",
      "White residue and particles detected",
      "Chalk Powder/Sand"),
    "tea" := Row(0.5, 75, 25,
      "No metallic particles attracted to magnet",
      "Iron fillings detected and attracted",
      "Iron Fillings")
  ]

  /**
   * The shape of the table: nine rows, keyed by the catalog identifiers, each with a
   * threshold strictly inside (0,1), a non-empty confidence range within [70, 99] whose top
   * is 99, and distinct pure and adulterated texts.
   */
  lemma RowsWellFormed()
    ensures Rows.Keys == {"turmeric", "honey", "black-pepper", "chili-powder", "milk",
                          "ghee", "rice", "salt", "tea"}
    ensures forall id | id in Rows ::
      && 0.0 < Rows[id].threshold < 1.0
      && Rows[id].span > 0
      && 70 <= Rows[id].base
      && Rows[id].base + Rows[id].span - 1 == 99
      && Rows[id].pureText != Rows[id].adulteratedText
  {
  }

  /**
   * `Math.floor(draw * span) + base`, in exact real arithmetic: a draw in [0,1) gives a
   * confidence in [base, base + span - 1].
   */
  function Confidence(base: int, span: nat, draw: real): (c: int)
    ensures span > 0 && InUnit(draw) ==> base <= c <= base + span - 1
  {
    assert span > 0 && InUnit(draw) ==> 0.0 <= draw * span as real < span as real by {
      if span > 0 && InUnit(draw) {
        assert span as real - draw * span as real == (1.0 - draw) * span as real;
        assert (1.0 - draw) * span as real > 0.0;
      }
    }
    (draw * span as real).Floor + base
  }

  /** Every value of that range is reached, by the draw k / span. */
  lemma ConfidenceAttained(base: int, span: nat, k: int)
    requires 0 <= k < span
    ensures InUnit(k as real / span as real)
    ensures Confidence(base, span, k as real / span as real) == base + k
  {
    var d := k as real / span as real;
    assert d * span as real == k as real;
    assert d < 1.0 by {
      assert d * span as real < 1.0 * span as real;
    }
  }

  /** One entry of the table: the row's fixed texts chosen by the entry's own draws. */
  function Entry(row: Row, d: Draws): (r: TestResult)
    ensures r.purityStatus == Pure <==> d.purity > row.threshold
    ensures d.color > row.threshold ==> r.colorAnalysis == row.pureText
    ensures !(d.color > row.threshold) ==> r.colorAnalysis == row.adulteratedText
    ensures r.adulterant == None <==> d.adulterant > row.threshold
    ensures r.adulterant == None || r.adulterant == Some(row.adulterantName)
  {
    TestResult(
      if d.purity > row.threshold then Pure else Adulterated,
      Confidence(row.base, row.span, d.confidence),
      if d.color > row.threshold then row.pureText else row.adulteratedText,
      if d.adulterant > row.threshold then None else Some(row.adulterantName))
  }

  /** The whole table the timer callback builds, every entry from its own draws. */
  function MockResults(draw: string -> Draws): (t: map<string, TestResult>)
    ensures t.Keys == Rows.Keys
    ensures forall id | id in t :: t[id] == Entry(Rows[id], draw(id))
  {
    map id | id in Rows :: Entry(Rows[id], draw(id))
  }

  /** The row whose entry the lookup returns for an identifier. */
  function RowKey(id: string): (k: string)
    ensures k in Rows
    ensures id in Rows ==> k == id
    ensures id !in Rows ==> k == Fallback
  {
    if id in Rows then id else Fallback
  }

  /** `mockResults[id] || mockResults.turmeric`. */
  function Analyze(id: string, draw: string -> Draws): (r: TestResult)
    ensures id in Rows ==> r == Entry(Rows[id], draw(id))
    ensures id !in Rows ==> r == Entry(Rows[Fallback], draw(Fallback))
  {
    MockResults(draw)[RowKey(id)]
  }

  /** The table's keys are exactly the catalog's identifiers. */
  lemma RowsAreCatalog()
    ensures Rows.Keys == Catalog.CatalogIds()
  {
    Catalog.CatalogIdSet();
    RowsWellFormed();
  }

  /** So for every catalog item the lookup returns that item's own entry. */
  lemma CatalogNeverFallsBack(item: Catalog.FoodItem, draw: string -> Draws)
    requires item in Catalog.FoodItems
    ensures item.id in Rows
    ensures Analyze(item.id, draw) == Entry(Rows[item.id], draw(item.id))
  {
    RowsAreCatalog();
  }

  /** The confidence of an identifier's result lies in its row's range. */
  lemma RowConfidence(id: string, draw: string -> Draws)
    requires ValidDrawSource(draw)
    ensures var row := Rows[RowKey(id)];
      row.base <= Analyze(id, draw).confidence <= row.base + row.span - 1
  {
    var k := RowKey(id);
    assert ValidDraws(draw(k));
  }

  /** Every confidence the analyzer can produce, for any identifier, lies in [70, 99]. */
  lemma AnalyzeConfidenceBounds(id: string, draw: string -> Draws)
    requires ValidDrawSource(draw)
    ensures 70 <= Analyze(id, draw).confidence <= 99
  {
    RowConfidence(id, draw);
    RowsWellFormed();
  }

  /** The per-item confidence ranges. */
  lemma ConfidenceRanges(draw: string -> Draws)
    requires ValidDrawSource(draw)
    ensures 80 <= Analyze("turmeric", draw).confidence <= 99
    ensures 75 <= Analyze("honey", draw).confidence <= 99
    ensures 70 <= Analyze("black-pepper", draw).confidence <= 99
    ensures 75 <= Analyze("chili-powder", draw).confidence <= 99
    ensures 80 <= Analyze("milk", draw).confidence <= 99
    ensures 75 <= Analyze("ghee", draw).confidence <= 99
    ensures 70 <= Analyze("rice", draw).confidence <= 99
    ensures 85 <= Analyze("salt", draw).confidence <= 99
    ensures 75 <= Analyze("tea", draw).confidence <= 99
  {
    assert Rows["turmeric"].base == 80 && Rows["turmeric"].span == 20;
    assert Rows["honey"].base == 75 && Rows["honey"].span == 25;
    assert Rows["black-pepper"].base == 70 && Rows["black-pepper"].span == 30;
    assert Rows["chili-powder"].base == 75 && Rows["chili-powder"].span == 25;
    assert Rows["milk"].base == 80 && Rows["milk"].span == 20;
    assert Rows["ghee"].base == 75 && Rows["ghee"].span == 25;
    assert Rows["rice"].base == 70 && Rows["rice"].span == 30;
    assert Rows["salt"].base == 85 && Rows["salt"].span == 15;
    assert Rows["tea"].base == 75 && Rows["tea"].span == 25;
    RowConfidence("turmeric", draw);
    RowConfidence("honey", draw);
    RowConfidence("black-pepper", draw);
    RowConfidence("chili-powder", draw);
    RowConfidence("milk", draw);
    RowConfidence("ghee", draw);
    RowConfidence("rice", draw);
    RowConfidence("salt", draw);
    RowConfidence("tea", draw);
  }

  /** A known identifier's verdict is "pure" exactly when its draw exceeds its row's threshold. */
  lemma RowVerdict(id: string, draw: string -> Draws)
    requires id in Rows
    ensures Analyze(id, draw).purityStatus == Pure <==> draw(id).purity > Rows[id].threshold
  {
  }

  /** The per-item verdict thresholds: "pure" exactly when the verdict draw exceeds them. */
  lemma VerdictThresholds(draw: string -> Draws)
    ensures Analyze("turmeric", draw).purityStatus == Pure <==> draw("turmeric").purity > 0.3
    ensures Analyze("honey", draw).purityStatus == Pure <==> draw("honey").purity > 0.4
    ensures Analyze("black-pepper", draw).purityStatus == Pure <==> draw("black-pepper").purity > 0.5
    ensures Analyze("chili-powder", draw).purityStatus == Pure <==> draw("chili-powder").purity > 0.4
    ensures Analyze("milk", draw).purityStatus == Pure <==> draw("milk").purity > 0.6
    ensures Analyze("ghee", draw).purityStatus == Pure <==> draw("ghee").purity > 0.5
    ensures Analyze("rice", draw).purityStatus == Pure <==> draw("rice").purity > 0.4
    ensures Analyze("salt", draw).purityStatus == Pure <==> draw("salt").purity > 0.7
    ensures Analyze("tea", draw).purityStatus == Pure <==> draw("tea").purity > 0.5
  {
    assert Rows["turmeric"].threshold == 0.3 && Rows["honey"].threshold == 0.4;
    assert Rows["black-pepper"].threshold == 0.5 && Rows["chili-powder"].threshold == 0.4;
    assert Rows["milk"].threshold == 0.6 && Rows["ghee"].threshold == 0.5;
    assert Rows["rice"].threshold == 0.4 && Rows["salt"].threshold == 0.7;
    assert Rows["tea"].threshold == 0.5;
    RowVerdict("turmeric", draw);
    RowVerdict("honey", draw);
    RowVerdict("black-pepper", draw);
    RowVerdict("chili-powder", draw);
    RowVerdict("milk", draw);
    RowVerdict("ghee", draw);
    RowVerdict("rice", draw);
    RowVerdict("salt", draw);
    RowVerdict("tea", draw);
  }

  /** No row uses the same text for the pure and the adulterated colour analysis. */
  lemma RowTextsDiffer(id: string)
    requires id in Rows
    ensures Rows[id].pureText != Rows[id].adulteratedText
  {
    RowsWellFormed();
  }

  /**
   * When an entry's verdict, colour and adulterant draws coincide, the three fields agree:
   * pure, no adulterant and the pure description go together.
   */
  lemma CoincidentDrawsAgree(id: string, draw: string -> Draws)
    requires var d := draw(RowKey(id)); d.purity == d.color == d.adulterant
    ensures var r := Analyze(id, draw);
      (r.purityStatus == Pure <==> r.adulterant == None) &&
      (r.purityStatus == Pure <==> r.colorAnalysis == Rows[RowKey(id)].pureText)
  {
    RowTextsDiffer(RowKey(id));
  }

  /**
   * With independent draws the link does not hold: a turmeric result can be "pure" and
   * still name an adulterant, and describe the adulterated colour change.
   */
  lemma IndependentDrawsDisagree()
    ensures var draw := (id: string) => Draws(0.9, 0.5, 0.1, 0.1);
      var r := Analyze("turmeric", draw);
      ValidDrawSource(draw) &&
      r.purityStatus == Pure && r.adulterant == Some("Metanil Yellow") &&
      r.colorAnalysis == "Pink/violet color change detected"
  {
  }
}
