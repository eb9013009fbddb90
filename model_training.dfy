// Training-row preparation: the numeric complexity code, and the nested loop
// that turns historical quotes into one row per complete specification.
// Writing the rows to CSV is left out; the rows themselves are the result.
module ModelTraining {
  import opened Wrappers
  import opened Text

  /** `_encode_complexity`: low, medium and high, in any letter case, map to
      1, 2 and 3; any other text maps to 2. */
  function EncodeComplexity(c: String): (r: int)
    ensures 1 <= r <= 3
    ensures r == 1 <==> Lower(c) == "low"
    ensures r == 3 <==> Lower(c) == "high"
    ensures Lower(c) == "medium" ==> r == 2
  {
    var k := Lower(c);
    if k == "low" then 1 else if k == "medium" then 2 else if k == "high" then 3 else 2
  }

  /** Lower-casing twice is lower-casing once. */
  lemma {:induction false} LowerIdempotent(s: String)
    ensures Lower(Lower(s)) == Lower(s)
  {
    assert forall i :: 0 <= i < |s| ==> LowerChar(LowerChar(s[i])) == LowerChar(s[i]);
  }

  /** The code depends only on the lower-cased text. */
  lemma {:induction false} EncodeIgnoresCase(c: String)
    ensures EncodeComplexity(c) == EncodeComplexity(Lower(c))
  {
    LowerIdempotent(c);
  }

  /** The four cases of the unit test, and one in capitals. */
  lemma {:induction false} EncodeExamples()
    ensures EncodeComplexity("low") == 1 && EncodeComplexity("medium") == 2
    ensures EncodeComplexity("high") == 3 && EncodeComplexity("unknown") == 2
    ensures EncodeComplexity("HIGH") == 3
  {
    assert Lower("unknown") == "unknown";
    assert Lower("HIGH") == "high";
  }

  /** A historical specification as a dictionary: any key may be missing. */
  datatype SpecRecord = SpecRecord(
    weight_per_meter: Option<real>,
    total_length: Option<real>,
    machining_complexity: Option<String>,
    surface_treatment: Option<String>,
    alloy: Option<String>)

  /** A historical quote; a missing `product_specs` key is the empty list. */
  datatype QuoteRecord = QuoteRecord(
    product_specs: seq<SpecRecord>,
    final_price: Option<real>,
    predicted_price: Option<real>)

  datatype TrainingRow = TrainingRow(
    weight_per_meter: real,
    total_length: real,
    machining_complexity: int,
    surface_treatment: String,
    alloy: String,
    price: real)

  /** `None.lower()` fails with this message, and `prepare_training_data`
      re-raises it. */
  const NoLowerError := "'NoneType' object has no attribute 'lower'"

  /** Python truthiness of a number that may be null. */
  predicate Truthy(x: Option<real>)
  {
    x.Some? && x.value != 0.0
  }

  /** `final_price or predicted_price`: a final price of 0 falls back. */
  function PriceOf(q: QuoteRecord): (r: Option<real>)
    ensures Truthy(q.final_price) ==> r == q.final_price
    ensures !Truthy(q.final_price) ==> r == q.predicted_price
  {
    if Truthy(q.final_price) then q.final_price else q.predicted_price
  }

  /** One (quote, specification) pair the nested loop visits. */
  datatype Source = Source(quote: QuoteRecord, spec: SpecRecord)

  /** The row built for one pair: an error when the complexity is missing
      (it is encoded before the null check), no row when any other value is
      null, otherwise the row. */
  function RowOf(src: Source): (r: Result<Option<TrainingRow>, String>)
    ensures r.Err? <==> src.spec.machining_complexity.None?
    ensures r.Err? ==> r.error == NoLowerError
    ensures r.Ok? && r.value.Some? <==>
              src.spec.machining_complexity.Some? && src.spec.weight_per_meter.Some?
              && src.spec.total_length.Some? && src.spec.surface_treatment.Some?
              && src.spec.alloy.Some? && PriceOf(src.quote).Some?
    ensures r.Ok? && r.value.Some? ==>
              r.value.value.weight_per_meter == src.spec.weight_per_meter.value
              && r.value.value.total_length == src.spec.total_length.value
              && r.value.value.machining_complexity == EncodeComplexity(src.spec.machining_complexity.value)
              && r.value.value.surface_treatment == src.spec.surface_treatment.value
              && r.value.value.alloy == src.spec.alloy.value
              && r.value.value.price == PriceOf(src.quote).value
  {
    var s := src.spec;
    if s.machining_complexity.None? then Err(NoLowerError)
    else
      var price := PriceOf(src.quote);
      if s.weight_per_meter.None? || s.total_length.None? || s.surface_treatment.None?
         || s.alloy.None? || price.None?
      then Ok(None)
      else Ok(Some(TrainingRow(s.weight_per_meter.value, s.total_length.value,
                               EncodeComplexity(s.machining_complexity.value),
                               s.surface_treatment.value, s.alloy.value, price.value)))
  }

  /** The pairs of one quote, in specification order. */
  function SourcesOf(q: QuoteRecord): (r: seq<Source>)
    ensures |r| == |q.product_specs|
    ensures forall j :: 0 <= j < |r| ==> r[j] == Source(q, q.product_specs[j])
  {
    seq(|q.product_specs|, j requires 0 <= j < |q.product_specs| => Source(q, q.product_specs[j]))
  }

  /** The pairs of all quotes, quote by quote. */
  function Sources(quotes: seq<QuoteRecord>): seq<Source>
  {
    if |quotes| == 0 then [] else Sources(quotes[..|quotes| - 1]) + SourcesOf(quotes[|quotes| - 1])
  }

  /** The rows of a run of pairs, or the first error. */
  function Rows(srcs: seq<Source>): (r: Result<seq<TrainingRow>, String>)
    ensures r.Err? <==> exists k :: 0 <= k < |srcs| && srcs[k].spec.machining_complexity.None?
    ensures r.Ok? ==> |r.value| <= |srcs|
    ensures r.Ok? ==> forall i :: 0 <= i < |r.value| ==> 1 <= r.value[i].machining_complexity <= 3
  {
    if |srcs| == 0 then Ok([])
    else
      var prev := Rows(srcs[..|srcs| - 1]);
      if prev.Err? then prev
      else
        match RowOf(srcs[|srcs| - 1])
        case Err(e) => Err(e)
        case Ok(None) => Ok(prev.value)
        case Ok(Some(row)) => Ok(prev.value + [row])
  }

  /** What `prepare_training_data` returns (or raises). */
  function TrainingData(quotes: seq<QuoteRecord>): Result<seq<TrainingRow>, String>
  {
    Rows(Sources(quotes))
  }

  /** `prepare_training_data`: the nested loop over quotes and their
      specifications. */
  method PrepareTrainingData(quotes: seq<QuoteRecord>) returns (r: Result<seq<TrainingRow>, String>)
    ensures r == TrainingData(quotes)
  {
    var data: seq<TrainingRow> := [];
    for i := 0 to |quotes|
      invariant Rows(Sources(quotes[..i])) == Ok(data)
    {
      SourcesStep(quotes, i);
      var step := AddQuoteRows(Sources(quotes[..i]), quotes[i], data);
      if step.Err? {
        RowsErrorPersists(Sources(quotes[..i + 1]), Sources(quotes[i + 1..]));
        RestOfSources(quotes, i);
        return step;
      }
      data := step.value;
    }
    assert quotes[..|quotes|] == quotes;
    r := Ok(data);
  }

  /** The inner loop: the rows of one quote's specifications added to the
      rows gathered so far, or the first error. */
  method AddQuoteRows(ghost done: seq<Source>, q: QuoteRecord, data: seq<TrainingRow>)
    returns (r: Result<seq<TrainingRow>, String>)
    requires Rows(done) == Ok(data)
    ensures r == Rows(done + SourcesOf(q))
  {
    var acc := data;
    ghost var srcs := SourcesOf(q);
    assert done + srcs[..0] == done;
    for j := 0 to |q.product_specs|
      invariant Rows(done + srcs[..j]) == Ok(acc)
    {
      var src := Source(q, q.product_specs[j]);
      PrefixSplits(done, srcs, j);
      RowsStep(done + srcs[..j], src, acc);
      var row := RowOf(src);
      if row.Err? {
        RowsErrorPersists(done + srcs[..j + 1], srcs[j + 1..]);
        return Err(row.error);
      }
      if row.value.Some? {
        acc := acc + [row.value.value];
      }
    }
    assert srcs[..|q.product_specs|] == srcs;
    r := Ok(acc);
  }

  /** How a prefix of `s` grows by one element, and how it and the rest
      make up `s`. */
  lemma {:induction false} PrefixSplits<T>(done: seq<T>, s: seq<T>, j: int)
    requires 0 <= j < |s|
    ensures done + s[..j + 1] == (done + s[..j]) + [s[j]]
    ensures done + s[..j + 1] + s[j + 1..] == done + s
  {
    assert s[..j + 1] == s[..j] + [s[j]];
    assert s[..j + 1] + s[j + 1..] == s;
  }

  /** One more pair: its error, nothing, or its row added. */
  lemma {:induction false} RowsStep(xs: seq<Source>, src: Source, acc: seq<TrainingRow>)
    requires Rows(xs) == Ok(acc)
    ensures RowOf(src).Err? ==> Rows(xs + [src]) == Err(RowOf(src).error)
    ensures RowOf(src) == Ok(None) ==> Rows(xs + [src]) == Ok(acc)
    ensures RowOf(src).Ok? && RowOf(src).value.Some? ==> Rows(xs + [src]) == Ok(acc + [RowOf(src).value.value])
  {
    var ys := xs + [src];
    assert ys[..|ys| - 1] == xs && ys[|ys| - 1] == src;
  }

  /** The pairs up to quote `i` are those before it and then its own. */
  lemma {:induction false} SourcesStep(quotes: seq<QuoteRecord>, i: int)
    requires 0 <= i < |quotes|
    ensures Sources(quotes[..i + 1]) == Sources(quotes[..i]) + SourcesOf(quotes[i])
  {
    var p := quotes[..i + 1];
    assert p[..|p| - 1] == quotes[..i];
    assert p[|p| - 1] == quotes[i];
  }

  /** The pairs after quote `i` follow the pairs up to and including it. */
  lemma {:induction false} RestOfSources(quotes: seq<QuoteRecord>, i: int)
    requires 0 <= i < |quotes|
    ensures Sources(quotes) == Sources(quotes[..i + 1]) + Sources(quotes[i + 1..])
  {
    var pre, post := quotes[..i + 1], quotes[i + 1..];
    assert pre + post == quotes;
    SourcesAppend(pre, post);
  }

  lemma {:induction false} SourcesAppend(a: seq<QuoteRecord>, b: seq<QuoteRecord>)
    ensures Sources(a + b) == Sources(a) + Sources(b)
    decreases |b|
  {
    if |b| == 0 {
      assert a + b == a;
    } else {
      var c := b[..|b| - 1];
      assert (a + b)[..|a + b| - 1] == a + c;
      assert (a + b)[|a + b| - 1] == b[|b| - 1];
      var x, y, z := Sources(a), Sources(c), SourcesOf(b[|b| - 1]);
      assert Sources(b) == y + z;
      assert Sources(a + b) == Sources(a + c) + z;
      SourcesAppend(a, c);
      assert (x + y) + z == x + (y + z);
    }
  }

  /** Once a pair has raised, later pairs do not matter. */
  lemma {:induction false} RowsErrorPersists(a: seq<Source>, b: seq<Source>)
    requires Rows(a).Err?
    ensures Rows(a + b) == Rows(a)
    decreases |b|
  {
    if |b| > 0 {
      var c := b[..|b| - 1];
      RowsErrorPersists(a, c);
      assert (a + b)[..|a + b| - 1] == a + c;
    } else {
      assert a + b == a;
    }
  }

  /** Every row comes from one of the pairs, as `RowOf` builds it. */
  lemma {:induction false} RowsComeFromSources(srcs: seq<Source>, row: TrainingRow)
    requires Rows(srcs).Ok? && row in Rows(srcs).value
    ensures exists k :: 0 <= k < |srcs| && RowOf(srcs[k]) == Ok(Some(row))
    decreases |srcs|
  {
    var init := srcs[..|srcs| - 1];
    var last := srcs[|srcs| - 1];
    if row in Rows(init).value {
      RowsComeFromSources(init, row);
      var k :| 0 <= k < |init| && RowOf(init[k]) == Ok(Some(row));
      assert srcs[k] == init[k];
    } else {
      assert RowOf(last) == Ok(Some(row));
    }
  }

  /** The loop visits every specification of every quote, and nothing else. */
  lemma {:induction false} SourcesCover(quotes: seq<QuoteRecord>)
    ensures forall i, j :: 0 <= i < |quotes| && 0 <= j < |quotes[i].product_specs| ==>
              Source(quotes[i], quotes[i].product_specs[j]) in Sources(quotes)
    ensures forall src :: src in Sources(quotes) ==>
              exists i :: 0 <= i < |quotes| && src.quote == quotes[i] && src.spec in quotes[i].product_specs
  {
    SourcesVisitAll(quotes);
    SourcesVisitOnly(quotes);
  }

  /** Every specification of every quote is visited. */
  lemma {:induction false} SourcesVisitAll(quotes: seq<QuoteRecord>)
    ensures forall i, j :: 0 <= i < |quotes| && 0 <= j < |quotes[i].product_specs| ==>
              Source(quotes[i], quotes[i].product_specs[j]) in Sources(quotes)
  {
    if |quotes| > 0 {
      var init := quotes[..|quotes| - 1];
      var last := quotes[|quotes| - 1];
      SourcesVisitAll(init);
      forall i, j | 0 <= i < |quotes| && 0 <= j < |quotes[i].product_specs|
        ensures Source(quotes[i], quotes[i].product_specs[j]) in Sources(quotes)
      {
        if i < |init| {
          assert quotes[i] == init[i];
        } else {
          assert SourcesOf(last)[j] == Source(quotes[i], quotes[i].product_specs[j]);
        }
      }
    }
  }

  /** Nothing but a specification of one of the quotes is visited. */
  lemma {:induction false} SourcesVisitOnly(quotes: seq<QuoteRecord>)
    ensures forall src :: src in Sources(quotes) ==>
              exists i :: 0 <= i < |quotes| && src.quote == quotes[i] && src.spec in quotes[i].product_specs
  {
    if |quotes| > 0 {
      var init := quotes[..|quotes| - 1];
      var last := quotes[|quotes| - 1];
      SourcesVisitOnly(init);
      forall src | src in Sources(quotes)
        ensures exists i :: 0 <= i < |quotes| && src.quote == quotes[i] && src.spec in quotes[i].product_specs
      {
        if src in Sources(init) {
          var i :| 0 <= i < |init| && src.quote == init[i] && src.spec in init[i].product_specs;
          assert quotes[i] == init[i];
        } else {
          assert src in SourcesOf(last);
          var j :| 0 <= j < |SourcesOf(last)| && SourcesOf(last)[j] == src;
          assert src.spec == last.product_specs[j];
        }
      }
    }
  }

  /** `prepare_training_data` raises exactly when some specification of some
      quote has no machining complexity, even one whose row would have been
      dropped for another null. */
  lemma {:induction false} TrainingDataFailsIff(quotes: seq<QuoteRecord>)
    ensures TrainingData(quotes).Err? <==>
              exists i, j :: 0 <= i < |quotes| && 0 <= j < |quotes[i].product_specs|
                             && quotes[i].product_specs[j].machining_complexity.None?
  {
    var srcs := Sources(quotes);
    if TrainingData(quotes).Err? {
      var k :| 0 <= k < |srcs| && srcs[k].spec.machining_complexity.None?;
      var src := srcs[k];
      assert exists i :: 0 <= i < |quotes| && src.quote == quotes[i] && src.spec in quotes[i].product_specs by {
        assert src in srcs;
        SourcesVisitOnly(quotes);
      }
      var i :| 0 <= i < |quotes| && src.quote == quotes[i] && src.spec in quotes[i].product_specs;
      var j :| 0 <= j < |quotes[i].product_specs| && quotes[i].product_specs[j] == src.spec;
    }
    if exists i, j :: 0 <= i < |quotes| && 0 <= j < |quotes[i].product_specs|
                      && quotes[i].product_specs[j].machining_complexity.None? {
      var i, j :| 0 <= i < |quotes| && 0 <= j < |quotes[i].product_specs|
                  && quotes[i].product_specs[j].machining_complexity.None?;
      var src := Source(quotes[i], quotes[i].product_specs[j]);
      assert src in srcs by {
        SourcesVisitAll(quotes);
      }
      var k :| 0 <= k < |srcs| && srcs[k] == src;
      assert srcs[k].spec.machining_complexity.None?;
    }
  }

  /** A quote without specifications adds nothing, wherever it stands. */
  lemma {:induction false} QuoteWithoutSpecs(quotes: seq<QuoteRecord>, q: QuoteRecord)
    requires q.product_specs == []
    ensures TrainingData(quotes + [q]) == TrainingData(quotes)
  {
    assert (quotes + [q])[..|quotes|] == quotes;
    assert Sources(quotes + [q]) == Sources(quotes) + [];
    assert Sources(quotes) + [] == Sources(quotes);
  }
}
