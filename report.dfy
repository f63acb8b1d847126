/** The evaluation driver's pure parts: the comparison report over several
    models' evaluations of one source, and the metadata read from a model
    output file. */
module Report {
  import opened Wrappers
  import opened Json
  import opened Models
  import opened Numeric
  import opened Text
  import Ranking

  datatype ComparisonReport = ComparisonReport(
    sourceFile: string,
    evaluations: seq<EvaluationResult>,
    rankedModels: seq<string>,
    bestModel: Option<string>,
    bestScore: Option<real>,
    averageScore: Option<real>)

  function OverallOf(e: EvaluationResult): real
  {
    e.scores.overallScore
  }

  function ModelIds(es: seq<EvaluationResult>): (r: seq<string>)
    ensures |r| == |es| && forall i :: 0 <= i < |es| ==> r[i] == es[i].metadata.modelId
  {
    seq(|es|, i requires 0 <= i < |es| => es[i].metadata.modelId)
  }

  function OverallScores(es: seq<EvaluationResult>): (r: seq<real>)
    ensures |r| == |es| && forall i :: 0 <= i < |es| ==> r[i] == OverallOf(es[i])
  {
    seq(|es|, i requires 0 <= i < |es| => OverallOf(es[i]))
  }

  /** `create_comparison_report`: the evaluations sorted by overall score,
      best first (a stable sort), give the ranking and the best entry; the
      average is over the evaluations in input order. */
  function CreateComparisonReport(sourcePath: string, evaluations: seq<EvaluationResult>): (r: ComparisonReport)
    ensures r.sourceFile == sourcePath && r.evaluations == evaluations
    ensures |r.rankedModels| == |evaluations|
    ensures evaluations == [] <==> r.bestModel.None?
    ensures evaluations == [] <==> r.bestScore.None?
    ensures evaluations == [] <==> r.averageScore.None?
  {
    var sorted := Ranking.SortDesc(evaluations, OverallOf);
    var ranked := ModelIds(sorted);
    var scores := OverallScores(evaluations);
    ComparisonReport(
      sourcePath,
      evaluations,
      ranked,
      if ranked != [] then Some(ranked[0]) else None,
      if sorted != [] then Some(OverallOf(sorted[0])) else None,
      if scores != [] then Some(Sum(scores) / |scores| as real) else None)
  }

  /** Each model appears in the ranking as often as it was evaluated, and
      the ranking follows non-increasing overall score. */
  lemma ReportRanking(sourcePath: string, evaluations: seq<EvaluationResult>)
    ensures var r := CreateComparisonReport(sourcePath, evaluations);
      multiset(r.rankedModels) == multiset(ModelIds(evaluations))
    ensures var r := CreateComparisonReport(sourcePath, evaluations);
      exists sorted: seq<EvaluationResult> ::
        multiset(sorted) == multiset(evaluations) && Ranking.SortedDesc(sorted, OverallOf)
        && r.rankedModels == ModelIds(sorted)
  {
    var sorted := Ranking.SortDesc(evaluations, OverallOf);
    Ranking.SortDescSorted(evaluations, OverallOf);
    MapPermutation(sorted, evaluations);
  }

  /** Mapping a permutation gives a permutation of the mapped values. */
  lemma {:induction false} MapPermutation(s: seq<EvaluationResult>, t: seq<EvaluationResult>)
    requires multiset(s) == multiset(t)
    ensures multiset(ModelIds(s)) == multiset(ModelIds(t))
    decreases |s|
  {
    if s == [] {
      assert |t| == |multiset(t)| == 0;
    } else {
      var n := |s| - 1;
      var x := s[n];
      assert s == s[..n] + [x];
      assert x in multiset(t);
      var k :| 0 <= k < |t| && t[k] == x;
      var rest := RemovedAt(t, k);
      MapPermutation(s[..n], rest);
      ModelIdsSnoc(s[..n], x);
      ModelIdsRemovedAt(t, k);
    }
  }

  function RemovedAt(t: seq<EvaluationResult>, k: nat): (r: seq<EvaluationResult>)
    requires k < |t|
    ensures multiset(r) == multiset(t) - multiset{t[k]}
  {
    assert t == t[..k] + [t[k]] + t[k + 1..];
    t[..k] + t[k + 1..]
  }

  lemma ModelIdsSnoc(s: seq<EvaluationResult>, x: EvaluationResult)
    ensures multiset(ModelIds(s + [x])) == multiset(ModelIds(s)) + multiset{x.metadata.modelId}
  {
    assert ModelIds(s + [x]) == ModelIds(s) + [x.metadata.modelId];
  }

  lemma ModelIdsRemovedAt(t: seq<EvaluationResult>, k: nat)
    requires k < |t|
    ensures multiset(ModelIds(t)) == multiset(ModelIds(RemovedAt(t, k))) + multiset{t[k].metadata.modelId}
  {
    var a, b := ModelIds(t[..k]), ModelIds(t[k + 1..]);
    assert ModelIds(t) == a + [t[k].metadata.modelId] + b;
    assert ModelIds(RemovedAt(t, k)) == a + b;
  }

  /** The best score is the largest overall score, and the best model is
      one evaluation holding it. */
  lemma ReportBest(sourcePath: string, evaluations: seq<EvaluationResult>)
    requires evaluations != []
    ensures var r := CreateComparisonReport(sourcePath, evaluations);
      r.bestScore.Some? && r.bestModel.Some?
      && (forall e :: e in evaluations ==> OverallOf(e) <= r.bestScore.value)
      && exists e :: e in evaluations && OverallOf(e) == r.bestScore.value && e.metadata.modelId == r.bestModel.value
  {
    var sorted := Ranking.SortDesc(evaluations, OverallOf);
    Ranking.SortDescSorted(evaluations, OverallOf);
    assert sorted[0] in multiset(evaluations);
    forall e | e in evaluations ensures OverallOf(e) <= OverallOf(sorted[0]) {
      assert e in multiset(sorted);
      var i :| 0 <= i < |sorted| && sorted[i] == e;
      if i > 0 {
        assert OverallOf(sorted[0]) >= OverallOf(sorted[i]);
      }
    }
  }

  /** The average is the mean of the overall scores, and it never exceeds
      the best score. */
  lemma ReportAverage(sourcePath: string, evaluations: seq<EvaluationResult>)
    requires evaluations != []
    ensures var r := CreateComparisonReport(sourcePath, evaluations);
      r.averageScore == Some(Mean(OverallScores(evaluations)))
      && r.averageScore.value <= r.bestScore.value
  {
    ReportBest(sourcePath, evaluations);
    MeanAtMost(evaluations, CreateComparisonReport(sourcePath, evaluations).bestScore.value);
  }

  lemma MeanAtMost(evaluations: seq<EvaluationResult>, best: real)
    requires evaluations != []
    requires forall e :: e in evaluations ==> OverallOf(e) <= best
    ensures Mean(OverallScores(evaluations)) <= best
  {
    ScoresAtMost(evaluations, best);
    QuotientAtMost(Sum(OverallScores(evaluations)), |evaluations| as real, best);
  }

  lemma ScoresAtMost(evaluations: seq<EvaluationResult>, m: real)
    requires forall e :: e in evaluations ==> OverallOf(e) <= m
    ensures Sum(OverallScores(evaluations)) <= |evaluations| as real * m
  {
    var scores := OverallScores(evaluations);
    forall i | 0 <= i < |scores| ensures scores[i] <= m {
      assert evaluations[i] in evaluations;
    }
    SumAtMost(scores, m);
  }

  lemma QuotientAtMost(a: real, n: real, m: real)
    requires n > 0.0 && a <= n * m
    ensures a / n <= m
  {
  }

  lemma {:induction false} SumAtMost(s: seq<real>, m: real)
    requires forall i :: 0 <= i < |s| ==> s[i] <= m
    ensures Sum(s) <= |s| as real * m
  {
    if s != [] {
      SumAtMost(s[1..], m);
    }
  }

  // ---------------------------------------------------------------------
  // extract_metadata
  // ---------------------------------------------------------------------

  /** The providers recognised in a file name, in the order they are
      tried. */
  const KnownProviders: seq<string> := ["bedrock", "deepseek", "google", "anthropic"]

  /** The provider guessed from a lower-cased file stem. */
  function InferredProvider(filename: string): string
  {
    if Contains(filename, "bedrock") then "bedrock"
    else if Contains(filename, "deepseek") then "deepseek"
    else if Contains(filename, "google") then "google"
    else if Contains(filename, "anthropic") then "anthropic"
    else "unknown"
  }

  /** A string field of the metadata model: anything else fails
      validation. */
  function StringField(v: Json): Result<string, string>
  {
    if v.JString? then Success(v.s) else Failure("ValidationError: expected a string")
  }

  /** `extract_metadata(json_data, file_path)`, with `stem` the file name
      without its extension. A non-empty `_metadata` value supplies the
      provider, model id and supporting model id; otherwise the provider is
      guessed from the stem. */
  function ExtractMetadata(data: seq<Member>, stem: string): (r: Result<ModelMetadata, string>)
    ensures !Truthy(GetOr(data, "_metadata", JObject([]))) ==> r.Success? && r.value.modelId == stem
  {
    var metadata := GetOr(data, "_metadata", JObject([]));
    if Truthy(metadata) then
      if !metadata.JObject? then Failure("AttributeError: _metadata has no get")
      else
        var ms := metadata.members;
        var supporting := GetOr(ms, "supporting_model_id", JNull);
        match (StringField(GetOr(ms, "provider", JString("unknown"))), StringField(GetOr(ms, "model_id", JString(stem))))
        case (Success(p), Success(m)) =>
          if supporting.JNull? then Success(ModelMetadata(p, m, None))
          else if supporting.JString? then Success(ModelMetadata(p, m, Some(supporting.s)))
          else Failure("ValidationError: supporting_model_id")
        case _ => Failure("ValidationError: provider or model_id")
    else
      Success(ModelMetadata(InferredProvider(Lower(stem)), stem, None))
  }

  /** Without metadata, the provider is the first known provider named in
      the lower-cased stem, or "unknown" exactly when none is. */
  lemma InferredFromStem(data: seq<Member>, stem: string)
    requires !Truthy(GetOr(data, "_metadata", JObject([])))
    ensures var m := ExtractMetadata(data, stem).value;
      m.supportingModelId == None
      && (m.provider == "unknown" <==> forall k :: 0 <= k < |KnownProviders| ==> !Contains(Lower(stem), KnownProviders[k]))
      && (m.provider != "unknown" ==> m.provider in KnownProviders && Contains(Lower(stem), m.provider))
      && (forall k, j :: 0 <= j < k < |KnownProviders| && KnownProviders[k] == m.provider ==>
            !Contains(Lower(stem), KnownProviders[j]))
  {
    assert KnownProviders[0] == "bedrock" && KnownProviders[1] == "deepseek";
    assert KnownProviders[2] == "google" && KnownProviders[3] == "anthropic";
  }

  /** With a metadata dict, its entries win, and absent entries default to
      "unknown" and the stem. */
  lemma MetadataFromDict(data: seq<Member>, stem: string)
    requires var md := GetOr(data, "_metadata", JObject([])); md.JObject? && md.members != []
    requires ExtractMetadata(data, stem).Success?
    ensures var ms := GetOr(data, "_metadata", JObject([])).members;
      var m := ExtractMetadata(data, stem).value;
      (if HasKey(ms, "provider") then Get(ms, "provider") == Some(JString(m.provider)) else m.provider == "unknown")
      && (if HasKey(ms, "model_id") then Get(ms, "model_id") == Some(JString(m.modelId)) else m.modelId == stem)
      && (m.supportingModelId.None? <==> GetOr(ms, "supporting_model_id", JNull) == JNull)
  {
  }
}
