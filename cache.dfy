/** The evaluation-results cache: a per-model accumulator of runs (run
    count, running sums, best and latest run, a ten-entry history) and a
    keyed collection of such accumulators with a leaderboard. */
module Cache {
  import opened Wrappers
  import opened Models
  import opened Numeric
  import opened Text
  import Ranking

  /** The arguments of one `add_run` call, as far as the cache keeps them. */
  datatype Run = Run(scores: AggregateScores, timestamp: string, cost: real, inputTokens: int, outputTokens: int)

  function RunOf(result: EvaluationResult, cost: real, inputTokens: int, outputTokens: int): Run
  {
    Run(result.scores, result.timestamp, cost, inputTokens, outputTokens)
  }

  /** One `run_history` dictionary. */
  datatype HistoryEntry = HistoryEntry(
    timestamp: string,
    overallScore: real,
    schemaCompliance: real,
    structuralAccuracy: real,
    semanticAccuracy: real,
    configAccuracy: real,
    cost: real,
    inputTokens: int,
    outputTokens: int)

  function EntryOf(r: Run): HistoryEntry
  {
    HistoryEntry(r.timestamp, r.scores.overallScore, r.scores.schemaCompliance,
                 r.scores.structuralAccuracy, r.scores.semanticAccuracy,
                 r.scores.configAccuracy, r.cost, r.inputTokens, r.outputTokens)
  }

  /** The five score dimensions that are summed and averaged. */
  datatype Dim = SchemaCompliance | StructuralAccuracy | SemanticAccuracy | ConfigAccuracy | Overall

  function ScoreOf(s: AggregateScores, d: Dim): real
  {
    match d
    case SchemaCompliance => s.schemaCompliance
    case StructuralAccuracy => s.structuralAccuracy
    case SemanticAccuracy => s.semanticAccuracy
    case ConfigAccuracy => s.configAccuracy
    case Overall => s.overallScore
  }

  /** The scores of one dimension over all runs, in call order. */
  function Column(runs: seq<Run>, d: Dim): (c: seq<real>)
    ensures |c| == |runs|
    ensures forall i :: 0 <= i < |runs| ==> c[i] == ScoreOf(runs[i].scores, d)
  {
    seq(|runs|, i requires 0 <= i < |runs| => ScoreOf(runs[i].scores, d))
  }

  function Costs(runs: seq<Run>): (c: seq<real>)
    ensures |c| == |runs|
    ensures forall i :: 0 <= i < |runs| ==> c[i] == runs[i].cost
  {
    seq(|runs|, i requires 0 <= i < |runs| => runs[i].cost)
  }

  /** Python's `sum()` over a list of ints. */
  function IntSum(s: seq<int>): int
  {
    if s == [] then 0 else IntSum(s[..|s| - 1]) + s[|s| - 1]
  }

  function InputTokens(runs: seq<Run>): seq<int>
  {
    seq(|runs|, i requires 0 <= i < |runs| => runs[i].inputTokens)
  }

  function OutputTokens(runs: seq<Run>): seq<int>
  {
    seq(|runs|, i requires 0 <= i < |runs| => runs[i].outputTokens)
  }

  /** Keep only the newest ten entries. */
  function KeepLastTen(h: seq<HistoryEntry>): seq<HistoryEntry>
  {
    if |h| > 10 then h[|h| - 10..] else h
  }

  /** The values of all of a `CachedModelResult`'s mutable fields. */
  datatype Snapshot = Snapshot(
    runCount: int,
    totalSchemaCompliance: real,
    totalStructuralAccuracy: real,
    totalSemanticAccuracy: real,
    totalConfigAccuracy: real,
    totalOverallScore: real,
    totalCost: real,
    totalInputTokens: int,
    totalOutputTokens: int,
    bestScore: real,
    bestRunTimestamp: Option<string>,
    latestScore: real,
    latestRunTimestamp: Option<string>,
    runHistory: seq<HistoryEntry>)
  {
    /** The running sum of one score dimension. */
    function Total(d: Dim): real
    {
      match d
      case SchemaCompliance => totalSchemaCompliance
      case StructuralAccuracy => totalStructuralAccuracy
      case SemanticAccuracy => totalSemanticAccuracy
      case ConfigAccuracy => totalConfigAccuracy
      case Overall => totalOverallScore
    }
  }

  /** A freshly created entry: every counter and total zero, no best or
      latest run, empty history. */
  const Empty := Snapshot(0, 0.0, 0.0, 0.0, 0.0, 0.0, 0.0, 0, 0, 0.0, None, 0.0, None, [])

  /** `add_run` on the field values: count the run, add it to every running
      total, move the best score only on a strict improvement, overwrite the
      latest run, append to the history and keep its last ten entries. */
  function Step(s: Snapshot, r: Run): Snapshot
  {
    var score := r.scores.overallScore;
    var improved := score > s.bestScore;
    Snapshot(
      s.runCount + 1,
      s.totalSchemaCompliance + r.scores.schemaCompliance,
      s.totalStructuralAccuracy + r.scores.structuralAccuracy,
      s.totalSemanticAccuracy + r.scores.semanticAccuracy,
      s.totalConfigAccuracy + r.scores.configAccuracy,
      s.totalOverallScore + score,
      s.totalCost + r.cost,
      s.totalInputTokens + r.inputTokens,
      s.totalOutputTokens + r.outputTokens,
      if improved then score else s.bestScore,
      if improved then Some(r.timestamp) else s.bestRunTimestamp,
      score,
      Some(r.timestamp),
      KeepLastTen(s.runHistory + [EntryOf(r)]))
  }

  /** The field values after these runs, starting from a fresh entry. */
  function Replay(runs: seq<Run>): Snapshot
  {
    if runs == [] then Empty else Step(Replay(runs[..|runs| - 1]), runs[|runs| - 1])
  }

  lemma ReplayAppend(runs: seq<Run>, r: Run)
    ensures Replay(runs + [r]) == Step(Replay(runs), r)
  {
    assert (runs + [r])[..|runs|] == runs;
  }

  /** The counter is the number of runs, and every running total is the sum
      of that quantity over all runs. */
  lemma {:induction false} ReplayTotals(runs: seq<Run>)
    ensures Replay(runs).runCount == |runs|
    ensures forall d: Dim :: Replay(runs).Total(d) == Sum(Column(runs, d))
    ensures Replay(runs).totalCost == Sum(Costs(runs))
    ensures Replay(runs).totalInputTokens == IntSum(InputTokens(runs))
    ensures Replay(runs).totalOutputTokens == IntSum(OutputTokens(runs))
  {
    ReplayCount(runs);
    forall d: Dim ensures Replay(runs).Total(d) == Sum(Column(runs, d)) {
      ReplayTotal(runs, d);
    }
    ReplayCost(runs);
    ReplayTokens(runs);
  }

  lemma {:induction false} ReplayCount(runs: seq<Run>)
    ensures Replay(runs).runCount == |runs|
  {
    if runs != [] {
      ReplayCount(runs[..|runs| - 1]);
    }
  }

  lemma {:induction false} ReplayTotal(runs: seq<Run>, d: Dim)
    ensures Replay(runs).Total(d) == Sum(Column(runs, d))
  {
    if runs != [] {
      var init := runs[..|runs| - 1];
      var r := runs[|runs| - 1];
      ReplayTotal(init, d);
      assert Column(runs, d) == Column(init, d) + [ScoreOf(r.scores, d)];
      SumAppend(Column(init, d), ScoreOf(r.scores, d));
    }
  }

  lemma {:induction false} ReplayCost(runs: seq<Run>)
    ensures Replay(runs).totalCost == Sum(Costs(runs))
  {
    if runs != [] {
      var init := runs[..|runs| - 1];
      var r := runs[|runs| - 1];
      ReplayCost(init);
      assert Costs(runs) == Costs(init) + [r.cost];
      SumAppend(Costs(init), r.cost);
    }
  }

  lemma {:induction false} ReplayTokens(runs: seq<Run>)
    ensures Replay(runs).totalInputTokens == IntSum(InputTokens(runs))
    ensures Replay(runs).totalOutputTokens == IntSum(OutputTokens(runs))
  {
    if runs != [] {
      var init := runs[..|runs| - 1];
      ReplayTokens(init);
      assert InputTokens(runs)[..|runs| - 1] == InputTokens(init);
      assert OutputTokens(runs)[..|runs| - 1] == OutputTokens(init);
    }
  }

  function Entries(runs: seq<Run>): (h: seq<HistoryEntry>)
    ensures |h| == |runs|
    ensures forall i :: 0 <= i < |runs| ==> h[i] == EntryOf(runs[i])
  {
    seq(|runs|, i requires 0 <= i < |runs| => EntryOf(runs[i]))
  }

  function Min(a: int, b: int): int
  {
    if a <= b then a else b
  }

  /** The history holds the entries of the last min(n, 10) runs, oldest
      first. */
  lemma {:induction false} HistoryIsLastRuns(runs: seq<Run>)
    ensures Replay(runs).runHistory == Entries(runs[|runs| - Min(|runs|, 10)..])
  {
    if runs != [] {
      var init := runs[..|runs| - 1];
      HistoryIsLastRuns(init);
      var k := |init| - Min(|init|, 10);
      var appended := Entries(init[k..]) + [EntryOf(runs[|runs| - 1])];
      assert appended == Entries(runs[k..]) by {
        assert init[k..] + [runs[|runs| - 1]] == runs[k..];
      }
      if |appended| > 10 {
        assert runs[k..][1..] == runs[k + 1..];
        assert appended[|appended| - 10..] == Entries(runs[k + 1..]);
      }
    }
  }

  lemma HistoryBounded(runs: seq<Run>)
    ensures |Replay(runs).runHistory| == Min(|runs|, 10)
  {
    HistoryIsLastRuns(runs);
  }

  /** After twelve runs the history holds runs 3 to 12. */
  lemma HistoryAfterTwelve(runs: seq<Run>)
    requires |runs| == 12
    ensures Replay(runs).runHistory == Entries(runs[2..])
  {
    HistoryIsLastRuns(runs);
  }

  /** The best score is the maximum of 0.0 and every overall score. */
  lemma {:induction false} BestScoreIsMax(runs: seq<Run>)
    ensures Replay(runs).bestScore >= 0.0
    ensures forall i :: 0 <= i < |runs| ==> Replay(runs).bestScore >= runs[i].scores.overallScore
    ensures Replay(runs).bestScore == 0.0
      || exists i :: 0 <= i < |runs| && Replay(runs).bestScore == runs[i].scores.overallScore
  {
    if runs != [] {
      var init := runs[..|runs| - 1];
      BestScoreIsMax(init);
      var best := Replay(runs).bestScore;
      if Replay(init).bestScore != 0.0 && best == Replay(init).bestScore {
        var i :| 0 <= i < |init| && best == init[i].scores.overallScore;
        assert runs[i] == init[i];
      }
      forall i | 0 <= i < |runs| ensures best >= runs[i].scores.overallScore {
        if i < |init| {
          assert runs[i] == init[i];
        }
      }
    }
  }

  /** No best timestamp is recorded exactly when no run scored above 0.0;
      one that is recorded belongs to a run with the best score. */
  lemma {:induction false} BestTimestampNoneIff(runs: seq<Run>)
    ensures Replay(runs).bestRunTimestamp.None? <==> forall i :: 0 <= i < |runs| ==> runs[i].scores.overallScore <= 0.0
    ensures Replay(runs).bestRunTimestamp.Some? ==>
      exists i :: 0 <= i < |runs| && runs[i].timestamp == Replay(runs).bestRunTimestamp.value
        && runs[i].scores.overallScore == Replay(runs).bestScore
  {
    if runs != [] {
      var init := runs[..|runs| - 1];
      var last := runs[|runs| - 1];
      BestTimestampNoneIff(init);
      BestScoreIsMax(init);
      if last.scores.overallScore > Replay(init).bestScore {
        assert runs[|runs| - 1] == last;
      } else {
        forall i | 0 <= i < |init| ensures runs[i] == init[i] { }
        if Replay(init).bestRunTimestamp.Some? {
          var i :| 0 <= i < |init| && init[i].timestamp == Replay(init).bestRunTimestamp.value
            && init[i].scores.overallScore == Replay(init).bestScore;
          assert runs[i] == init[i];
        } else {
          assert last.scores.overallScore <= 0.0;
        }
      }
    }
  }

  /** The latest score and timestamp are those of the newest run. */
  lemma ReplayLatest(runs: seq<Run>)
    requires runs != []
    ensures Replay(runs).latestScore == runs[|runs| - 1].scores.overallScore
    ensures Replay(runs).latestRunTimestamp == Some(runs[|runs| - 1].timestamp)
  {
  }

  /** `CachedModelResult`: one model's runs against one source file. */
  class CachedModelResult {
    const modelId: string
    const provider: string
    var runCount: int

    var totalSchemaCompliance: real
    var totalStructuralAccuracy: real
    var totalSemanticAccuracy: real
    var totalConfigAccuracy: real
    var totalOverallScore: real

    var totalCost: real
    var totalInputTokens: int
    var totalOutputTokens: int

    var bestScore: real
    var bestRunTimestamp: Option<string>

    var latestScore: real
    var latestRunTimestamp: Option<string>

    var runHistory: seq<HistoryEntry>

    /** Every run added so far, in call order. */
    ghost var runs: seq<Run>

    function State(): Snapshot
      reads this
    {
      Snapshot(runCount, totalSchemaCompliance, totalStructuralAccuracy, totalSemanticAccuracy,
               totalConfigAccuracy, totalOverallScore, totalCost, totalInputTokens, totalOutputTokens,
               bestScore, bestRunTimestamp, latestScore, latestRunTimestamp, runHistory)
    }

    /** The fields are what replaying the runs so far gives. */
    ghost predicate Valid()
      reads this
    {
      State() == Replay(runs)
    }

    constructor (modelId: string, provider: string)
      ensures Valid() && runs == [] && State() == Empty
      ensures this.modelId == modelId && this.provider == provider
    {
      this.modelId := modelId;
      this.provider := provider;
      runCount := 0;
      totalSchemaCompliance, totalStructuralAccuracy, totalSemanticAccuracy := 0.0, 0.0, 0.0;
      totalConfigAccuracy, totalOverallScore := 0.0, 0.0;
      totalCost, totalInputTokens, totalOutputTokens := 0.0, 0, 0;
      bestScore, bestRunTimestamp := 0.0, None;
      latestScore, latestRunTimestamp := 0.0, None;
      runHistory := [];
      runs := [];
    }

    /** `add_run`: the fields move by one `Step`, and the run joins the
        ghost history, so the fields stay what replaying the runs gives. */
    method AddRun(result: EvaluationResult, cost: real, inputTokens: int, outputTokens: int)
      requires Valid()
      modifies this
      ensures Valid()
      ensures runs == old(runs) + [RunOf(result, cost, inputTokens, outputTokens)]
      ensures State() == Step(old(State()), RunOf(result, cost, inputTokens, outputTokens))
    {
      var run := RunOf(result, cost, inputTokens, outputTokens);
      ReplayAppend(runs, run);
      AddToTotals(run);
      RecordBestLatestAndHistory(run);
      runs := runs + [run];
    }

    /** The counting half of `add_run`: one more run, and its scores, cost
        and tokens added to the running totals. */
    method AddToTotals(run: Run)
      modifies this
      ensures runs == old(runs)
      ensures State() == old(State()).(
        runCount := old(runCount) + 1,
        totalSchemaCompliance := old(totalSchemaCompliance) + run.scores.schemaCompliance,
        totalStructuralAccuracy := old(totalStructuralAccuracy) + run.scores.structuralAccuracy,
        totalSemanticAccuracy := old(totalSemanticAccuracy) + run.scores.semanticAccuracy,
        totalConfigAccuracy := old(totalConfigAccuracy) + run.scores.configAccuracy,
        totalOverallScore := old(totalOverallScore) + run.scores.overallScore,
        totalCost := old(totalCost) + run.cost,
        totalInputTokens := old(totalInputTokens) + run.inputTokens,
        totalOutputTokens := old(totalOutputTokens) + run.outputTokens)
    {
      AddScores(run.scores);
      AddUsage(run);
    }

    /** The five score totals move by the run's scores. */
    method AddScores(scores: AggregateScores)
      modifies this
      ensures runs == old(runs)
      ensures State() == old(State()).(
        totalSchemaCompliance := old(totalSchemaCompliance) + scores.schemaCompliance,
        totalStructuralAccuracy := old(totalStructuralAccuracy) + scores.structuralAccuracy,
        totalSemanticAccuracy := old(totalSemanticAccuracy) + scores.semanticAccuracy,
        totalConfigAccuracy := old(totalConfigAccuracy) + scores.configAccuracy,
        totalOverallScore := old(totalOverallScore) + scores.overallScore)
    {
      totalSchemaCompliance := totalSchemaCompliance + scores.schemaCompliance;
      totalStructuralAccuracy := totalStructuralAccuracy + scores.structuralAccuracy;
      totalSemanticAccuracy := totalSemanticAccuracy + scores.semanticAccuracy;
      totalConfigAccuracy := totalConfigAccuracy + scores.configAccuracy;
      totalOverallScore := totalOverallScore + scores.overallScore;
    }

    /** The run counter, cost and token totals move by the run's. */
    method AddUsage(run: Run)
      modifies this
      ensures runs == old(runs)
      ensures State() == old(State()).(
        runCount := old(runCount) + 1,
        totalCost := old(totalCost) + run.cost,
        totalInputTokens := old(totalInputTokens) + run.inputTokens,
        totalOutputTokens := old(totalOutputTokens) + run.outputTokens)
    {
      runCount := runCount + 1;
      totalCost := totalCost + run.cost;
      totalInputTokens := totalInputTokens + run.inputTokens;
      totalOutputTokens := totalOutputTokens + run.outputTokens;
    }

    /** The recording half of `add_run`: best score on a strict improvement,
        latest run always, history appended and cut to its last ten. */
    method RecordBestLatestAndHistory(run: Run)
      modifies this
      ensures runs == old(runs)
      ensures var improved := run.scores.overallScore > old(bestScore);
        State() == old(State()).(
          bestScore := if improved then run.scores.overallScore else old(bestScore),
          bestRunTimestamp := if improved then Some(run.timestamp) else old(bestRunTimestamp),
          latestScore := run.scores.overallScore,
          latestRunTimestamp := Some(run.timestamp),
          runHistory := KeepLastTen(old(runHistory) + [EntryOf(run)]))
    {
      var scores := run.scores;
      if scores.overallScore > bestScore {
        bestScore := scores.overallScore;
        bestRunTimestamp := Some(run.timestamp);
      }

      latestScore := scores.overallScore;
      latestRunTimestamp := Some(run.timestamp);

      runHistory := runHistory + [EntryOf(run)];
      if |runHistory| > 10 {
        runHistory := runHistory[|runHistory| - 10..];
      }
    }

    /** `avg_*` for one score dimension: the mean over all runs, 0.0 before
        the first run. */
    function Avg(d: Dim): (r: real)
      reads this
      ensures Valid() ==> r == Mean(Column(runs, d))
    {
      ReplayTotals(runs);
      if runCount > 0 then State().Total(d) / runCount as real else 0.0
    }

    /** `avg_cost`. */
    function AvgCost(): (r: real)
      reads this
      ensures Valid() ==> r == Mean(Costs(runs))
    {
      ReplayTotals(runs);
      if runCount > 0 then totalCost / runCount as real else 0.0
    }

    /** `get_average_scores`: each average rounded to four decimals. */
    function GetAverageScores(): (r: AggregateScores)
      reads this
      ensures forall d: Dim :: ScoreOf(r, d) == Round4(Avg(d))
    {
      AggregateScores(
        Round4(Avg(SchemaCompliance)),
        Round4(Avg(StructuralAccuracy)),
        Round4(Avg(SemanticAccuracy)),
        Round4(Avg(ConfigAccuracy)),
        Round4(Avg(Overall)))
    }
  }

  /** Scores in [0,1] on every run give averages in [0,1]. */
  lemma AverageScoresInUnit(m: CachedModelResult)
    requires m.Valid()
    requires forall i :: 0 <= i < |m.runs| ==> forall d: Dim :: InUnit(ScoreOf(m.runs[i].scores, d))
    ensures forall d: Dim :: InUnit(m.Avg(d)) && InUnit(ScoreOf(m.GetAverageScores(), d))
  {
    forall d: Dim ensures InUnit(m.Avg(d)) && InUnit(ScoreOf(m.GetAverageScores(), d)) {
      assert AllInUnit(Column(m.runs, d));
      MeanInUnit(Column(m.runs, d));
      Round4InUnit(m.Avg(d));
    }
  }

  /** Two runs scoring 0.8 and 0.6 overall average to 0.7. */
  method TwoRunAverage(first: EvaluationResult, second: EvaluationResult) returns (avg: real)
    requires first.scores.overallScore == 0.8 && second.scores.overallScore == 0.6
    ensures avg == 0.7
  {
    var m := new CachedModelResult("model", "provider");
    m.AddRun(first, 0.0, 0, 0);
    m.AddRun(second, 0.0, 0, 0);
    assert m.totalOverallScore == 1.4;
    Round4Exact(7000);
    avg := m.GetAverageScores().overallScore;
  }

  /** The dictionary key of a model: `"{provider}:{model_id}"`. */
  function ModelKey(provider: string, modelId: string): string
  {
    provider + ":" + modelId
  }

  /** The key is the provider, a colon, then the model id. */
  lemma ModelKeyParts(provider: string, modelId: string)
    ensures var k := ModelKey(provider, modelId);
      && |k| == |provider| + 1 + |modelId| && k[|provider|] == ':'
      && k[..|provider|] == provider && k[|provider| + 1..] == modelId
  {
    var k := ModelKey(provider, modelId);
    assert k[..|provider|] == provider;
    assert k[|provider| + 1..] == modelId;
  }

  /** One leaderboard row: `(model_key, avg_score, run_count)`. */
  datatype RankEntry = RankEntry(key: string, avgScore: real, runCount: int)

  function AvgScoreOf(e: RankEntry): real
  {
    e.avgScore
  }

  /** `EvaluationCache`: every model's accumulator for one source file. The
      dictionary's insertion order is kept in `order`. */
  class EvaluationCache {
    var sourceFile: string
    var lastUpdated: string
    var models: map<string, CachedModelResult>
    var order: seq<string>
    ghost var Repr: set<object>

    ghost predicate Valid()
      reads this, Repr
    {
      && this in Repr
      && (forall k :: k in models ==> models[k] in Repr)
      && (forall k :: k in models ==> models[k].Valid())
      && (forall k :: k in models ==> k == ModelKey(models[k].provider, models[k].modelId))
      && (forall i :: 0 <= i < |order| ==> order[i] in models)
      && (forall k :: k in models ==> k in order)
      && (forall i, j :: 0 <= i < j < |order| ==> order[i] != order[j])
    }

    constructor (sourceFile: string, now: string)
      ensures Valid() && fresh(Repr)
      ensures this.sourceFile == sourceFile && lastUpdated == now && models == map[] && order == []
    {
      this.sourceFile := sourceFile;
      lastUpdated := now;
      models := map[];
      order := [];
      Repr := {this};
    }

    /** `get_or_create_model`: the entry under the model's key, created
        empty when the key is absent; an existing entry is never replaced. */
    method GetOrCreateModel(modelId: string, provider: string) returns (m: CachedModelResult)
      requires Valid()
      modifies this
      ensures Valid() && old(Repr) <= Repr && fresh(Repr - old(Repr))
      ensures sourceFile == old(sourceFile) && lastUpdated == old(lastUpdated)
      ensures ModelKey(provider, modelId) in models && m == models[ModelKey(provider, modelId)]
      ensures models.Keys == old(models.Keys) + {ModelKey(provider, modelId)}
      ensures forall k :: k in old(models) ==> models[k] == old(models[k]) && models[k].runs == old(models[k].runs)
      ensures ModelKey(provider, modelId) in old(models) ==> models == old(models) && order == old(order)
      ensures ModelKey(provider, modelId) !in old(models) ==>
        && fresh(m) && m.runs == [] && m.modelId == modelId && m.provider == provider
        && models == old(models)[ModelKey(provider, modelId) := m]
        && order == old(order) + [ModelKey(provider, modelId)]
    {
      var key := ModelKey(provider, modelId);
      if key !in models {
        m := CreateModel(modelId, provider);
      } else {
        m := models[key];
      }
    }

    /** A new empty entry under a key not yet present, appended to the
        dictionary's order. */
    method CreateModel(modelId: string, provider: string) returns (m: CachedModelResult)
      requires Valid() && ModelKey(provider, modelId) !in models
      modifies this
      ensures Valid() && Repr == old(Repr) + {m} && fresh(m)
      ensures sourceFile == old(sourceFile) && lastUpdated == old(lastUpdated)
      ensures m.runs == [] && m.modelId == modelId && m.provider == provider
      ensures models == old(models)[ModelKey(provider, modelId) := m]
      ensures models.Keys == old(models.Keys) + {ModelKey(provider, modelId)}
      ensures order == old(order) + [ModelKey(provider, modelId)]
    {
      var key := ModelKey(provider, modelId);
      m := new CachedModelResult(modelId, provider);
      models := models[key := m];
      order := order + [key];
      Repr := Repr + {m};
    }

    /** `add_evaluation`: add the run to the entry under the result's model
        key (created if needed) and stamp `last_updated`; every other entry
        is left as it was. */
    method AddEvaluation(result: EvaluationResult, cost: real, inputTokens: int, outputTokens: int, now: string)
      requires Valid()
      modifies this, Repr
      ensures Valid() && old(Repr) <= Repr && fresh(Repr - old(Repr))
      ensures sourceFile == old(sourceFile) && lastUpdated == now
      ensures var key := ModelKey(result.metadata.provider, result.metadata.modelId);
        && key in models
        && models.Keys == old(models.Keys) + {key}
        && order == (if key in old(models) then old(order) else old(order) + [key])
        && models[key].runs == (if key in old(models) then old(models[key].runs) else [])
                               + [RunOf(result, cost, inputTokens, outputTokens)]
        && (forall k :: k in old(models) && k != key ==>
              models[k] == old(models[k]) && models[k].runs == old(models[k].runs))
    {
      var key := ModelKey(result.metadata.provider, result.metadata.modelId);
      var m := GetOrCreateModel(result.metadata.modelId, result.metadata.provider);
      AddRunAt(key, RunOf(result, cost, inputTokens, outputTokens), result, cost, inputTokens, outputTokens, now);
    }

    /** The entry under `key` takes the run and `last_updated` is stamped;
        the keys, their order and every other entry stay as they were. */
    method AddRunAt(key: string, ghost run: Run, result: EvaluationResult, cost: real, inputTokens: int, outputTokens: int, now: string)
      requires Valid() && key in models
      requires run == RunOf(result, cost, inputTokens, outputTokens)
      modifies this, models[key]
      ensures Valid() && Repr == old(Repr)
      ensures sourceFile == old(sourceFile) && lastUpdated == now
      ensures models == old(models) && order == old(order)
      ensures models[key].runs == old(models[key].runs) + [run]
      ensures forall k :: k in models && k != key ==> models[k].runs == old(models[k].runs)
    {
      var m := models[key];
      m.AddRun(result, cost, inputTokens, outputTokens);
      lastUpdated := now;
      forall k | k in models && k != key
        ensures models[k] != m
        ensures models[k].runs == old(models[k].runs)
        ensures models[k].Valid()
      {
        assert k == ModelKey(models[k].provider, models[k].modelId);
      }
    }

    /** The `(key, avg, run_count)` rows in the dictionary's order. */
    function Unranked(): (rows: seq<RankEntry>)
      requires Valid()
      reads this, Repr
      ensures |rows| == |order|
      ensures forall i :: 0 <= i < |order| ==>
        rows[i] == RankEntry(order[i], models[order[i]].Avg(Overall), models[order[i]].runCount)
    {
      seq(|order|, i requires 0 <= i < |order| && Valid() reads this, Repr =>
        RankEntry(order[i], models[order[i]].Avg(Overall), models[order[i]].runCount))
    }

    /** `get_rankings`: the rows sorted by average overall score, highest
        first; Python's sort is stable, so ties keep dictionary order. */
    function GetRankings(): (r: seq<RankEntry>)
      requires Valid()
      reads this, Repr
      ensures |r| == |models|
      ensures multiset(r) == multiset(Unranked())
    {
      OrderCoversKeys();
      Ranking.SortDesc(Unranked(), AvgScoreOf)
    }

    /** Averages never increase down the leaderboard, and models with equal
        averages appear in the order they were first added. */
    lemma RankingsOrdered()
      requires Valid()
      ensures Ranking.SortedDesc(GetRankings(), AvgScoreOf)
      ensures forall v: real :: Ranking.WithKey(GetRankings(), AvgScoreOf, v) == Ranking.WithKey(Unranked(), AvgScoreOf, v)
    {
      Ranking.SortDescSorted(Unranked(), AvgScoreOf);
      forall v: real ensures Ranking.WithKey(GetRankings(), AvgScoreOf, v) == Ranking.WithKey(Unranked(), AvgScoreOf, v) {
        Ranking.SortDescStable(Unranked(), AvgScoreOf, v);
      }
    }

    /** The order lists each key once, so it has as many entries as the
        dictionary. */
    lemma OrderCoversKeys()
      requires Valid()
      ensures |order| == |models|
    {
      OrderCard(order, models.Keys);
    }
  }

  lemma {:induction false} OrderCard(order: seq<string>, keys: set<string>)
    requires forall i :: 0 <= i < |order| ==> order[i] in keys
    requires forall k :: k in keys ==> k in order
    requires forall i, j :: 0 <= i < j < |order| ==> order[i] != order[j]
    ensures |order| == |keys|
  {
    if order != [] {
      var last := order[|order| - 1];
      var init := order[..|order| - 1];
      forall k | k in keys - {last} ensures k in init {
        var i :| 0 <= i < |order| && order[i] == k;
      }
      OrderCard(init, keys - {last});
    }
  }

  // get_cache_path --------------------------------------------------------

  /** `s.rfind(c)`: the last position of `c`, or -1. */
  function LastIndexOf(s: string, c: char): (r: int)
    ensures -1 <= r < |s|
    ensures r >= 0 ==> s[r] == c && forall j :: r < j < |s| ==> s[j] != c
    ensures r == -1 <==> c !in s
  {
    if s == [] then -1
    else if s[|s| - 1] == c then |s| - 1
    else LastIndexOf(s[..|s| - 1], c)
  }

  /** `PurePath.stem` of a file name: the name without its last suffix; a
      leading dot or a trailing dot does not start a suffix. */
  function Stem(name: string): (r: string)
    ensures StartsWith(name, r)
    ensures r != name ==> 0 < |r| < |name| - 1 && name[|r|] == '.' && '.' !in name[|r| + 1..]
    ensures r == name ==> forall i :: 0 < i < |name| - 1 && name[i] == '.' ==> '.' in name[i + 1..]
  {
    var i := LastIndexOf(name, '.');
    if 0 < i < |name| - 1 then name[..i] else name
  }

  /** `get_cache_path`: `cache_dir / f"cache_{stem}.json"`, with paths as
      lists of segments. */
  function CachePath(cacheDir: seq<string>, sourceFile: seq<string>): seq<string>
  {
    var name := if sourceFile == [] then "" else sourceFile[|sourceFile| - 1];
    cacheDir + ["cache_" + Stem(name) + ".json"]
  }

  /** The stem of `n.json` is `n`. */
  lemma StemOfJson(n: string)
    requires n != ""
    ensures Stem(n + ".json") == n
  {
    var s := n + ".json";
    var i := LastIndexOf(s, '.');
    assert s[|n|] == '.';
    assert s[|n| + 1] == 'j' && s[|n| + 2] == 's' && s[|n| + 3] == 'o' && s[|n| + 4] == 'n';
    assert i == |n|;
    assert s[..i] == n;
  }

  /** The cache file sits directly in the cache directory; for a source
      `n.json` it is `cache_n.json`. */
  lemma CachePathLayout(cacheDir: seq<string>, sourceDir: seq<string>, n: string)
    requires n != ""
    ensures var r := CachePath(cacheDir, sourceDir + [n + ".json"]);
      |r| == |cacheDir| + 1 && r[..|cacheDir|] == cacheDir && r[|cacheDir|] == "cache_" + n + ".json"
  {
    StemOfJson(n);
    assert (sourceDir + [n + ".json"])[|sourceDir|] == n + ".json";
    var r := CachePath(cacheDir, sourceDir + [n + ".json"]);
    assert r[..|cacheDir|] == cacheDir;
  }
}
