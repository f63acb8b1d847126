/** The helpers of the benchmark entry point (`main.py`): file-system safe
    names, the output layout `{base}/{provider}/{model}/{stem}.json`, and
    the per-provider-and-model totals of the recorded API usage handed to
    the evaluation. */
module Benchmark {
  import opened Wrappers
  import opened Text

  /** The characters a name must not keep in a path segment. */
  predicate Unsafe(c: char)
  {
    c == '.' || c == '/' || c == ':'
  }

  predicate PathSafe(s: string)
  {
    forall i :: 0 <= i < |s| ==> !Unsafe(s[i])
  }

  /** `sanitize_name`: three chained `str.replace` calls. */
  function SanitizeName(name: string): (r: string)
    ensures |r| == |name|
    ensures forall i :: 0 <= i < |name| ==> r[i] == if Unsafe(name[i]) then '_' else name[i]
    ensures PathSafe(r)
  {
    ReplaceChar(ReplaceChar(ReplaceChar(name, '.', '_'), '/', '_'), ':', '_')
  }

  /** A name is left alone exactly when it is already safe. */
  lemma SanitizeNameFixed(name: string)
    ensures SanitizeName(name) == name <==> PathSafe(name)
  {
    if SanitizeName(name) == name {
      assert PathSafe(SanitizeName(name));
    }
  }

  /** Sanitising twice is sanitising once. */
  lemma SanitizeNameIdempotent(name: string)
    ensures SanitizeName(SanitizeName(name)) == SanitizeName(name)
  {
    SanitizeNameFixed(SanitizeName(name));
  }

  /** The two providers, by their `value`. */
  datatype Provider = Bedrock | Deepseek

  function ProviderValue(p: Provider): string
  {
    match p
    case Bedrock => "bedrock"
    case Deepseek => "deepseek"
  }

  /** The part of a model configuration the output layout reads. */
  datatype ModelConfig = ModelConfig(modelId: string, supportingModelId: Option<string>)

  /** `if model_config.supporting_model_id:` — `None` and `""` are falsy. */
  predicate HasSupportingModel(c: ModelConfig)
  {
    c.supportingModelId.Some? && c.supportingModelId.value != ""
  }

  /** `get_model_display_name`. */
  function DisplayName(c: ModelConfig): (r: string)
    ensures StartsWith(r, c.modelId)
    ensures HasSupportingModel(c) <==> |r| > |c.modelId|
  {
    if HasSupportingModel(c) then c.modelId + "+" + c.supportingModelId.value else c.modelId
  }

  /** When neither id contains '+', the display name splits back at '+'
      into the model id and, if there is one, the supporting model id. */
  lemma DisplayNameSplit(c: ModelConfig)
    requires '+' !in c.modelId
    requires c.supportingModelId.Some? ==> '+' !in c.supportingModelId.value
    ensures Split(DisplayName(c), '+') ==
      if HasSupportingModel(c) then [c.modelId, c.supportingModelId.value] else [c.modelId]
  {
    if HasSupportingModel(c) {
      var sup := c.supportingModelId.value;
      SplitAtSeparator(c.modelId, sup, '+');
      SplitNoSeparator(sup, '+');
    } else {
      SplitNoSeparator(c.modelId, '+');
    }
  }

  /** `get_output_path`, as the list of path segments. */
  function OutputPath(base: seq<string>, provider: Provider, c: ModelConfig, pdfStem: string): seq<string>
  {
    base + [SanitizeName(ProviderValue(provider)), SanitizeName(DisplayName(c)), pdfStem + ".json"]
  }

  /** The result lies three levels under the base: one directory for the
      provider and one for the model, neither of which can contain a
      separator or a dot, and the `.json` file named after the document. */
  lemma OutputPathLayout(base: seq<string>, provider: Provider, c: ModelConfig, pdfStem: string)
    ensures var r := OutputPath(base, provider, c, pdfStem);
      |r| == |base| + 3 && r[..|base|] == base &&
      r[|base|] == SanitizeName(ProviderValue(provider)) && '/' !in r[|base|] &&
      r[|base| + 1] == SanitizeName(DisplayName(c)) && '/' !in r[|base| + 1] && |r[|base| + 1]| == |DisplayName(c)| &&
      r[|base| + 2][..|pdfStem|] == pdfStem && EndsWith(r[|base| + 2], ".json")
  {
    var r := OutputPath(base, provider, c, pdfStem);
    assert r[..|base|] == base;
    var p := r[|base|];
    var m := r[|base| + 1];
    assert PathSafe(p) && PathSafe(m);
  }

  // The usage totals handed to the evaluation -----------------------------

  /** The part of a `UsageRecord` the totals read. */
  datatype UsageRecord = UsageRecord(provider: string, model: string, inputTokens: int, outputTokens: int, costUsd: real)

  /** `{"cost": ..., "input_tokens": ..., "output_tokens": ...}`. */
  datatype Usage = Usage(cost: real, inputTokens: int, outputTokens: int)

  const NoUsage := Usage(0.0, 0, 0)

  /** `f"{record.provider}:{record.model}"`. */
  function UsageKey(r: UsageRecord): string
  {
    r.provider + ":" + r.model
  }

  function AddRecord(u: Usage, r: UsageRecord): Usage
  {
    Usage(u.cost + r.costUsd, u.inputTokens + r.inputTokens, u.outputTokens + r.outputTokens)
  }

  /** The totals after the records, folded one record at a time. */
  function Aggregated(records: seq<UsageRecord>): map<string, Usage>
  {
    if records == [] then map[]
    else
      var m := Aggregated(records[..|records| - 1]);
      var r := records[|records| - 1];
      var key := UsageKey(r);
      m[key := AddRecord(if key in m then m[key] else NoUsage, r)]
  }

  /** The records under one key, in order. */
  function Matching(records: seq<UsageRecord>, key: string): seq<UsageRecord>
  {
    if records == [] then []
    else
      Matching(records[..|records| - 1], key) +
      (if UsageKey(records[|records| - 1]) == key then [records[|records| - 1]] else [])
  }

  /** The sums over some records. */
  function Totals(records: seq<UsageRecord>): Usage
  {
    if records == [] then NoUsage else AddRecord(Totals(records[..|records| - 1]), records[|records| - 1])
  }

  /** The loop in `main` that fills `usage_data`. */
  method AggregateUsage(records: seq<UsageRecord>) returns (usage: map<string, Usage>)
    ensures usage == Aggregated(records)
  {
    usage := map[];
    for i := 0 to |records|
      invariant usage == Aggregated(records[..i])
    {
      var record := records[i];
      var key := UsageKey(record);
      if key !in usage {
        usage := usage[key := NoUsage];
      }
      usage := usage[key := AddRecord(usage[key], record)];
      assert records[..i + 1][..i] == records[..i];
    }
    assert records[..|records|] == records;
  }

  /** There is one entry per key some record has, and it holds the sums
      over exactly the records with that key. */
  lemma {:induction false} AggregatedSpec(records: seq<UsageRecord>, key: string)
    ensures key in Aggregated(records) <==> Matching(records, key) != []
    ensures key in Aggregated(records) ==> Aggregated(records)[key] == Totals(Matching(records, key))
  {
    if records != [] {
      var init := records[..|records| - 1];
      var last := records[|records| - 1];
      AggregatedSpec(init, key);
      if UsageKey(last) == key && Matching(init, key) == [] {
        assert Matching(records, key) == [last];
        assert Matching(records, key)[..0] == [];
      } else if UsageKey(last) == key {
        var ms := Matching(records, key);
        assert ms == Matching(init, key) + [last];
        assert ms[..|ms| - 1] == Matching(init, key) && ms[|ms| - 1] == last;
      } else {
        assert Matching(records, key) == Matching(init, key);
        var m := Aggregated(init);
        assert Aggregated(records) == m[UsageKey(last) := AddRecord(if UsageKey(last) in m then m[UsageKey(last)] else NoUsage, last)];
      }
    }
  }

  /** A key has records exactly when some record carries it. */
  lemma {:induction false} MatchingNonEmpty(records: seq<UsageRecord>, key: string)
    ensures Matching(records, key) != [] <==> exists i :: 0 <= i < |records| && UsageKey(records[i]) == key
  {
    if records != [] {
      var init := records[..|records| - 1];
      MatchingNonEmpty(init, key);
      if Matching(init, key) != [] {
        var i :| 0 <= i < |init| && UsageKey(init[i]) == key;
        assert records[i] == init[i];
      }
      if exists i :: 0 <= i < |records| && UsageKey(records[i]) == key {
        var i :| 0 <= i < |records| && UsageKey(records[i]) == key;
        if i < |init| {
          assert init[i] == records[i];
        }
      }
    }
  }
}
