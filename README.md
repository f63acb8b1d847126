# DeepParse-Engine evaluation core, modelled in Dafny

DeepParse-Engine extracts inspection templates from PDF documents with
several LLM providers and then scores each extraction against a reference
("source of truth") template. This project models the deterministic core
of that pipeline and proves properties of it:

- **Structural comparison** (`evaluation/field_comparator.py`): flattening
  a template into the sections that own fields, the similarity measures,
  the greedy section and field matching, and the per-field and per-section
  comparison records.
- **Scoring** (`evaluation/scorer.py`): the weighted field score, the
  section score with its bonuses, penalties and clamp, the four-dimension
  aggregate, and the in-place scoring pass.
- **Run cache and leaderboard** (`evaluation/cache.py`): the per-model
  accumulator (`CachedModelResult`) and the keyed cache with its rankings,
  both as classes, and the cache-file path.
- **Schema-validation results** (`evaluation/schema_validator.py`): error
  shaping, the compliance formula, field counting and the error text for
  the LLM judge.
- **Semantic-score merge** (`evaluation/llm_evaluator.py`): overwriting
  similarities with the judge's answer, the fallback answer, the response
  cleaning, the condensed view sent to the judge and the error summary.
- **Chunk merge** (`src/utils/merge.py`): merging partial section trees by
  name and renumbering field ids with a shared counter.
- **Lenient repair** (`src/schemas/inspection.py`): key filtering, enum
  repair, default filling, dropping rejected children and the counts.
- **Small helpers**: enum-string normalisation and fence stripping
  (`src/services/providers/bedrock.py`), the token price table
  (`src/config/pricing.py`), the comparison report and metadata inference
  (`evaluation/main.py`), and output paths and usage totals (`main.py`).

Python dicts are modelled by the `Json` datatype (module `Json`), whose
objects are ordered lists of members as in Python 3.7+. The typed
Pydantic records the comparator and scorer read are the datatypes of
module `Document` and `Models`. Floats are `real`s. `difflib`'s ratio,
Pydantic's `model_validate`, `json.dumps`, float formatting and the clock
are parameters of the operations that use them.

Modules, one file each: `Wrappers`, `Text`, `Numeric`, `Json`,
`Document`, `DocumentJson`, `Models`, `Similarity`, `FieldComparator`,
`Scorer`, `Ranking`, `Cache`, `SchemaValidator`, `Fences`,
`LlmEvaluator`, `Merge`, `Inspection`, `EnumNormalize`, `Pricing`,
`Report`, `Benchmark`.

## Model

| member | source | states |
|---|---|---|
| Similarity.NormalizeString | evaluation/field_comparator.py:67-69 | lower-case then strip; its partner Similarity.NormalizeStringIdempotent states that the result has no whitespace at either end and that normalising again changes nothing |
| Similarity.NormalizeStringIdempotent | evaluation/field_comparator.py:67-69 | a normalised string has no whitespace at either end, and normalising it again gives it back |
| Similarity.NormalizeSeq | evaluation/field_comparator.py:67-69 | each item of the list is lower-cased and trimmed, in place and order |
| Similarity.NormalizeListIsSetOfSeq | evaluation/field_comparator.py:72-74 | `normalize_list` is the set of the normalised items |
| Similarity.StringSimilarity | evaluation/field_comparator.py:77-84 | the ratio of the normalised strings lies in [0,1], and either empty raw string gives 0.0 |
| Similarity.StringSimilarityOfSameName | evaluation/field_comparator.py:77-84 | two non-empty names that normalise to the same non-empty string have similarity 1.0 |
| Similarity.JaccardInUnit | evaluation/field_comparator.py:98-103 | the intersection-over-union ratio lies in [0,1] |
| Similarity.JaccardOneIffEqual | evaluation/field_comparator.py:98-103 | on a non-empty union, the ratio is 1.0 exactly when the two sets are equal |
| Similarity.JaccardZeroIffDisjoint | evaluation/field_comparator.py:98-103 | on a non-empty union, the ratio is 0.0 exactly when the sets are disjoint |
| Similarity.ListSimilarity | evaluation/field_comparator.py:87-103 | the result lies in [0,1]; two empty lists give 1.0 and exactly one empty list gives 0.0 |
| Similarity.ListSimilarityOneIffSameItems | evaluation/field_comparator.py:87-103 | for non-empty lists, 1.0 exactly when both lists normalise to the same set |
| Similarity.ListSimilarityZeroIffDisjoint | evaluation/field_comparator.py:87-103 | for non-empty lists, 0.0 exactly when the normalised sets share nothing |
| Similarity.ListSimilarityReflexive | evaluation/field_comparator.py:87-103 | a list compared with itself scores 1.0 |
| Similarity.ListSimilaritySymmetric | evaluation/field_comparator.py:87-103 | the score does not depend on the order of the two arguments |
| Similarity.ListSimilarityExample | evaluation/field_comparator.py:87-103 | `["A","B"]` against `["a","c"]` scores exactly 1/3 |
| Similarity.OrderedListSimilarity | evaluation/field_comparator.py:106-134 | the result lies in [0,1]; the same empty-list rules as `list_similarity` |
| Similarity.OrderedListSimilarityOneIff | evaluation/field_comparator.py:106-121 | 1.0 exactly when both lists are empty, or are non-empty with equal normalised sequences |
| Similarity.OrderedListSimilarityReordered | evaluation/field_comparator.py:123-125 | the same normalised items in a different order score exactly 0.9 |
| Similarity.OrderedListSimilarityFallsBackToJaccard | evaluation/field_comparator.py:127-134 | when the normalised sets differ, the score is the Jaccard index of `list_similarity` |
| Similarity.OrderedListSimilarityExamples | evaluation/field_comparator.py:106-134 | `["Pass","Fail"]` against `["fail","pass"]` gives 0.9; equal lists give 1.0; empty against empty 1.0; one empty 0.0 |
| FieldComparator.WithFieldsOwnFields | evaluation/field_comparator.py:51-57 | every emitted section has a non-empty field list |
| FieldComparator.LeavesArePreOrderWithFields | evaluation/field_comparator.py:47-61 | the recursive collection emits exactly the sections with fields of the pre-order walk, children included below emitted parents |
| FieldComparator.LeavesOfArePreOrderWithFields | evaluation/field_comparator.py:59-61 | the same for a list of child sections, walked in order |
| FieldComparator.CollectSections | evaluation/field_comparator.py:47-61 | the closure appends to the accumulator exactly the pre-order sections that own fields |
| FieldComparator.FirstVersionLeaves | evaluation/field_comparator.py:39-64 | every section returned owns at least one field |
| FieldComparator.ExtractSections | evaluation/field_comparator.py:28-64 | no versions gives `[]`; otherwise the result is the pre-order sections with fields of the first version's structure only |
| FieldComparator.CompareFieldConfig | evaluation/field_comparator.py:137-158 | both list similarities of the ten-part diff lie in [0,1] |
| FieldComparator.MatchingFlags | evaluation/field_comparator.py:165-178 | at most 8 of the boolean checks hold; exactly 8 when all eight hold and 0 when none does |
| FieldComparator.ConfigScoreInUnit | evaluation/field_comparator.py:161-187 | 0.7 × the boolean share + 0.3 × the mean list score lies in [0,1] |
| FieldComparator.ConfigScoreOneIff | evaluation/field_comparator.py:161-187 | the score is 1.0 exactly when all eight flags match and both list similarities are 1.0 |
| FieldComparator.ConfigScoreOfSelf | evaluation/field_comparator.py:137-187 | comparing a field's configuration with itself matches every flag and scores 1.0 |
| FieldComparator.FreshPicksInjective | evaluation/field_comparator.py:196-220 | no two reference items are paired with the same candidate index |
| FieldComparator.FreshPicksCount | evaluation/field_comparator.py:196-220 | the number of used candidates equals the number of matched items and never exceeds the number of candidates |
| FieldComparator.AboveThreshold | evaluation/field_comparator.py:212 | a candidate is eligible exactly when its score is strictly above the threshold (0.5 here, 0.3 at line 256) |
| FieldComparator.BestSection | evaluation/field_comparator.py:200-218 | the scan returns an unused candidate with similarity > 0.5 and the highest one, the earliest on ties, or none when no unused candidate passes 0.5 |
| FieldComparator.MatchSections | evaluation/field_comparator.py:190-222 | one pick per reference section in order, each the greedy choice given the candidates used before it, and no candidate index used twice |
| FieldComparator.MatchScore | evaluation/field_comparator.py:249-254 | the 0.1 bonus for equal ids is capped: the score lies between the name similarity and 1.0 |
| FieldComparator.BestField | evaluation/field_comparator.py:235-262 | the pick is the unused candidate of highest capped score among those whose raw name similarity is > 0.3, the earliest on ties; the score is that capped score, in [0,1], and positive above 0.3 exactly when there is a pick |
| FieldComparator.MatchFields | evaluation/field_comparator.py:225-266 | one (pick, score) per reference field in order, each the greedy choice given earlier picks, no candidate used twice, score in [0,1] and > 0.3 exactly when matched |
| FieldComparator.GreedyPickUnique | evaluation/field_comparator.py:205-218 | given the scores, the eligibility and the used indices, at most one pick is the greedy one |
| FieldComparator.SectionMatchingUnique | evaluation/field_comparator.py:190-222 | two complete section matchings of the same input are the same picks |
| FieldComparator.FieldPickUnique | evaluation/field_comparator.py:240-262 | one field's greedy pick and its score are determined by the used indices |
| FieldComparator.FieldMatchingStep | evaluation/field_comparator.py:225-266 | two field matchings that agree before a field agree on it |
| FieldComparator.FieldMatchingUnique | evaluation/field_comparator.py:225-266 | two complete field matchings of the same input are the same picks and scores |
| FieldComparator.CompareField | evaluation/field_comparator.py:269-323 | a missing counterpart gives MISSING with every score 0.0 and no config; otherwise ids and names copied, rating match, config diff and score, options similarity equal to the exact match, EXACT iff the name similarity > 0.9, and a zero similarity recomputed from the names |
| FieldComparator.CompareFieldOfSelf | evaluation/field_comparator.py:269-323 | a field compared with itself is EXACT with name, options and config scores all 1.0 |
| FieldComparator.CompareSection | evaluation/field_comparator.py:326-383 | the record follows `compare_section` (`IsSectionComparison`): without a counterpart the unmatched record; with one, the record built from a greedy field matching, each reference field compared with its pick; matched + missing = reference count, extra = model count − matched ≥ 0, counts consistent, every score in [0,1] |
| FieldComparator.UnmatchedSection | evaluation/field_comparator.py:333-346 | no counterpart: no matches, every field MISSING with score 0, missing = reference count, extra 0 |
| FieldComparator.CompareMatchedSection | evaluation/field_comparator.py:348-383 | with a counterpart, the record is `MatchedSection` of some complete greedy field matching (so its field evaluations are the reference fields compared with their picks); the counting loop and the max(0, ·) of extra agree, and extra = model count − matched |
| FieldComparator.EvaluationsInUnit | evaluation/field_comparator.py:358-366 | with match scores in [0,1], every field evaluation keeps its scores in [0,1] |
| FieldComparator.EvaluateFieldMatches | evaluation/field_comparator.py:358-366 | the loop builds the evaluation of each (field, counterpart, score) triple in order and counts exactly the matched ones |
| FieldComparator.CountMatchedAllMissing | evaluation/field_comparator.py:333-346 | a list of MISSING evaluations counts no match |
| FieldComparator.MatchedSectionCounts | evaluation/field_comparator.py:358-383 | the record built from a field matching keeps reference order, has every score in [0,1], and its counts add up: matched + missing = reference fields, matched ≤ candidate fields, extra = candidate fields − matched |
| FieldComparator.MatchedCountBound | evaluation/field_comparator.py:358-365 | at most one match per reference field |
| FieldComparator.SectionComparisonUnique | evaluation/field_comparator.py:326-383 | `compare_section` is a function of its inputs: two records that both follow it are equal |
| FieldComparator.CompareTemplates | evaluation/field_comparator.py:386-412 | one section evaluation per extracted reference section, in order, each the `compare_section` record of that section against its counterpart under a complete greedy section matching of the extracted candidate sections; names, field counts, scores in [0,1] and consistent counts |
| FieldComparator.CompareMatchedSections | evaluation/field_comparator.py:407-410 | the loop gives each reference section the `compare_section` record against the candidate its pick names, or against none |
| Scorer.WeightsSumToOne | evaluation/scorer.py:20-36 | every weight is non-negative and both weight tables sum to exactly 1.0 in the reals |
| Scorer.Max | evaluation/scorer.py:52 | `max` is one of its arguments and bounds both |
| Scorer.FieldScore | evaluation/scorer.py:39-97 | the weighted field score; its partners Scorer.FieldScoreInUnit, Scorer.FieldScoreExtremes and Scorer.FieldScoreWithoutConfig state its range, its 0.0 for MISSING and exact 1.0 for a perfect field, and its 0.5 ceiling without a config diff |
| Scorer.FieldScoreInUnit | evaluation/scorer.py:39-97 | with every input similarity in [0,1], the rounded field score lies in [0,1] |
| Scorer.FieldScoreExtremes | evaluation/scorer.py:45-97 | MISSING scores 0.0; all similarities 1.0, a matching rating type and every config check true score exactly 1.0 |
| Scorer.FieldScoreWithoutConfig | evaluation/scorer.py:58-97 | without a config diff only name, options (the larger of the two option scores) and rating type count, so the score is at most 0.5 |
| Scorer.SectionScore | evaluation/scorer.py:100-129 | the clamped section score lies in [0,1] and is 0.0 for a section without fields |
| Scorer.Round4Monotone | evaluation/scorer.py:129 | rounding to four places never reverses an order |
| Scorer.SectionScorePerfect | evaluation/scorer.py:100-129 | perfect field scores, name similarity 1.0 and no missing or extra field give a section score of 1.0 |
| Scorer.SectionScoreAllMissing | evaluation/scorer.py:120-128 | when every reference field is missing the full 0.1 missing penalty applies |
| Scorer.CalculateAggregateScores | evaluation/scorer.py:132-207 | the four-dimension aggregate; its partners Scorer.AggregateInUnit, Scorer.AggregateOfNoSections and Scorer.AccuraciesIgnoreMissingField state that all five scores lie in [0,1], the values without sections, and that MISSING fields do not move the field accuracies |
| Scorer.AggregateOfNoSections | evaluation/scorer.py:146-207 | no sections: structural, semantic and config accuracy are 0 and overall is round(0.15 × compliance) |
| Scorer.AccuraciesIgnoreMissingField | evaluation/scorer.py:166-191 | adding a MISSING field with config score 0 changes neither semantic nor config accuracy |
| Scorer.MatchedSimilaritiesInUnit | evaluation/scorer.py:168-186 | the filtered similarity and config-score lists stay in [0,1] |
| Scorer.TotalsBounded | evaluation/scorer.py:151-159 | matched fields never exceed source fields and matched sections never exceed the sections |
| Scorer.StructuralAccuracyInUnit | evaluation/scorer.py:149-164 | structural accuracy, the mean of the two ratios, lies in [0,1] |
| Scorer.FieldAccuraciesInUnit | evaluation/scorer.py:166-191 | semantic and config accuracy lie in [0,1] |
| Scorer.AggregateInUnit | evaluation/scorer.py:132-207 | every one of the five aggregate scores lies in [0,1] when compliance and the evaluations do |
| Scorer.ScoreFields | evaluation/scorer.py:222-223 | scoring keeps the number of fields |
| Scorer.ScoreSection | evaluation/scorer.py:220-226 | one section's scoring pass; its partners Scorer.ScoreSectionChangesOnlyScores, Scorer.ScoreSectionInUnit and Scorer.ScoreSectionIdempotent state that only the scores change, that they stay in [0,1], and that scoring twice is scoring once |
| Scorer.ScoreSectionChangesOnlyScores | evaluation/scorer.py:220-226 | scoring a section changes only each field's overall score, to its field score, and the section score, computed after the fields |
| Scorer.ScoreSectionInUnit | evaluation/scorer.py:220-226 | a scored section keeps every score in [0,1] |
| Scorer.ScoreSectionIdempotent | evaluation/scorer.py:220-226 | scoring twice is scoring once |
| Scorer.ScoreAllFields | evaluation/scorer.py:210-228 | the same list comes back, each section replaced by its scored form |
| Ranking.SortDesc | evaluation/cache.py:183 | `sorted(..., reverse=True)` returns a permutation of its input |
| Ranking.SortDescSorted | evaluation/cache.py:183 | the sorted list is non-increasing by key |
| Ranking.SortDescStable | evaluation/cache.py:183 | the sort is stable: the items of any one key keep their input order |
| Ranking.InsertSorted | evaluation/cache.py:183 | inserting into a non-increasing list keeps it non-increasing |
| Ranking.InsertWithKey | evaluation/cache.py:183 | an insertion places the new item after every earlier item of the same key |
| Cache.Step | evaluation/cache.py:65-101 | one run's update of the accumulator state; Cache.CachedModelResult.AddRun states that the in-place method performs exactly this step |
| Cache.Replay | evaluation/cache.py:65-101 | the state after a sequence of runs, one step per run; its partners Cache.ReplayTotals, Cache.ReplayCount, Cache.ReplayTotal, Cache.ReplayCost, Cache.ReplayTokens and Cache.ReplayLatest state the run count, the column sums and the latest run |
| Cache.ReplayTotals | evaluation/cache.py:65-77 | after any sequence of runs, the run count is their number and each running total is the sum of that column over the runs |
| Cache.ReplayCount | evaluation/cache.py:65 | each run adds exactly one to `run_count` |
| Cache.ReplayTotal | evaluation/cache.py:67-72 | each score total is the sum of that score over all runs |
| Cache.ReplayCost | evaluation/cache.py:75 | the total cost is the sum of the costs passed |
| Cache.ReplayTokens | evaluation/cache.py:76-77 | the token totals are the sums of the token counts passed |
| Cache.HistoryIsLastRuns | evaluation/cache.py:89-101 | the history holds the entries of the last min(n, 10) runs, in call order |
| Cache.HistoryBounded | evaluation/cache.py:100-101 | the history has exactly min(n, 10) entries |
| Cache.HistoryAfterTwelve | evaluation/cache.py:89-101 | after twelve runs the history holds runs 3 to 12 |
| Cache.BestScoreIsMax | evaluation/cache.py:80-82 | the best score is max(0, every overall score): at least 0 and every score, and 0 or one of them |
| Cache.BestTimestampNoneIff | evaluation/cache.py:80-82 | the best timestamp stays unset exactly when no run scored above 0, and otherwise is the timestamp of a run with the best score |
| Cache.ReplayLatest | evaluation/cache.py:85-86 | the latest score and timestamp are those of the newest run |
| Cache.CachedModelResult.constructor | evaluation/cache.py:20-47 | a new accumulator has no runs and every counter, total and best at its default |
| Cache.CachedModelResult.AddRun | evaluation/cache.py:49-101 | the run is appended to the history of runs and the state becomes one step of the replay from the old state |
| Cache.CachedModelResult.AddToTotals | evaluation/cache.py:65-77 | the run count grows by one and the five score totals, cost and both token totals grow by the run's values; nothing else changes |
| Cache.CachedModelResult.AddScores | evaluation/cache.py:67-72 | each of the five score totals grows by that score |
| Cache.CachedModelResult.AddUsage | evaluation/cache.py:65-77 | run count, cost and token totals grow by the run's values |
| Cache.CachedModelResult.RecordBestLatestAndHistory | evaluation/cache.py:79-101 | best moves only on a strict improvement, latest always follows the run, and the history gets the entry and keeps its last ten |
| Cache.CachedModelResult.Avg | evaluation/cache.py:103-121 | each `avg_*` is the mean of that score over the runs, 0.0 without runs |
| Cache.CachedModelResult.AvgCost | evaluation/cache.py:123-125 | `avg_cost` is the mean cost over the runs, 0.0 without runs |
| Cache.CachedModelResult.GetAverageScores | evaluation/cache.py:127-135 | every reported average is the four-place rounding of the `avg_*` property |
| Cache.AverageScoresInUnit | evaluation/cache.py:103-135 | with every run's scores in [0,1], every average and rounded average is in [0,1] |
| Cache.TwoRunAverage | evaluation/cache.py:103-135 | overall scores 0.8 then 0.6 give an average of 0.7 |
| Cache.ModelKeyParts | evaluation/cache.py:146 | the key is the provider, a ':' and the model id |
| Cache.EvaluationCache.constructor | evaluation/cache.py:138-142 | a new cache has the source file, the given timestamp and no models |
| Cache.EvaluationCache.GetOrCreateModel | evaluation/cache.py:144-149 | the entry under "{provider}:{model_id}" is returned; a new one, without runs, is inserted only when the key is absent, and no existing entry changes |
| Cache.EvaluationCache.CreateModel | evaluation/cache.py:147-148 | the fresh entry is stored under the key and appended to the insertion order |
| Cache.EvaluationCache.AddEvaluation | evaluation/cache.py:151-172 | only the result's key gains a run (created if absent), every other entry keeps its runs, and `last_updated` becomes the given time |
| Cache.EvaluationCache.AddRunAt | evaluation/cache.py:171-172 | one run is appended to the entry under the key and no other entry changes |
| Cache.EvaluationCache.Unranked | evaluation/cache.py:180-182 | one (key, average overall score, run count) row per model, in insertion order |
| Cache.EvaluationCache.GetRankings | evaluation/cache.py:174-183 | the rankings hold exactly the unranked rows, one per model |
| Cache.EvaluationCache.RankingsOrdered | evaluation/cache.py:183 | the rankings are non-increasing by average, and models with equal averages keep insertion order |
| Cache.EvaluationCache.OrderCoversKeys | evaluation/cache.py:142 | the insertion order lists every model exactly once |
| Cache.LastIndexOf | evaluation/cache.py:227 | the index of the last occurrence of a character, −1 exactly when there is none |
| Cache.Stem | evaluation/cache.py:227 | the stem is a prefix of the name; when it differs, it is what comes before the last ".", which is neither the first nor the last character; when it is the whole name, no such dot exists |
| Cache.StemOfJson | evaluation/cache.py:227 | the stem of "n.json" is n |
| Cache.CachePath | evaluation/cache.py:224-228 | the cache-file path; its partner Cache.CachePathLayout states that for a source `n.json` it is `cache_n.json` directly inside the cache directory |
| Cache.CachePathLayout | evaluation/cache.py:224-228 | the cache file is "cache_{stem}.json" directly in the cache directory |
| SchemaValidator.LocTexts | evaluation/schema_validator.py:44 | each location step becomes its `str` text, in order |
| SchemaValidator.ErrorPathSplits | evaluation/schema_validator.py:44-45 | when no key holds a dot, the dotted path splits back into the location's texts |
| SchemaValidator.Take | evaluation/schema_validator.py:55 | a `[:n]` slice is a prefix of at most n characters, the whole string when it is short enough |
| SchemaValidator.ValueSnippet | evaluation/schema_validator.py:48-57 | none for a missing or null input; a scalar's text cut to 100 characters; a dict or list's JSON text, cut to 100 characters with "..." appended only when longer |
| SchemaValidator.ShapeAll | evaluation/schema_validator.py:42-63 | one error record per Pydantic error, in order, each with its path, message (default "Unknown validation error") and value snippet |
| SchemaValidator.ComplianceBounds | evaluation/schema_validator.py:68-69 | compliance lies in [0,1], is 1.0 exactly when there is no error, and more errors never raise it |
| SchemaValidator.CountTotalFields | evaluation/schema_validator.py:113-127 | the total is at least 1 |
| SchemaValidator.CountFieldsInSection | evaluation/schema_validator.py:130-137 | on the JSON form of a section, the recursive count is its own fields plus every descendant's fields |
| SchemaValidator.CountFieldsInSections | evaluation/schema_validator.py:134-135 | the sum over a list of child sections is the sum of their recursive counts |
| SchemaValidator.CountVersionsOf | evaluation/schema_validator.py:120-123 | summing over the versions counts the fields of every version, not only the first |
| SchemaValidator.CountVersionOf | evaluation/schema_validator.py:122-123 | one version contributes the recursive field count of its structure |
| SchemaValidator.CountTotalFieldsOfTemplate | evaluation/schema_validator.py:113-127 | for a template, the total is max(fields over all versions, 1) |
| SchemaValidator.ValidateSchema | evaluation/schema_validator.py:18-76 | `_metadata` is removed before validation; no error gives (valid, [], 0, 1.0); otherwise invalid, the shaped errors, their count and the compliance formula over the total field count; compliance is in [0,1] and 1.0 exactly when valid |
| SchemaValidator.ValidateSchemaFromFile | evaluation/schema_validator.py:79-110 | a missing file or unparsable JSON gives one "file" or "json" error, compliance 0.0; a parsed object is validated; a parsed non-object makes the call fail |
| SchemaValidator.FormatErrorsForLlm | evaluation/schema_validator.py:140-163 | the lines are built one error at a time and joined into the report text |
| SchemaValidator.ListedLinesHavePaths | evaluation/schema_validator.py:154-156 | each listed error contributes its numbered path line and its message line |
| SchemaValidator.ListedLinesShape | evaluation/schema_validator.py:154-158 | no listed line can be mistaken for the trailer |
| SchemaValidator.ReportListsErrors | evaluation/schema_validator.py:153-161 | each of the first 20 errors is listed under its 1-based number, and the "... and N more errors" trailer appears exactly when the error count exceeds 20 |
| Fences.StripFences | evaluation/llm_evaluator.py:280-289 | the fence stripping; its partners Fences.StripFencesOfFenced, Fences.StripFencesOfPlain and Fences.StripFencesTrimmed state that a fenced body comes back exactly, an unfenced reply is only trimmed, and the result is always trimmed |
| Fences.StripFencesOfFenced | evaluation/llm_evaluator.py:280-289 | a trimmed body between an opening json fence line and a closing fence comes back exactly |
| Fences.StripFencesOfPlain | evaluation/llm_evaluator.py:280-289 | a reply whose trimmed text has no fence at either end is only trimmed |
| Fences.StripFencesTrimmed | src/services/providers/bedrock.py:327-334 | the cleaned text never starts or ends with whitespace |
| Fences.StripEnds | evaluation/llm_evaluator.py:282 | `strip()` leaves no whitespace at either end |
| Fences.StripAround | evaluation/llm_evaluator.py:282 | `strip()` removes exactly the whitespace around a core that does not start or end with whitespace |
| LlmEvaluator.IndexByKeys | evaluation/llm_evaluator.py:340 | the dict comprehension has a key exactly when some entry carries it |
| LlmEvaluator.IndexByLast | evaluation/llm_evaluator.py:340 | a key maps to the last entry that carries it |
| LlmEvaluator.IndexByValues | evaluation/llm_evaluator.py:340 | every value of the lookup is one of the response's entries |
| LlmEvaluator.UpdatedFields | evaluation/llm_evaluator.py:352-358 | each field evaluation is updated from the field lookup, in place and order |
| LlmEvaluator.UpdateEvaluationsWithLlmScores | evaluation/llm_evaluator.py:325-360 | the same array comes back, each section replaced by its update from the lookup by source section name |
| LlmEvaluator.UpdateKeepsStructure | evaluation/llm_evaluator.py:342-358 | only the section name similarity and each field's name similarity, options similarity and reasoning can change; a section the response does not name is unchanged |
| LlmEvaluator.UpdateUsesLastEntries | evaluation/llm_evaluator.py:340-358 | the last response entry for a section, and within it the last entry for a field id, supply the new values |
| LlmEvaluator.UpdateInUnit | evaluation/llm_evaluator.py:342-358 | with the response's similarities in [0,1], the updated evaluation keeps every score in [0,1] |
| LlmEvaluator.Fallback | evaluation/llm_evaluator.py:291-360 | the fallback response; LlmEvaluator.CreateFallbackResponse states that it has one entry per section evaluation, and its partner LlmEvaluator.FallbackRoundTrip that applying it changes only the options similarity, to the exact-match score |
| LlmEvaluator.FallbackFields | evaluation/llm_evaluator.py:303-310 | one fallback field per field evaluation, in order |
| LlmEvaluator.CreateFallbackResponse | evaluation/llm_evaluator.py:291-322 | one section per section evaluation and one field per field evaluation, in order; none or an empty list gives no sections; the fixed assessment text |
| LlmEvaluator.FallbackRoundTrip | evaluation/llm_evaluator.py:291-360 | applying the fallback to the evaluations it came from keeps every score except that the options similarity becomes the exact-match score, with the fallback reasoning |
| LlmEvaluator.ErrorLines | evaluation/llm_evaluator.py:180 | one "- path: message" line per listed error |
| LlmEvaluator.ErrorSummary | evaluation/llm_evaluator.py:178-183 | the error summary sent to the judge; its partner LlmEvaluator.ErrorSummaryLines states that it splits into the lines of the first 20 errors plus the "... and N more errors" line exactly when there are more |
| LlmEvaluator.ErrorSummaryLines | evaluation/llm_evaluator.py:178-183 | the summary splits into the lines of the first 20 errors, plus "... and N more errors" exactly when there are more than 20 |
| LlmEvaluator.ErrorLinesSingle | evaluation/llm_evaluator.py:180-181 | each error line is a single line when its path and message are |
| LlmEvaluator.CollectCondensed | evaluation/llm_evaluator.py:265-275 | the recursive closure appends exactly the condensed entries of the section tree, or fails where Python raises |
| LlmEvaluator.CollectSubsections | evaluation/llm_evaluator.py:274-275 | the loop over child sections appends the condensed entries of each child in order |
| LlmEvaluator.Condensed | evaluation/llm_evaluator.py:265-275 | the condensed view of a section tree; its partners LlmEvaluator.CondensedOfSection, LlmEvaluator.CondensedOwnFails and LlmEvaluator.CondensedAllFails state that on a well-formed tree it lists the comparator's sections with fields in pre-order, and where a malformed tree stops the walk |
| LlmEvaluator.CondensedOfDict | evaluation/llm_evaluator.py:265-275 | a dict section contributes its own entry, when it has fields, then its children's |
| LlmEvaluator.CondensedOwnFails | evaluation/llm_evaluator.py:266-273 | a malformed field list stops the walk before the children |
| LlmEvaluator.CondensedAllFails | evaluation/llm_evaluator.py:274-275 | the first failing child stops the walk |
| LlmEvaluator.ExtractForComparison | evaluation/llm_evaluator.py:246-278 | the result is the condensed view of the first version's structure, with `_metadata` dropped and `[]` without versions |
| LlmEvaluator.CondensedOfSection | evaluation/llm_evaluator.py:265-275 | on a well-formed section, the condensed entries are those of the comparator's sections with fields, in the same order |
| LlmEvaluator.CondensedOfSections | evaluation/llm_evaluator.py:274-275 | the same for a list of child sections |
| LlmEvaluator.FirstVersionCondensed | evaluation/llm_evaluator.py:258-277 | the first version's structure condenses to the comparator's sections of that version |
| LlmEvaluator.ExtractedOfTemplate | evaluation/llm_evaluator.py:246-278 | on a well-formed template, the condensed view lists the same sections in the same order as `extract_sections`, each field projected to id, name and options |
| LlmEvaluator.Evaluate | evaluation/llm_evaluator.py:154-244 | a failed call, a reply without the text or a reply that does not parse gives the fallback; a parsed reply is returned; a reply of the wrong shape or a document that cannot be condensed raises; a non-fallback result is always a parse |
| Merge.DeepCopy | src/utils/merge.py:48-54 | the copy equals the original value |
| Merge.NameMap | src/utils/merge.py:93-97 | every index in the name map points into the base sections |
| Merge.BuildNameMap | src/utils/merge.py:93-97 | the loop builds the name map, or fails where `section.get` raises on a non-dict |
| Merge.NameMapNames | src/utils/merge.py:93-97 | after a successful build every base section is a dict and every truthy name is in the map |
| Merge.NameMapLast | src/utils/merge.py:93-97 | only truthy names are keys, and each maps to the last base section with that name |
| Merge.NameMapIndexes | src/utils/merge.py:93-97 | every index maps back to a section with that name |
| Merge.NameMapFails | src/utils/merge.py:94-95 | the first non-dict base section stops the build |
| Merge.Merged | src/utils/merge.py:57-125 | an empty or non-dict incoming returns the base; an empty base returns the incoming |
| Merge.MergeSections | src/utils/merge.py:57-125 | the recursive merge computes `Merged`, failing where Python raises |
| Merge.MergeChildSections | src/utils/merge.py:99-111 | the loop over incoming child sections computes the specification of the child merge |
| Merge.MergeChildSection | src/utils/merge.py:100-111 | one incoming child is merged into its named base section or appended |
| Merge.MergeChildren | src/utils/merge.py:99-111 | merging children never drops a base section |
| Merge.MergeChild | src/utils/merge.py:100-111 | merging one child never drops a section |
| Merge.MergeChildrenNext | src/utils/merge.py:99 | the loop handles the incoming children one at a time in order |
| Merge.MergeChildAppends | src/utils/merge.py:109-111 | an incoming child with an empty or unknown name is appended as it is |
| Merge.MergeChildMerges | src/utils/merge.py:102-108 | an incoming child with a known name replaces its base section by their merge |
| Merge.MergeChildrenPlaces | src/utils/merge.py:88-113 | after the merge the base sections keep their places and names, and the unmatched incoming children follow in order |
| Merge.MergeChildrenKeep | src/utils/merge.py:99-111 | the same for any name map that indexes the base |
| Merge.MergeChildKeeps | src/utils/merge.py:100-111 | one step keeps the base places and names and appends at most the incoming child |
| Merge.MergedKeepsName | src/utils/merge.py:82-125 | merging a named section keeps its name |
| Merge.MergeChildrenFails | src/utils/merge.py:99-108 | the first failing child merge stops the loop |
| Merge.MergedKeepsKeys | src/utils/merge.py:82-125 | the merge keeps every key of the base and the value of every key other than `sections` and `fields` |
| Merge.MergedSectionsKeepsKeys | src/utils/merge.py:87-113 | the section merge changes no key but `sections` |
| Merge.AppendCopies | src/utils/merge.py:119-123 | the incoming fields are appended after the base fields, in order |
| Merge.MergedCount | src/utils/merge.py:57-125 | the merged section holds exactly as many fields as base and incoming together |
| Merge.MergedSectionsCount | src/utils/merge.py:87-113 | merging the child sections adds exactly the incoming children's fields and leaves `fields` alone |
| Merge.MergedFieldsCount | src/utils/merge.py:115-123 | appending the fields adds exactly the incoming own fields |
| Merge.MergeChildrenCount | src/utils/merge.py:99-111 | the child merge loop adds exactly the incoming children's field counts |
| Merge.MergeChildCount | src/utils/merge.py:100-111 | one incoming child adds exactly its field count, merged or appended |
| Merge.ChildFieldCountUpdate | src/utils/merge.py:105 | replacing a base section changes the count by the difference |
| Merge.Renumbered | src/utils/merge.py:128-149 | the counter advances by exactly the number of field ids in the tree |
| Merge.RegenerateFieldIds | src/utils/merge.py:128-149 | the method returns the renumbered section and leaves the counter where the specification stops, or fails where Python raises |
| Merge.RenumberOwnFields | src/utils/merge.py:139-143 | the section's own dict fields are numbered from the counter and the counter advances by their number |
| Merge.RenumberFields | src/utils/merge.py:140-143 | the loop numbers each dict field from the counter, in order, and skips the rest |
| Merge.RenumberChildren | src/utils/merge.py:146-149 | the children are renumbered from where the own fields stopped |
| Merge.RenumberChildSections | src/utils/merge.py:147-149 | the loop renumbers each dict child in turn, carrying the counter on |
| Merge.NumberedFields | src/utils/merge.py:140-143 | numbering keeps the list's length |
| Merge.NumberedFieldIds | src/utils/merge.py:140-143 | the numbered fields carry consecutive ids from the counter |
| Merge.NumberedFieldId | src/utils/merge.py:141-143 | a dict field gets the counter as its id |
| Merge.FieldIdsOfNonDicts | src/utils/merge.py:141 | non-dict fields get no id |
| Merge.RenumberedIds | src/utils/merge.py:128-149 | in pre-order, the renumbered tree's field ids are consecutive from the counter |
| Merge.NumberedOwnIds | src/utils/merge.py:139-143 | the own fields get consecutive ids and `sections` is untouched |
| Merge.NumberedRestIds | src/utils/merge.py:146-149 | the children's ids are consecutive from where the own fields stopped |
| Merge.RenumberedChildrenIds | src/utils/merge.py:147-149 | the first n children carry consecutive ids |
| Merge.RenumberedChildIds | src/utils/merge.py:148-149 | one more child keeps the earlier ones and continues the numbering |
| Merge.RenumberedChildrenFails | src/utils/merge.py:147-149 | the first failing child stops the loop |
| Merge.IdsFromConcat | src/utils/merge.py:143 | consecutive ids split at any point into two consecutive runs |
| Merge.MergeSectionResponses | src/utils/merge.py:14-45 | no responses give `{}`; otherwise the responses are folded with the section merge and renumbered from 1 |
| Merge.FoldedCount | src/utils/merge.py:33-39 | the folded result holds exactly the fields of all the responses together |
| Merge.FoldedStep | src/utils/merge.py:37-39 | each loop step merges the next response into the accumulated result |
| Merge.FoldedFails | src/utils/merge.py:37-39 | the first failing merge stops the fold |
| Merge.MergedResponses | src/utils/merge.py:14-45 | the merged and renumbered result; Merge.MergeSectionResponses computes it, and its partners Merge.FoldedCount and Merge.MergedResponsesIds state that it holds every field of the responses, numbered 1, 2, 3, … in pre-order |
| Merge.MergedResponsesIds | src/utils/merge.py:14-45 | the merged result's field ids are 1, 2, 3, … in pre-order, one per field of the fold |
| Inspection.CleanDictForModel | src/schemas/inspection.py:192-202 | the key filter; its partner Inspection.CleanDictForModelSpec states that it keeps exactly the valid keys with their values and reports exactly the present invalid keys |
| Inspection.CleanDictForModelSpec | src/schemas/inspection.py:192-202 | the cleaned dict holds exactly the valid keys with their values, and the removed set is exactly the present invalid keys |
| Inspection.EnumConfigWellFormed | src/schemas/inspection.py:211-216 | each configured default is one of its enum's values and no key is configured twice |
| Inspection.EnumConfigShape | src/schemas/inspection.py:211-216 | the four configured keys, enums and defaults, in order |
| Inspection.FixEnumValues | src/schemas/inspection.py:219-241 | the loop over the configuration computes the enum fix, failing where the membership test raises |
| Inspection.FixEnumGet | src/schemas/inspection.py:233-239 | one configuration entry changes only its own key, to the value or the default |
| Inspection.FixedEnums | src/schemas/inspection.py:219-241 | the enum repair; its partners Inspection.FixedEnumsSpec, Inspection.FixedAtValid, Inspection.FixedEnumsIdempotent and Inspection.FixedEnumsNoOp state when it fails, what each key then holds, that a fixed dict is a fixed point, and that valid dicts come back unchanged |
| Inspection.FixedEnumsSpec | src/schemas/inspection.py:219-241 | the fix fails exactly when a configured key holds an unhashable value; otherwise each key holds its value when valid, the enum's default when not, and an unconfigured key is untouched |
| Inspection.FixedEnumsFails | src/schemas/inspection.py:237 | the membership test raises exactly on an unhashable configured value |
| Inspection.NotConfiguredFixedAt | src/schemas/inspection.py:232-233 | a key outside the configuration is never changed |
| Inspection.FixedAtValid | src/schemas/inspection.py:232-239 | a present configured key always ends up holding one of its enum's values |
| Inspection.FixedEnumsIdempotent | src/schemas/inspection.py:219-241 | fixing a fixed dict changes nothing |
| Inspection.FixedEnumsNoOp | src/schemas/inspection.py:219-241 | a dict whose configured values are already valid comes back unchanged |
| Inspection.ApplyDefaults | src/schemas/inspection.py:273-276 | the default loop computes `WithDefaults` |
| Inspection.WithDefaultsGet | src/schemas/inspection.py:273-276 | a present key keeps its value, a missing key with a default gets it, any other stays missing |
| Inspection.ValidateFieldLenient | src/schemas/inspection.py:244-291 | the method computes the field outcome: cleaned, fixed, defaulted, then validated or skipped |
| Inspection.PreparedFieldFails | src/schemas/inspection.py:265-270 | preparing a field fails exactly when one of its three field enums is unhashable |
| Inspection.PreparedFieldGet | src/schemas/inspection.py:264-284 | every key of the prepared field holds the value of the cleaning, enum fix, defaults and id, name and rating fallbacks |
| Inspection.FilledFieldGet | src/schemas/inspection.py:279-284 | a missing or null id becomes index + 1, a missing or null name "Field index + 1", a missing rating type RADIO |
| Inspection.PreparedFieldKeys | src/schemas/inspection.py:264-284 | the prepared field has exactly the Field model's keys |
| Inspection.PreparedFieldEnums | src/schemas/inspection.py:264-284 | the prepared field's rating type is a valid non-unspecified value and both work order values are valid |
| Inspection.FieldDefaultKeysExact | src/schemas/inspection.py:175-189 | the Field model's defaults cover exactly its keys other than id, name and rating type |
| Inspection.SectionOutcome | src/schemas/inspection.py:294-358 | the lenient section outcome; Inspection.ValidateSectionLenient computes it, and its partners Inspection.SectionScalarsGet, Inspection.SectionScalarsFails and Inspection.ChildSectionsSpec state each prepared key, when preparing fails, and which children are kept |
| Inspection.ValidateSectionLenient | src/schemas/inspection.py:294-358 | the method computes the section outcome: cleaned, fixed, children validated recursively, defaults applied, then validated or skipped |
| Inspection.ValidateChildSections | src/schemas/inspection.py:324-330 | the loop keeps the valid child sections in order |
| Inspection.ValidateChildFields | src/schemas/inspection.py:333-338 | the loop keeps the valid fields in order, each validated with its index |
| Inspection.ChildSectionsSpec | src/schemas/inspection.py:324-330 | the child loop succeeds exactly when no child raises, and then keeps exactly the validated children, in their original order |
| Inspection.ChildFieldsSpec | src/schemas/inspection.py:333-338 | the same for the fields |
| Inspection.CollectKeeps | src/schemas/inspection.py:326-330 | the collected results are exactly the non-skipped outcomes at increasing positions |
| Inspection.CollectSucceeds | src/schemas/inspection.py:326-330 | the collection succeeds exactly when every outcome does |
| Inspection.CollectFirstFailure | src/schemas/inspection.py:326-330 | a failed collection reports the first failing outcome |
| Inspection.SectionScalarsGet | src/schemas/inspection.py:315-351 | each key of the prepared section holds the cleaned, fixed value or the "Unknown Section" and display type defaults, with `sections` and `fields` left to the children |
| Inspection.FixedFieldGet | src/schemas/inspection.py:265-270 | after cleaning and fixing, a field keeps only the Field model's keys, with its three enums repaired and everything else as given |
| Inspection.FixedSectionGet | src/schemas/inspection.py:316-321 | after cleaning and fixing, a section keeps only the Section model's keys, with its display type repaired and everything else as given |
| Inspection.SectionScalarsFails | src/schemas/inspection.py:321 | preparing a section fails exactly when its display type is unhashable |
| Inspection.NamedSectionGet | src/schemas/inspection.py:345-351 | a missing name becomes "Unknown Section" and a missing display type the unspecified one |
| Inspection.SectionDefaultsGet | src/schemas/inspection.py:348-351 | the Section model defaults only the display type |
| Inspection.ValidateVersion | src/schemas/inspection.py:388-410 | the method computes the version outcome |
| Inspection.VersionIdDefault | src/schemas/inspection.py:404 | the version id is the given one or index + 1 |
| Inspection.VersionWithoutStructure | src/schemas/inspection.py:395-396 | a version with a falsy structure is skipped |
| Inspection.TemplateOutcome | src/schemas/inspection.py:361-435 | the lenient template outcome; Inspection.ValidateTemplateLenient computes it, and its partners Inspection.TemplateVersionsSpec and Inspection.TemplateScalarsGet state which versions are kept and what each template key holds |
| Inspection.ValidateTemplateLenient | src/schemas/inspection.py:361-435 | the method computes the template outcome |
| Inspection.TemplateVersionsSpec | src/schemas/inspection.py:385-413 | the version loop succeeds exactly when no version raises, and then keeps exactly the validated versions in order |
| Inspection.TemplateScalarsGet | src/schemas/inspection.py:412-424 | each template key holds its given value or the defaults 1, "Extracted Inspection Template", `[]` or null |
| Inspection.TemplateNamedGet | src/schemas/inspection.py:413-419 | a template's given keys survive cleaning, and a missing id or name becomes 1 or "Extracted Inspection Template" |
| Inspection.TemplateDefaultValues | src/schemas/inspection.py:421-424 | the template model's defaults are `[]` for property ids and null otherwise |
| Inspection.CountSectionsPreOrder | src/schemas/inspection.py:438-440 | the section count is the number of sections in the pre-order walk |
| Inspection.CountFieldsPreOrder | src/schemas/inspection.py:443-445 | the field count is the sum of the own fields over the pre-order walk |
| Inspection.CountSectionsOfPreOrder | src/schemas/inspection.py:440 | the same for a list of sections |
| Inspection.CountFieldsOfPreOrder | src/schemas/inspection.py:445 | the same for a list of sections |
| Document.CountSections | src/schemas/inspection.py:438-440 | every tree counts at least its root |
| EnumNormalize.NormalizedEnum | src/services/providers/bedrock.py:153 | same length, every hyphen becomes an underscore and no lower-case letter or hyphen is left |
| EnumNormalize.Normalized | src/services/providers/bedrock.py:132-161 | scalars are unchanged, lists keep their length and dicts their keys |
| EnumNormalize.NormalizedEnumIdempotent | src/services/providers/bedrock.py:153 | normalizing an enum string twice equals normalizing it once |
| EnumNormalize.NormalizedMember | src/services/providers/bedrock.py:150-157 | a string under an enum key is normalized, every other value is walked |
| EnumNormalize.NormalizedItem | src/services/providers/bedrock.py:159-160 | each list item is walked in place |
| EnumNormalize.NormalizedIdempotent | src/services/providers/bedrock.py:132-161 | normalizing twice equals normalizing once |
| EnumNormalize.NormalizedExample | src/services/providers/bedrock.py:137 | "RATING_TYPE-select" becomes "RATING_TYPE_SELECT" |
| Pricing.GetPricing | src/config/pricing.py:64-75 | a rate exists exactly for the providers and models in the table |
| Pricing.RatesNonNegative | src/config/pricing.py:9-34 | every rate in the table is non-negative |
| Pricing.UnknownCostsNothing | src/config/pricing.py:55-57 | an unknown provider or model costs 0.0 |
| Pricing.CalculateCost | src/config/pricing.py:37-61 | the per-million-token cost; its partners Pricing.CostNonNegative, Pricing.NoTokensNoCost, Pricing.CostAdditive and Pricing.UnknownCostsNothing state that it is non-negative, zero for no tokens, additive over token batches, and zero for an unknown provider or model |
| Pricing.CostNonNegative | src/config/pricing.py:37-61 | non-negative token counts never cost less than 0 |
| Pricing.NoTokensNoCost | src/config/pricing.py:59-61 | no tokens cost nothing |
| Pricing.CostAdditive | src/config/pricing.py:59-61 | the cost of two batches of tokens is the sum of their costs |
| Pricing.DeepseekOcrFree | src/config/pricing.py:31-33 | the local OCR model is free |
| Pricing.Gpt5Example | src/config/pricing.py:59-61 | a million gpt-5 input tokens cost 1.25, a million output tokens 10.0 |
| Report.CreateComparisonReport | evaluation/main.py:201-224 | the report keeps the source and the evaluations, ranks every model, and has no best model, best score or average exactly when there are no evaluations |
| Report.ReportRanking | evaluation/main.py:206-208 | the ranked models are the model ids of a descending sort of the evaluations by overall score |
| Report.ReportBest | evaluation/main.py:210-211 | the best score is the highest overall score, and the best model has it |
| Report.ReportAverage | evaluation/main.py:213-214 | the average is the mean of the overall scores and never above the best |
| Report.ExtractMetadata | evaluation/main.py:87-116 | without `_metadata` the model id is the file stem |
| Report.InferredFromStem | evaluation/main.py:96-116 | the provider is the first of bedrock, deepseek, google, anthropic that the lower-cased stem contains, else "unknown"; no supporting model |
| Report.MetadataFromDict | evaluation/main.py:87-94 | a non-empty `_metadata` supplies the provider and model id, defaulting to "unknown" and the stem, and the supporting model |
| Benchmark.SanitizeName | main.py:27-29 | every ".", "/" and ":" becomes "_", nothing else changes, and the result has none of them |
| Benchmark.SanitizeNameFixed | main.py:27-29 | a name is unchanged exactly when it has none of the three characters |
| Benchmark.SanitizeNameIdempotent | main.py:27-29 | sanitizing twice equals sanitizing once |
| Benchmark.DisplayName | main.py:32-36 | the display name starts with the model id and is longer exactly when a supporting model is set |
| Benchmark.DisplayNameSplit | main.py:32-36 | splitting the display name at "+" gives back the model id and the supporting model |
| Benchmark.OutputPath | main.py:39-53 | the result-file path; its partner Benchmark.OutputPathLayout states its segments: base, sanitized provider, sanitized display name, then `<stem>.json`, none containing "/" |
| Benchmark.OutputPathLayout | main.py:39-53 | the path is the base, then the sanitized provider, the sanitized display name and "<stem>.json", no segment containing "/" |
| Benchmark.AggregateUsage | main.py:270-278 | the loop builds the aggregation map |
| Benchmark.AggregatedSpec | main.py:270-278 | a key is present exactly when some record has it, and holds the totals of cost and tokens of its records |

## Left out

- Network clients: the Bedrock client behind `evaluate` (`_get_client`, `client.converse`) is the parameter `ask`, whose answer is either a failed call (any `ClientError` or other exception) or a reply value; the prompt text is not modelled.
- Logging (`log`, the usage logger and the summary printing) has no effect on the results and is dropped.
- Foreign libraries are parameters: `difflib.SequenceMatcher.ratio` (any function into [0,1] that gives 1 on equal non-empty strings), Pydantic's `model_validate` (the `Validators` oracles), `json.loads` of the judge's reply (`parse`), `json.dumps` and float formatting.
- Floating point: scores and costs are `real`s, so the weight sums and averages are exact; `round(x, 4)` is the exact round-half-even of a real to four places.
- Timestamps (`datetime.now().isoformat()`) are strings supplied by the caller.
- File I/O: `load_json_file`, `load_cache` and `save_cache`, and the directory and file lookups of `evaluation/main.py` and `evaluation/runner.py`; `get_cache_path` and `get_output_path` build paths as lists of segments.
- Orchestration: `process_pdf`, `run_benchmark`, `run_post_extraction_evaluation`, `update_cache_with_results` and `print_summary` are not part of this model; the usage aggregation of `main.py` is modelled on its own, over the tracker's records.
- The comparator, scorer and judge read typed `Document` records: the `.get(key, default)` defaults of `extract_sections` (such as the section name "Unknown") are applied when the records are built and are not modelled there; the condensed view of `_extract_for_comparison` works on the raw dict and does model them.
- `ModelConfig` and `Provider` are defined outside the modelled files; the model keeps only the fields `main.py` reads (model id, optional supporting model id) and the provider's string value.
- Lenient repair keeps the validated child sections, fields and versions beside the repaired scalar keys instead of storing Pydantic objects inside the dict; keys filled in by defaults may therefore stand in a different position among the dict's keys than in Python.
- Scorer.ScoreAllFields: replaces each `SectionEvaluation` value in the array instead of mutating shared objects, so aliasing between evaluations is not modelled.
- LlmEvaluator.UpdateEvaluationsWithLlmScores: replaces each `SectionEvaluation` value in the array instead of mutating shared objects, so aliasing between evaluations is not modelled.
- Merge.MergeSectionResponses: a single response is copied and renumbered; the Python code's shallow `copy()` also rewrites the ids inside the caller's own nested dicts, which the value model does not capture.
- Merge.MergeSectionResponses: where the Python code would raise (a section or field list entry without `get`, a name that cannot be hashed) the model returns a failure instead.
- Similarity.NormalizeSeq: lower-cases with `Text.Lower`, which maps only the ASCII letters A to Z; Python's `str.lower` maps every cased Unicode letter ("FAÇADE" becomes "façade", the Kelvin sign becomes "k"), so on non-ASCII names the normalised items can differ from Python's.
- Similarity.StringSimilarity: compares the ASCII-only lower-cased strings (see `Text.Lower` above), so for names with non-ASCII capitals the similarity the model states is not the one Python computes.
- Similarity.NormalizeString: the same ASCII-only lower-casing; `Similarity.NormalizeStringIdempotent` is proved for that mapping, not for Python's full Unicode one.
- Similarity.ListSimilarity: its items are normalised with the ASCII-only lower-casing, so lists that differ only in non-ASCII capitals are not the same set here as in Python; `Similarity.OrderedListSimilarity` inherits the same gap.
- Report.ExtractMetadata: infers the provider from the ASCII-only lower-cased file stem; a stem whose capitals are non-ASCII (such as "BEDROC" followed by U+212A KELVIN SIGN, which Python lowers to "bedrock") gives "unknown" here.
- EnumNormalize.NormalizedEnum: upper-cases ASCII letters only; Python's `str.upper` also maps non-ASCII letters.
- Report.ReportRanking: states that the ranking is a descending sort of the evaluations; the stability of Python's `sorted` is proved for the sort itself (`Ranking.SortDescStable`) but not restated for the report.
- Cache: the run history is a ghost sequence of all runs, from which the stored totals, the best and the latest score are proved; `run_history` itself is modelled as the last ten of them.
