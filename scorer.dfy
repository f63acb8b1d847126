/** Weighted scoring of the comparison records: per field, per section and
    the four-dimension aggregate over a whole template. */
module Scorer {
  import opened Wrappers
  import opened Models
  import opened Numeric

  // ---------------------------------------------------------------------
  // Weight tables
  // ---------------------------------------------------------------------

  const FieldWeights: map<string, real> := map[
    "name_similarity" := 0.20,
    "options_match" := 0.15,
    "rating_type" := 0.15,
    "mandatory" := 0.10,
    "notes_config" := 0.10,
    "attachments_config" := 0.10,
    "work_order_config" := 0.20]

  const AggregateWeights: map<string, real> := map[
    "schema_compliance" := 0.15,
    "structural_accuracy" := 0.20,
    "semantic_accuracy" := 0.30,
    "config_accuracy" := 0.35]

  /** Both weight tables are non-negative and sum to exactly 1 (in exact
      arithmetic; not necessarily in binary floating point). */
  lemma WeightsSumToOne()
    ensures forall k :: k in FieldWeights ==> FieldWeights[k] >= 0.0
    ensures forall k :: k in AggregateWeights ==> AggregateWeights[k] >= 0.0
    ensures FieldWeights["name_similarity"] + FieldWeights["options_match"] + FieldWeights["rating_type"]
      + FieldWeights["mandatory"] + FieldWeights["notes_config"] + FieldWeights["attachments_config"]
      + FieldWeights["work_order_config"] == 1.0
    ensures AggregateWeights["schema_compliance"] + AggregateWeights["structural_accuracy"]
      + AggregateWeights["semantic_accuracy"] + AggregateWeights["config_accuracy"] == 1.0
  {
  }

  // ---------------------------------------------------------------------
  // Field score
  // ---------------------------------------------------------------------

  function Flag(b: bool): real
  {
    if b then 1.0 else 0.0
  }

  function Max(x: real, y: real): (r: real)
    ensures r >= x && r >= y && (r == x || r == y)
  {
    if x >= y then x else y
  }

  /** Notes: the mean of the two note flags, averaged with the notes list
      similarity. */
  function NotesScore(c: ConfigComparison): real
  {
    ((Flag(c.notesEnabled) + Flag(c.notesRequiredForAllOptions)) / 2.0 + c.notesRequiredForSelectedOptions) / 2.0
  }

  /** Attachments: the same rule as notes, on the attachment parts. */
  function AttachmentsScore(c: ConfigComparison): real
  {
    ((Flag(c.attachmentsEnabled) + Flag(c.attachmentsRequiredForAllOptions)) / 2.0 + c.attachmentsRequiredForSelectedOptions) / 2.0
  }

  /** Work orders: the mean of the three work-order checks. */
  function WorkOrderScore(c: ConfigComparison): real
  {
    (Flag(c.canCreateWorkOrder) + Flag(c.workOrderCategory) + Flag(c.workOrderSubCategory)) / 3.0
  }

  /** The weighted sum of `calculate_field_score` before rounding. Without a
      config comparison the mandatory, notes, attachments and work-order
      parts are all 0. */
  function WeightedFieldScore(f: FieldEvaluation): real
  {
    var nameScore := f.nameSimilarity;
    var optionsScore := Max(f.optionsSimilarity, f.optionsExactMatch);
    var ratingTypeScore := Flag(f.ratingTypeMatch);
    var mandatoryScore := if f.config.Some? then Flag(f.config.value.mandatory) else 0.0;
    var notesScore := if f.config.Some? then NotesScore(f.config.value) else 0.0;
    var attachScore := if f.config.Some? then AttachmentsScore(f.config.value) else 0.0;
    var workOrderScore := if f.config.Some? then WorkOrderScore(f.config.value) else 0.0;
    FieldWeights["name_similarity"] * nameScore
    + FieldWeights["options_match"] * optionsScore
    + FieldWeights["rating_type"] * ratingTypeScore
    + FieldWeights["mandatory"] * mandatoryScore
    + FieldWeights["notes_config"] * notesScore
    + FieldWeights["attachments_config"] * attachScore
    + FieldWeights["work_order_config"] * workOrderScore
  }

  /** `calculate_field_score`: 0.0 for a missing field, otherwise the
      weighted sum rounded to four places. */
  function FieldScore(f: FieldEvaluation): real
  {
    if f.matchType == Missing then 0.0 else Round4(WeightedFieldScore(f))
  }

  /** A field whose similarities lie in [0,1] scores in [0,1]. */
  lemma FieldScoreInUnit(f: FieldEvaluation)
    requires FieldInUnit(f)
    ensures 0.0 <= FieldScore(f) <= 1.0
  {
    if f.matchType != Missing {
      assert 0.0 <= WeightedFieldScore(f) <= 1.0;
      Round4InUnit(WeightedFieldScore(f));
    }
  }

  /** A missing field scores 0; a field with every similarity 1 and every
      check true scores exactly 1. */
  lemma FieldScoreExtremes(f: FieldEvaluation)
    ensures f.matchType == Missing ==> FieldScore(f) == 0.0
    ensures f.matchType != Missing && f.nameSimilarity == 1.0 && f.optionsExactMatch == 1.0
      && f.optionsSimilarity <= 1.0 && f.ratingTypeMatch && f.config.Some?
      && f.config.value.mandatory && f.config.value.notesEnabled && f.config.value.notesRequiredForAllOptions
      && f.config.value.notesRequiredForSelectedOptions == 1.0
      && f.config.value.attachmentsEnabled && f.config.value.attachmentsRequiredForAllOptions
      && f.config.value.attachmentsRequiredForSelectedOptions == 1.0
      && f.config.value.canCreateWorkOrder && f.config.value.workOrderCategory && f.config.value.workOrderSubCategory
      ==> FieldScore(f) == 1.0
  {
    if f.matchType != Missing && f.nameSimilarity == 1.0 && f.optionsExactMatch == 1.0
      && f.optionsSimilarity <= 1.0 && f.ratingTypeMatch && f.config.Some?
      && f.config.value.mandatory && f.config.value.notesEnabled && f.config.value.notesRequiredForAllOptions
      && f.config.value.notesRequiredForSelectedOptions == 1.0
      && f.config.value.attachmentsEnabled && f.config.value.attachmentsRequiredForAllOptions
      && f.config.value.attachmentsRequiredForSelectedOptions == 1.0
      && f.config.value.canCreateWorkOrder && f.config.value.workOrderCategory && f.config.value.workOrderSubCategory
    {
      assert WeightedFieldScore(f) == 1.0;
      Round4One();
    }
  }

  /** Without a config comparison only name, options and rating type
      contribute, so the score is at most 0.5. */
  lemma FieldScoreWithoutConfig(f: FieldEvaluation)
    requires f.matchType != Missing && f.config.None? && FieldInUnit(f)
    ensures FieldScore(f) == Round4(0.20 * f.nameSimilarity + 0.15 * Max(f.optionsSimilarity, f.optionsExactMatch) + 0.15 * Flag(f.ratingTypeMatch))
    ensures FieldScore(f) <= 0.5
  {
    var x := WeightedFieldScore(f);
    assert x <= 0.5;
    Round4Monotone(x, 0.5);
    Round4Exact(5000);
    assert 5000 as real / 10000.0 == 0.5;
  }

  // ---------------------------------------------------------------------
  // Section score
  // ---------------------------------------------------------------------

  function OverallScores(fields: seq<FieldEvaluation>): (r: seq<real>)
    ensures |r| == |fields| && forall j :: 0 <= j < |fields| ==> r[j] == fields[j].overallScore
  {
    seq(|fields|, j requires 0 <= j < |fields| => fields[j].overallScore)
  }

  /** The unrounded section score: mean field score, plus 0.1 × name
      similarity, plus 0.05 when the field counts agree, minus 0.1 × the
      missing fraction and 0.05 × the extra fraction (both penalties only
      when the reference section has fields). */
  function RawSectionScore(s: SectionEvaluation): real
  {
    var avgFieldScore := Mean(OverallScores(s.fields));
    var nameBonus := s.sectionNameSimilarity * 0.1;
    var countBonus := if s.fieldCountMatch then 0.05 else 0.0;
    var missingPenalty :=
      if s.sourceFieldCount > 0 then (s.missingFields as real / s.sourceFieldCount as real) * 0.1 else 0.0;
    var extraPenalty :=
      if s.sourceFieldCount > 0
      then (s.extraFields as real / (if s.modelFieldCount > 1 then s.modelFieldCount else 1) as real) * 0.05
      else 0.0;
    avgFieldScore + nameBonus + countBonus - missingPenalty - extraPenalty
  }

  /** `calculate_section_score`: 0 for a section without fields, otherwise
      the rounded raw score clamped to [0,1]. */
  function SectionScore(s: SectionEvaluation): (r: real)
    ensures 0.0 <= r <= 1.0
    ensures s.fields == [] ==> r == 0.0
  {
    if s.fields == [] then 0.0 else Clamp(0.0, 1.0, Round4(RawSectionScore(s)))
  }

  /** Rounding is monotone. */
  lemma Round4Monotone(x: real, y: real)
    requires x <= y
    ensures Round4(x) <= Round4(y)
  {
    var nx := (x * 10000.0).Floor;
    var ny := (y * 10000.0).Floor;
    assert nx <= ny;
  }

  /** A section whose fields all score 1, with a fully similar name, equal
      counts and nothing missing or extra, scores exactly 1. */
  lemma SectionScorePerfect(s: SectionEvaluation)
    requires s.fields != []
    requires forall j :: 0 <= j < |s.fields| ==> s.fields[j].overallScore == 1.0
    requires s.sectionNameSimilarity == 1.0 && s.missingFields == 0 && s.extraFields == 0
    ensures SectionScore(s) == 1.0
  {
    MeanOfOnes(OverallScores(s.fields));
    var x := RawSectionScore(s);
    assert x >= 1.1;
    Round4One();
    Round4Monotone(1.0, x);
  }

  /** Each penalty lowers the raw score: a section missing every reference
      field scores at most its name bonus, count bonus and the mean field
      score minus 0.1. */
  lemma SectionScoreAllMissing(s: SectionEvaluation)
    requires s.fields != [] && s.sourceFieldCount > 0 && s.missingFields == s.sourceFieldCount
    requires s.extraFields >= 0
    ensures RawSectionScore(s) <= Mean(OverallScores(s.fields)) + s.sectionNameSimilarity * 0.1
      + (if s.fieldCountMatch then 0.05 else 0.0) - 0.1
  {
    var m := if s.modelFieldCount > 1 then s.modelFieldCount else 1;
    assert (s.extraFields as real / m as real) * 0.05 >= 0.0;
  }

  // ---------------------------------------------------------------------
  // Aggregate scores
  // ---------------------------------------------------------------------

  /** All field records of all sections, in order. */
  function AllFields(sections: seq<SectionEvaluation>): seq<FieldEvaluation>
  {
    if sections == [] then [] else AllFields(sections[..|sections| - 1]) + sections[|sections| - 1].fields
  }

  function MatchedNameSimilarities(fields: seq<FieldEvaluation>): seq<real>
  {
    if fields == [] then [] else
    var last := fields[|fields| - 1];
    MatchedNameSimilarities(fields[..|fields| - 1]) + (if last.matchType != Missing then [last.nameSimilarity] else [])
  }

  function MatchedOptionSimilarities(fields: seq<FieldEvaluation>): seq<real>
  {
    if fields == [] then [] else
    var last := fields[|fields| - 1];
    MatchedOptionSimilarities(fields[..|fields| - 1]) + (if last.matchType != Missing then [last.optionsSimilarity] else [])
  }

  function PositiveConfigScores(fields: seq<FieldEvaluation>): seq<real>
  {
    if fields == [] then [] else
    var last := fields[|fields| - 1];
    PositiveConfigScores(fields[..|fields| - 1]) + (if last.configScore > 0.0 then [last.configScore] else [])
  }

  function CountMatchedSections(sections: seq<SectionEvaluation>): nat
  {
    if sections == [] then 0
    else CountMatchedSections(sections[..|sections| - 1]) + (if sections[|sections| - 1].modelSectionName.Some? then 1 else 0)
  }

  function TotalSourceFields(sections: seq<SectionEvaluation>): int
  {
    if sections == [] then 0 else TotalSourceFields(sections[..|sections| - 1]) + sections[|sections| - 1].sourceFieldCount
  }

  function TotalMatchedFields(sections: seq<SectionEvaluation>): int
  {
    if sections == [] then 0 else TotalMatchedFields(sections[..|sections| - 1]) + sections[|sections| - 1].matchedFields
  }

  /** The mean of the matched-section ratio and the matched-field ratio. */
  function StructuralAccuracy(sections: seq<SectionEvaluation>): real
  {
    if sections == [] then 0.0
    else
      var sectionMatchRatio := CountMatchedSections(sections) as real / |sections| as real;
      var totalSourceFields := TotalSourceFields(sections);
      var fieldMatchRatio :=
        if totalSourceFields > 0 then TotalMatchedFields(sections) as real / totalSourceFields as real else 0.0;
      (sectionMatchRatio + fieldMatchRatio) / 2.0
  }

  /** The mean of the name and option similarities of the fields that found
      a counterpart. */
  function SemanticAccuracyOf(fields: seq<FieldEvaluation>): real
  {
    if fields == [] then 0.0
    else (Mean(MatchedNameSimilarities(fields)) + Mean(MatchedOptionSimilarities(fields))) / 2.0
  }

  /** The mean of the positive config scores. */
  function ConfigAccuracyOf(fields: seq<FieldEvaluation>): real
  {
    if fields == [] then 0.0 else Mean(PositiveConfigScores(fields))
  }

  function OverallOf(compliance: real, structural: real, semantic: real, config: real): real
  {
    AggregateWeights["schema_compliance"] * compliance
    + AggregateWeights["structural_accuracy"] * structural
    + AggregateWeights["semantic_accuracy"] * semantic
    + AggregateWeights["config_accuracy"] * config
  }

  /** `calculate_aggregate_scores`: each dimension and the weighted overall
      score (computed from the unrounded dimensions), rounded to four
      places. */
  function CalculateAggregateScores(schema: SchemaValidationResult, sections: seq<SectionEvaluation>): AggregateScores
  {
    var compliance := schema.complianceScore;
    var structural := StructuralAccuracy(sections);
    var semantic := if sections == [] then 0.0 else SemanticAccuracyOf(AllFields(sections));
    var config := if sections == [] then 0.0 else ConfigAccuracyOf(AllFields(sections));
    AggregateScores(
      Round4(compliance), Round4(structural), Round4(semantic), Round4(config),
      Round4(OverallOf(compliance, structural, semantic, config)))
  }

  /** With no sections only schema compliance contributes. */
  lemma AggregateOfNoSections(schema: SchemaValidationResult)
    ensures var a := CalculateAggregateScores(schema, []);
      && a.structuralAccuracy == 0.0 && a.semanticAccuracy == 0.0 && a.configAccuracy == 0.0
      && a.overallScore == Round4(0.15 * schema.complianceScore)
  {
    Round4Zero();
  }

  /** A field that found no counterpart (and so has config score 0) does
      not move the semantic or the config accuracy. */
  lemma AccuraciesIgnoreMissingField(fields: seq<FieldEvaluation>, m: FieldEvaluation)
    requires m.matchType == Missing && m.configScore <= 0.0
    ensures SemanticAccuracyOf(fields + [m]) == SemanticAccuracyOf(fields)
    ensures ConfigAccuracyOf(fields + [m]) == ConfigAccuracyOf(fields)
  {
    var all := fields + [m];
    assert all[..|all| - 1] == fields;
    assert MatchedNameSimilarities(all) == MatchedNameSimilarities(fields);
    assert MatchedOptionSimilarities(all) == MatchedOptionSimilarities(fields);
    assert PositiveConfigScores(all) == PositiveConfigScores(fields);
  }

  lemma {:induction false} MatchedSimilaritiesInUnit(fields: seq<FieldEvaluation>)
    requires forall j :: 0 <= j < |fields| ==> FieldInUnit(fields[j])
    ensures AllInUnit(MatchedNameSimilarities(fields))
    ensures AllInUnit(MatchedOptionSimilarities(fields))
    ensures AllInUnit(PositiveConfigScores(fields))
  {
    if fields != [] {
      MatchedSimilaritiesInUnit(fields[..|fields| - 1]);
    }
  }

  lemma {:induction false} AllFieldsInUnit(sections: seq<SectionEvaluation>)
    requires forall i :: 0 <= i < |sections| ==> SectionInUnit(sections[i])
    ensures forall j :: 0 <= j < |AllFields(sections)| ==> FieldInUnit(AllFields(sections)[j])
  {
    if sections != [] {
      AllFieldsInUnit(sections[..|sections| - 1]);
    }
  }

  lemma {:induction false} TotalsBounded(sections: seq<SectionEvaluation>)
    requires forall i :: 0 <= i < |sections| ==> CountsConsistent(sections[i])
    ensures 0 <= TotalMatchedFields(sections) <= TotalSourceFields(sections)
    ensures CountMatchedSections(sections) <= |sections|
  {
    if sections != [] {
      TotalsBounded(sections[..|sections| - 1]);
    }
  }

  /** With every input similarity in [0,1] and consistent counts, every
      aggregate dimension and the overall score lie in [0,1]. */
  lemma StructuralAccuracyInUnit(sections: seq<SectionEvaluation>)
    requires forall i :: 0 <= i < |sections| ==> CountsConsistent(sections[i])
    ensures InUnit(StructuralAccuracy(sections))
  {
    TotalsBounded(sections);
    if sections != [] {
      var n := |sections| as real;
      assert CountMatchedSections(sections) as real / n <= 1.0;
      var t := TotalSourceFields(sections);
      if t > 0 {
        assert TotalMatchedFields(sections) as real / t as real <= 1.0;
      }
    }
  }

  lemma FieldAccuraciesInUnit(fields: seq<FieldEvaluation>)
    requires forall j :: 0 <= j < |fields| ==> FieldInUnit(fields[j])
    ensures InUnit(SemanticAccuracyOf(fields)) && InUnit(ConfigAccuracyOf(fields))
  {
    MatchedSimilaritiesInUnit(fields);
    MeanInUnit(MatchedNameSimilarities(fields));
    MeanInUnit(MatchedOptionSimilarities(fields));
    MeanInUnit(PositiveConfigScores(fields));
  }

  /** With every input similarity in [0,1] and consistent counts, every
      aggregate dimension and the overall score lie in [0,1]. */
  lemma AggregateInUnit(schema: SchemaValidationResult, sections: seq<SectionEvaluation>)
    requires InUnit(schema.complianceScore)
    requires forall i :: 0 <= i < |sections| ==> SectionInUnit(sections[i]) && CountsConsistent(sections[i])
    ensures var a := CalculateAggregateScores(schema, sections);
      && InUnit(a.schemaCompliance) && InUnit(a.structuralAccuracy) && InUnit(a.semanticAccuracy)
      && InUnit(a.configAccuracy) && InUnit(a.overallScore)
  {
    var compliance := schema.complianceScore;
    StructuralAccuracyInUnit(sections);
    var structural := StructuralAccuracy(sections);
    AllFieldsInUnit(sections);
    FieldAccuraciesInUnit(AllFields(sections));
    var semantic := if sections == [] then 0.0 else SemanticAccuracyOf(AllFields(sections));
    var config := if sections == [] then 0.0 else ConfigAccuracyOf(AllFields(sections));
    Round4InUnit(compliance);
    Round4InUnit(structural);
    Round4InUnit(semantic);
    Round4InUnit(config);
    Round4InUnit(OverallOf(compliance, structural, semantic, config));
  }

  // ---------------------------------------------------------------------
  // Scoring every record in place
  // ---------------------------------------------------------------------

  function ScoreFields(fields: seq<FieldEvaluation>): (r: seq<FieldEvaluation>)
    ensures |r| == |fields|
  {
    seq(|fields|, j requires 0 <= j < |fields| => fields[j].(overallScore := FieldScore(fields[j])))
  }

  /** One section after `score_all_fields`: every field's overall score is
      set first, then the section score is computed from those. */
  function ScoreSection(s: SectionEvaluation): SectionEvaluation
  {
    var scored := s.(fields := ScoreFields(s.fields));
    scored.(sectionScore := SectionScore(scored))
  }

  /** Scoring changes only the overall scores and the section score, keeps
      the fields in order, and lands in [0,1]. */
  lemma ScoreSectionChangesOnlyScores(s: SectionEvaluation)
    ensures var r := ScoreSection(s);
      && r.(fields := s.fields, sectionScore := s.sectionScore) == s
      && |r.fields| == |s.fields|
      && (forall j :: 0 <= j < |s.fields| ==> r.fields[j].(overallScore := s.fields[j].overallScore) == s.fields[j])
      && (forall j :: 0 <= j < |s.fields| ==> r.fields[j].overallScore == FieldScore(s.fields[j]))
      && InUnit(r.sectionScore)
  {
  }

  /** Every field score lands in [0,1] when the similarities do. */
  lemma ScoreSectionInUnit(s: SectionEvaluation)
    requires SectionInUnit(s)
    ensures SectionInUnit(ScoreSection(s))
    ensures forall j :: 0 <= j < |s.fields| ==> InUnit(ScoreSection(s).fields[j].overallScore)
  {
    forall j | 0 <= j < |s.fields|
      ensures InUnit(ScoreSection(s).fields[j].overallScore)
    {
      FieldScoreInUnit(s.fields[j]);
    }
  }

  /** Scoring twice is scoring once: a field score does not depend on the
      overall score it overwrites. */
  lemma ScoreSectionIdempotent(s: SectionEvaluation)
    ensures ScoreSection(ScoreSection(s)) == ScoreSection(s)
  {
    var once := ScoreSection(s);
    forall j | 0 <= j < |s.fields|
      ensures FieldScore(once.fields[j]) == FieldScore(s.fields[j])
    {
      assert WeightedFieldScore(once.fields[j]) == WeightedFieldScore(s.fields[j]);
    }
    assert ScoreFields(once.fields) == once.fields;
  }

  /** `score_all_fields`: scores every section in place, in order, and
      returns the same list. */
  method ScoreAllFields(sections: array<SectionEvaluation>) returns (r: array<SectionEvaluation>)
    modifies sections
    ensures r == sections
    ensures forall i :: 0 <= i < sections.Length ==> sections[i] == ScoreSection(old(sections[i]))
  {
    for i := 0 to sections.Length
      invariant forall k :: 0 <= k < i ==> sections[k] == ScoreSection(old(sections[k]))
      invariant forall k :: i <= k < sections.Length ==> sections[k] == old(sections[k])
    {
      var sectionEval := sections[i];
      var fields := sectionEval.fields;
      for j := 0 to |fields|
        invariant |fields| == |sectionEval.fields|
        invariant forall k :: 0 <= k < j ==>
          fields[k] == sectionEval.fields[k].(overallScore := FieldScore(sectionEval.fields[k]))
        invariant forall k :: j <= k < |fields| ==> fields[k] == sectionEval.fields[k]
      {
        var fieldEval := fields[j];
        fields := fields[j := fieldEval.(overallScore := FieldScore(fieldEval))];
      }
      assert fields == ScoreFields(sectionEval.fields);
      sectionEval := sectionEval.(fields := fields);
      sectionEval := sectionEval.(sectionScore := SectionScore(sectionEval));
      sections[i] := sectionEval;
    }
    r := sections;
  }
}
