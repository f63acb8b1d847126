/** The evaluation records of evaluation/models.py. */
module Models {
  import opened Wrappers

  datatype MatchType = Exact | Partial | Missing | Extra

  /** The ten sub-comparisons of one field's configuration: eight equality
      checks and two list similarities. */
  datatype ConfigComparison = ConfigComparison(
    mandatory: bool,
    notesEnabled: bool,
    notesRequiredForAllOptions: bool,
    notesRequiredForSelectedOptions: real,
    attachmentsEnabled: bool,
    attachmentsRequiredForAllOptions: bool,
    attachmentsRequiredForSelectedOptions: real,
    canCreateWorkOrder: bool,
    workOrderCategory: bool,
    workOrderSubCategory: bool)

  datatype FieldEvaluation = FieldEvaluation(
    sourceFieldId: int,
    modelFieldId: Option<int>,
    sourceName: string,
    modelName: Option<string>,
    matchType: MatchType,
    nameSimilarity: real,
    optionsSimilarity: real,
    ratingTypeMatch: bool,
    optionsExactMatch: real,
    config: Option<ConfigComparison>,
    reasoning: Option<string>,
    configScore: real,
    overallScore: real)

  datatype SectionEvaluation = SectionEvaluation(
    sourceSectionName: string,
    modelSectionName: Option<string>,
    sectionNameSimilarity: real,
    sourceFieldCount: int,
    modelFieldCount: int,
    fieldCountMatch: bool,
    matchedFields: int,
    missingFields: int,
    extraFields: int,
    fields: seq<FieldEvaluation>,
    sectionScore: real)

  datatype ValidationError = ValidationError(path: string, message: string, value: Option<string>)

  datatype SchemaValidationResult = SchemaValidationResult(
    isValid: bool,
    errors: seq<ValidationError>,
    errorCount: int,
    complianceScore: real)

  datatype AggregateScores = AggregateScores(
    schemaCompliance: real,
    structuralAccuracy: real,
    semanticAccuracy: real,
    configAccuracy: real,
    overallScore: real)

  datatype ModelMetadata = ModelMetadata(provider: string, modelId: string, supportingModelId: Option<string>)

  datatype EvaluationResult = EvaluationResult(
    sourceFile: string,
    modelFile: string,
    metadata: ModelMetadata,
    schemaValidation: SchemaValidationResult,
    totalSourceSections: int,
    totalModelSections: int,
    sections: seq<SectionEvaluation>,
    scores: AggregateScores,
    timestamp: string,
    evaluationDurationMs: Option<int>)

  predicate InUnit(x: real)
  {
    0.0 <= x <= 1.0
  }

  /** The ranges the evaluation models declare (`ge=0.0, le=1.0`) and that
      the comparator produces for config data. */
  predicate ConfigInUnit(c: ConfigComparison)
  {
    InUnit(c.notesRequiredForSelectedOptions) && InUnit(c.attachmentsRequiredForSelectedOptions)
  }

  predicate FieldInUnit(f: FieldEvaluation)
  {
    && InUnit(f.nameSimilarity)
    && InUnit(f.optionsSimilarity)
    && InUnit(f.optionsExactMatch)
    && InUnit(f.configScore)
    && (f.config.Some? ==> ConfigInUnit(f.config.value))
  }

  predicate SectionInUnit(s: SectionEvaluation)
  {
    && InUnit(s.sectionNameSimilarity)
    && forall j :: 0 <= j < |s.fields| ==> FieldInUnit(s.fields[j])
  }

  /** A section record whose matched count lies between 0 and its
      reference field count. */
  predicate CountsConsistent(s: SectionEvaluation)
  {
    0 <= s.matchedFields <= s.sourceFieldCount
  }
}
