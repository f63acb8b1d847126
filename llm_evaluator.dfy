/** Level 3 of the evaluation (evaluation/llm_evaluator.py): the LLM's
    semantic scores, the deterministic fallback used when the LLM cannot
    answer, the condensed view of a template that the prompt carries, and
    the merge of the LLM's scores into the structural evaluations. The
    Bedrock call itself is a parameter. */
module LlmEvaluator {
  import opened Wrappers
  import opened Json
  import opened Text
  import opened Models
  import opened Document
  import opened DocumentJson
  import opened Fences
  import FieldComparator

  datatype LlmFieldComparison = LlmFieldComparison(
    sourceFieldId: int,
    modelFieldId: Option<int>,
    nameSimilarity: real,
    optionsSimilarity: real,
    reasoning: string)

  datatype LlmSectionComparison = LlmSectionComparison(
    sourceSectionName: string,
    modelSectionName: Option<string>,
    nameSimilarity: real,
    fields: seq<LlmFieldComparison>)

  datatype LlmEvaluationResponse = LlmEvaluationResponse(
    sections: seq<LlmSectionComparison>,
    overallAssessment: string)

  // ---------------------------------------------------------------------
  // Lookups built by dict comprehensions
  // ---------------------------------------------------------------------

  /** `{key(v): v for v in vs}`: a later entry overwrites an earlier one
      with the same key. */
  function IndexBy<K, V>(vs: seq<V>, key: V -> K): map<K, V>
  {
    if vs == [] then map[] else IndexBy(vs[..|vs| - 1], key)[key(vs[|vs| - 1]) := vs[|vs| - 1]]
  }

  /** The lookup holds exactly the keys that occur. */
  lemma {:induction false} IndexByKeys<K, V>(vs: seq<V>, key: V -> K, k: K)
    ensures k in IndexBy(vs, key) <==> exists i :: 0 <= i < |vs| && key(vs[i]) == k
  {
    if vs != [] {
      var n := |vs| - 1;
      IndexByKeys(vs[..n], key, k);
      if k in IndexBy(vs[..n], key) {
        var i :| 0 <= i < n && key(vs[..n][i]) == k;
        assert key(vs[i]) == k;
      }
      if exists i :: 0 <= i < |vs| && key(vs[i]) == k {
        var i :| 0 <= i < |vs| && key(vs[i]) == k;
        if i < n {
          assert key(vs[..n][i]) == k;
        }
      }
    }
  }

  /** The last entry with a key is the one the lookup keeps. */
  lemma {:induction false} IndexByLast<K, V>(vs: seq<V>, key: V -> K, i: nat)
    requires i < |vs|
    requires forall j :: i < j < |vs| ==> key(vs[j]) != key(vs[i])
    ensures key(vs[i]) in IndexBy(vs, key) && IndexBy(vs, key)[key(vs[i])] == vs[i]
  {
    var n := |vs| - 1;
    if i < n {
      forall j | i < j < n
        ensures key(vs[..n][j]) != key(vs[..n][i])
      {
        assert vs[..n][j] == vs[j];
      }
      IndexByLast(vs[..n], key, i);
      assert vs[..n][i] == vs[i];
    }
  }

  function SectionName(s: LlmSectionComparison): string
  {
    s.sourceSectionName
  }

  function FieldId(f: LlmFieldComparison): int
  {
    f.sourceFieldId
  }

  // ---------------------------------------------------------------------
  // update_evaluations_with_llm_scores
  // ---------------------------------------------------------------------

  /** A field evaluation after the merge: the LLM's name and option scores
      and its reasoning when the field id has an LLM entry. */
  function UpdatedField(f: FieldEvaluation, lookup: map<int, LlmFieldComparison>): FieldEvaluation
  {
    if f.sourceFieldId in lookup then
      var l := lookup[f.sourceFieldId];
      f.(nameSimilarity := l.nameSimilarity, optionsSimilarity := l.optionsSimilarity, reasoning := Some(l.reasoning))
    else f
  }

  function UpdatedFields(fs: seq<FieldEvaluation>, lookup: map<int, LlmFieldComparison>): (r: seq<FieldEvaluation>)
    ensures |r| == |fs| && forall j :: 0 <= j < |fs| ==> r[j] == UpdatedField(fs[j], lookup)
  {
    seq(|fs|, j requires 0 <= j < |fs| => UpdatedField(fs[j], lookup))
  }

  /** A section evaluation after the merge: the LLM's section score and
      merged fields when the section name has an LLM entry. */
  function UpdatedSection(s: SectionEvaluation, lookup: map<string, LlmSectionComparison>): SectionEvaluation
  {
    if s.sourceSectionName in lookup then
      var l := lookup[s.sourceSectionName];
      s.(sectionNameSimilarity := l.nameSimilarity, fields := UpdatedFields(s.fields, IndexBy(l.fields, FieldId)))
    else s
  }

  /** `update_evaluations_with_llm_scores`: overwrites, in place, the
      scores of every section and field that the response names, and
      returns the same list. */
  method UpdateEvaluationsWithLlmScores(sections: array<SectionEvaluation>, response: LlmEvaluationResponse)
    returns (r: array<SectionEvaluation>)
    modifies sections
    ensures r == sections
    ensures forall i :: 0 <= i < sections.Length ==>
      sections[i] == UpdatedSection(old(sections[i]), IndexBy(response.sections, SectionName))
  {
    var llmSections := IndexBy(response.sections, SectionName);
    for i := 0 to sections.Length
      invariant forall k :: 0 <= k < i ==> sections[k] == UpdatedSection(old(sections[k]), llmSections)
      invariant forall k :: i <= k < sections.Length ==> sections[k] == old(sections[k])
    {
      var sectionEval := sections[i];
      if sectionEval.sourceSectionName in llmSections {
        var llmSection := llmSections[sectionEval.sourceSectionName];
        var llmFields := IndexBy(llmSection.fields, FieldId);
        var fields := sectionEval.fields;
        for j := 0 to |fields|
          invariant |fields| == |sectionEval.fields|
          invariant forall k :: 0 <= k < j ==> fields[k] == UpdatedField(sectionEval.fields[k], llmFields)
          invariant forall k :: j <= k < |fields| ==> fields[k] == sectionEval.fields[k]
        {
          var fieldEval := fields[j];
          if fieldEval.sourceFieldId in llmFields {
            var llmField := llmFields[fieldEval.sourceFieldId];
            fields := fields[j := fieldEval.(nameSimilarity := llmField.nameSimilarity,
                                             optionsSimilarity := llmField.optionsSimilarity,
                                             reasoning := Some(llmField.reasoning))];
          }
        }
        sectionEval := sectionEval.(sectionNameSimilarity := llmSection.nameSimilarity, fields := fields);
        sections[i] := sectionEval;
      }
    }
    r := sections;
  }

  /** The merge touches only the section score and, per field, the name and
      option scores and the reasoning: everything else, the number and order
      of fields included, stays; a section the response does not name stays
      whole. */
  lemma UpdateKeepsStructure(s: SectionEvaluation, lookup: map<string, LlmSectionComparison>)
    ensures var r := UpdatedSection(s, lookup);
      && r == s.(sectionNameSimilarity := r.sectionNameSimilarity, fields := r.fields)
      && |r.fields| == |s.fields|
      && (forall j :: 0 <= j < |s.fields| ==>
            r.fields[j] == s.fields[j].(nameSimilarity := r.fields[j].nameSimilarity,
                                         optionsSimilarity := r.fields[j].optionsSimilarity,
                                         reasoning := r.fields[j].reasoning))
      && (s.sourceSectionName !in lookup ==> r == s)
  {
  }

  /** The scores merged in are those of the last response entry with the
      section's name, and within it of the last entry with the field's id. */
  lemma UpdateUsesLastEntries(s: SectionEvaluation, response: LlmEvaluationResponse, i: nat, j: nat, k: nat)
    requires i < |response.sections| && response.sections[i].sourceSectionName == s.sourceSectionName
    requires forall i' :: i < i' < |response.sections| ==> response.sections[i'].sourceSectionName != s.sourceSectionName
    requires j < |s.fields|
    requires var fs := response.sections[i].fields;
      k < |fs| && fs[k].sourceFieldId == s.fields[j].sourceFieldId
      && forall k' :: k < k' < |fs| ==> fs[k'].sourceFieldId != s.fields[j].sourceFieldId
    ensures var r := UpdatedSection(s, IndexBy(response.sections, SectionName));
      var l := response.sections[i].fields[k];
      && r.sectionNameSimilarity == response.sections[i].nameSimilarity
      && r.fields[j].nameSimilarity == l.nameSimilarity
      && r.fields[j].optionsSimilarity == l.optionsSimilarity
      && r.fields[j].reasoning == Some(l.reasoning)
  {
    IndexByLast(response.sections, SectionName, i);
    IndexByLast(response.sections[i].fields, FieldId, k);
  }

  /** Scores the LLM keeps within [0, 1] leave every score of the merged
      evaluations within [0, 1]. */
  lemma UpdateInUnit(s: SectionEvaluation, lookup: map<string, LlmSectionComparison>)
    requires SectionInUnit(s)
    requires forall name :: name in lookup ==> ResponseSectionInUnit(lookup[name])
    ensures SectionInUnit(UpdatedSection(s, lookup))
  {
    if s.sourceSectionName in lookup {
      var l := lookup[s.sourceSectionName];
      var fieldLookup := IndexBy(l.fields, FieldId);
      forall id | id in fieldLookup
        ensures InUnit(fieldLookup[id].nameSimilarity) && InUnit(fieldLookup[id].optionsSimilarity)
      {
        IndexByKeys(l.fields, FieldId, id);
        IndexByValues(l.fields, FieldId, id);
      }
    }
  }

  /** Every value of the lookup is one of the entries. */
  lemma {:induction false} IndexByValues<K, V>(vs: seq<V>, key: V -> K, k: K)
    requires k in IndexBy(vs, key)
    ensures IndexBy(vs, key)[k] in vs
  {
    var n := |vs| - 1;
    if key(vs[n]) != k {
      IndexByValues(vs[..n], key, k);
    }
  }

  predicate ResponseSectionInUnit(l: LlmSectionComparison)
  {
    && InUnit(l.nameSimilarity)
    && forall f :: f in l.fields ==> InUnit(f.nameSimilarity) && InUnit(f.optionsSimilarity)
  }

  // ---------------------------------------------------------------------
  // _create_fallback_response
  // ---------------------------------------------------------------------

  const FallbackReasoning := "Fallback: using deterministic similarity"
  const FallbackAssessment := "Fallback evaluation using deterministic comparison"

  /** The deterministic stand-in for an LLM field entry: the structural
      name score and the exact options score. */
  function FallbackField(f: FieldEvaluation): LlmFieldComparison
  {
    LlmFieldComparison(f.sourceFieldId, f.modelFieldId, f.nameSimilarity, f.optionsExactMatch, FallbackReasoning)
  }

  function FallbackFields(fs: seq<FieldEvaluation>): (r: seq<LlmFieldComparison>)
    ensures |r| == |fs| && forall j :: 0 <= j < |fs| ==> r[j] == FallbackField(fs[j])
  {
    seq(|fs|, j requires 0 <= j < |fs| => FallbackField(fs[j]))
  }

  function FallbackSection(s: SectionEvaluation): LlmSectionComparison
  {
    LlmSectionComparison(s.sourceSectionName, s.modelSectionName, s.sectionNameSimilarity, FallbackFields(s.fields))
  }

  /** The fallback response: one entry per section evaluation, in order;
      none when there are no evaluations. */
  function Fallback(evals: Option<seq<SectionEvaluation>>): (r: LlmEvaluationResponse)
  {
    var ss := evals.GetOr([]);
    LlmEvaluationResponse(seq(|ss|, i requires 0 <= i < |ss| => FallbackSection(ss[i])), FallbackAssessment)
  }

  /** `_create_fallback_response`, appending one section and its fields at
      a time. */
  method CreateFallbackResponse(evals: Option<seq<SectionEvaluation>>) returns (r: LlmEvaluationResponse)
    ensures r == Fallback(evals)
    ensures r.overallAssessment == FallbackAssessment
    ensures evals.None? ==> r.sections == []
    ensures evals.Some? ==>
      && |r.sections| == |evals.value|
      && forall i :: 0 <= i < |evals.value| ==> r.sections[i] == FallbackSection(evals.value[i])
  {
    var fallbackSections: seq<LlmSectionComparison> := [];
    if evals.Some? && evals.value != [] {
      var ss := evals.value;
      for i := 0 to |ss|
        invariant |fallbackSections| == i
        invariant forall k :: 0 <= k < i ==> fallbackSections[k] == FallbackSection(ss[k])
      {
        var sectionEval := ss[i];
        var fields: seq<LlmFieldComparison> := [];
        for j := 0 to |sectionEval.fields|
          invariant |fields| == j
          invariant forall k :: 0 <= k < j ==> fields[k] == FallbackField(sectionEval.fields[k])
        {
          var fieldEval := sectionEval.fields[j];
          fields := fields + [LlmFieldComparison(fieldEval.sourceFieldId, fieldEval.modelFieldId,
                                                 fieldEval.nameSimilarity, fieldEval.optionsExactMatch,
                                                 FallbackReasoning)];
        }
        fallbackSections := fallbackSections + [LlmSectionComparison(sectionEval.sourceSectionName,
                                                                    sectionEval.modelSectionName,
                                                                    sectionEval.sectionNameSimilarity,
                                                                    fields)];
      }
    }
    r := LlmEvaluationResponse(fallbackSections, FallbackAssessment);
  }

  /** Merging a fallback back into the evaluations it was made from (with
      distinct section names, and distinct field ids within a section)
      keeps every score except the option score, which becomes the exact
      options score, and records the fallback reasoning. */
  lemma FallbackRoundTrip(evals: seq<SectionEvaluation>, i: nat)
    requires i < |evals|
    requires forall a, b :: 0 <= a < b < |evals| ==> evals[a].sourceSectionName != evals[b].sourceSectionName
    requires forall a, b :: 0 <= a < b < |evals[i].fields| ==> evals[i].fields[a].sourceFieldId != evals[i].fields[b].sourceFieldId
    ensures var s := evals[i];
      UpdatedSection(s, IndexBy(Fallback(Some(evals)).sections, SectionName))
        == s.(fields := seq(|s.fields|, j requires 0 <= j < |s.fields| =>
                s.fields[j].(optionsSimilarity := s.fields[j].optionsExactMatch, reasoning := Some(FallbackReasoning))))
  {
    var sections := Fallback(Some(evals)).sections;
    assert sections[i] == FallbackSection(evals[i]);
    IndexByLast(sections, SectionName, i);
    var s := evals[i];
    var fs := FallbackFields(s.fields);
    forall j | 0 <= j < |s.fields|
      ensures UpdatedField(s.fields[j], IndexBy(fs, FieldId))
        == s.fields[j].(optionsSimilarity := s.fields[j].optionsExactMatch, reasoning := Some(FallbackReasoning))
    {
      IndexByLast(fs, FieldId, j);
    }
  }

  // ---------------------------------------------------------------------
  // The schema-error summary of `evaluate`
  // ---------------------------------------------------------------------

  const NoErrors := "No schema validation errors found."

  function ErrorLine(e: ValidationError): string
  {
    "- " + e.path + ": " + e.message
  }

  function ErrorLines(es: seq<ValidationError>): (r: seq<string>)
    ensures |r| == |es| && forall i :: 0 <= i < |es| ==> r[i] == ErrorLine(es[i])
  {
    seq(|es|, i requires 0 <= i < |es| => ErrorLine(es[i]))
  }

  function MoreErrors(count: int): string
  {
    "... and " + IntToString(count - 20) + " more errors"
  }

  /** The errors shown to the LLM: one line each for the first twenty, then
      a count of the rest; a fixed sentence when there are none. */
  function ErrorSummary(errors: Option<seq<ValidationError>>): string
  {
    if errors.None? || errors.value == [] then NoErrors
    else
      var es := errors.value;
      var shown := if |es| <= 20 then es else es[..20];
      var body := Join("\n", ErrorLines(shown));
      if |es| > 20 then body + "\n" + MoreErrors(|es|) else body
  }

  /** When no path or message spans lines, the summary's lines are exactly
      one per shown error, followed by the count line when more than twenty
      errors were found. */
  lemma ErrorSummaryLines(es: seq<ValidationError>)
    requires es != []
    requires forall i :: 0 <= i < |es| ==> '\n' !in es[i].path && '\n' !in es[i].message
    ensures var shown := if |es| <= 20 then es else es[..20];
      Split(ErrorSummary(Some(es)), '\n') == ErrorLines(shown) + (if |es| > 20 then [MoreErrors(|es|)] else [])
  {
    var shown := if |es| <= 20 then es else es[..20];
    var lines := ErrorLines(shown);
    ErrorLinesSingle(shown);
    if |es| > 20 {
      var all := lines + [MoreErrors(|es|)];
      NoNewlineInNumber(|es| - 20);
      forall i | 0 <= i < |all|
        ensures '\n' !in all[i]
      {
        if i < |lines| {
          assert all[i] == lines[i];
        }
      }
      JoinSnoc("\n", lines, MoreErrors(|es|));
      SplitJoin(all, '\n');
    } else {
      SplitJoin(lines, '\n');
      assert lines + [] == lines;
    }
  }

  /** An error whose path and message hold no line break gives one line. */
  lemma ErrorLinesSingle(es: seq<ValidationError>)
    requires forall i :: 0 <= i < |es| ==> '\n' !in es[i].path && '\n' !in es[i].message
    ensures forall i :: 0 <= i < |es| ==> '\n' !in ErrorLines(es)[i]
  {
    forall i | 0 <= i < |es|
      ensures '\n' !in ErrorLines(es)[i]
    {
      assert ErrorLines(es)[i] == "- " + es[i].path + ": " + es[i].message;
    }
  }

  lemma NoNewlineInNumber(i: int)
    ensures '\n' !in MoreErrors(i + 20)
  {
    if i < 0 {
      NatToStringDigits(-i);
    } else {
      NatToStringDigits(i);
    }
  }

  // ---------------------------------------------------------------------
  // _extract_for_comparison
  // ---------------------------------------------------------------------

  /** `{"id": f.get("id"), "name": f.get("name"), "options": f.get("options", [])}`;
      a field that is not a dict makes `.get` raise. */
  function ProjectField(f: Json): Result<Json, string>
  {
    match f
    case JObject(ms) =>
      Success(JObject([
        Member("id", GetOr(ms, "id", JNull)),
        Member("name", GetOr(ms, "name", JNull)),
        Member("options", GetOr(ms, "options", JArray([])))]))
    case _ => Failure("AttributeError: a field is not a dict")
  }

  function ProjectFields(items: seq<Json>): Result<seq<Json>, string>
  {
    if items == [] then Success([])
    else
      var front := ProjectFields(items[..|items| - 1]);
      var last := ProjectField(items[|items| - 1]);
      if front.Failure? then front
      else if last.Failure? then Failure(last.error)
      else Success(front.value + [last.value])
  }

  /** The projection of every entry that iterating `fields` visits (a
      dict's keys and a string's characters are strings, so they fail). */
  function CondensedFields(fields: Json): Result<seq<Json>, string>
  {
    match Iterate(fields)
    case None => Failure("TypeError: fields is not iterable")
    case Some(items) => ProjectFields(items)
  }

  /** The entry emitted for a section that owns fields. */
  function CondensedEntry(ms: seq<Member>, fields: seq<Json>): Json
  {
    JObject([Member("name", GetOr(ms, "name", JString("Unknown"))), Member("fields", JArray(fields))])
  }

  /** The entry a section emits for itself: one when its `fields` is
      truthy, none otherwise. */
  function OwnEntries(ms: seq<Member>): Result<seq<Json>, string>
  {
    var fields := GetOr(ms, "fields", JArray([]));
    if !Truthy(fields) then Success([])
    else match CondensedFields(fields)
      case Failure(e) => Failure(e)
      case Success(fs) => Success([CondensedEntry(ms, fs)])
  }

  /** What one call of the `extract_sections` closure appends: the
      section's entry when its `fields` is truthy, then what its children
      append; `Failure` where Python raises. */
  function Condensed(section: Json): Result<seq<Json>, string>
    decreases section, 2
  {
    match section
    case JObject(ms) =>
      var own := OwnEntries(ms);
      if own.Failure? then own
      else
        (match Get(ms, "sections")
         case None => own
         case Some(v) =>
           var rest := CondensedSubsections(v);
           if rest.Failure? then rest else Success(own.value + rest.value))
    case _ => Failure("AttributeError: a section is not a dict")
  }

  /** `for subsection in sections`, read as in the field counter: a list is
      visited entry by entry; a non-empty dict or string yields strings,
      which fail as sections. */
  function CondensedSubsections(v: Json): Result<seq<Json>, string>
    decreases v, 1
  {
    match v
    case JArray(items) => CondensedAll(items)
    case JObject(ms) => if ms == [] then Success([]) else Failure("AttributeError: a section is not a dict")
    case JString(s) => if s == [] then Success([]) else Failure("AttributeError: a section is not a dict")
    case _ => Failure("TypeError: sections is not iterable")
  }

  function CondensedAll(items: seq<Json>): Result<seq<Json>, string>
    decreases items, 0
  {
    if items == [] then Success([])
    else
      var front := CondensedAll(items[..|items| - 1]);
      if front.Failure? then front
      else
        var last := Condensed(items[|items| - 1]);
        if last.Failure? then last else Success(front.value + last.value)
  }

  /** `acc` followed by what `r` produced. */
  function After(acc: seq<Json>, r: Result<seq<Json>, string>): Result<seq<Json>, string>
  {
    match r
    case Success(v) => Success(acc + v)
    case Failure(e) => Failure(e)
  }

  /** The `extract_sections` closure, appending to the list built so far. */
  method CollectCondensed(section: Json, acc: seq<Json>) returns (r: Result<seq<Json>, string>)
    ensures r == After(acc, Condensed(section))
    decreases section, 2
  {
    if !section.JObject? {
      return Failure("AttributeError: a section is not a dict");
    }
    var ms := section.members;
    var fields := GetOr(ms, "fields", JArray([]));
    var out := acc;
    if Truthy(fields) {
      var projected := CondensedFields(fields);
      if projected.Failure? {
        CondensedOwnFails(ms);
        return Failure(projected.error);
      }
      out := out + [CondensedEntry(ms, projected.value)];
    }
    ghost var own := out[|acc|..];
    assert out == acc + own;
    assert OwnEntries(ms) == Success(own);
    var sections := Get(ms, "sections");
    CondensedOfDict(ms);
    if sections.None? {
      return Success(out);
    }
    var v := sections.value;
    assert Member("sections", v) in ms;
    if !v.JArray? {
      if CondensedSubsections(v).Failure? {
        return Failure(CondensedSubsections(v).error);
      }
      assert CondensedSubsections(v) == Success([]);
      assert out == acc + (own + []);
      return Success(out);
    }
    r := CollectSubsections(v, out);
    if r.Success? {
      AppendAssoc(acc, own, CondensedAll(v.items).value);
    }
  }

  /** The `for subsection in sections` loop of `collect_fields`, over a list
      of subsections, appending to `acc`. */
  method CollectSubsections(v: Json, acc: seq<Json>) returns (r: Result<seq<Json>, string>)
    requires v.JArray?
    ensures r == After(acc, CondensedAll(v.items))
    decreases v, 1
  {
    var items := v.items;
    var out := acc;
    var i := 0;
    ghost var done: seq<Json> := [];
    assert out == acc + done;
    while i < |items|
      invariant 0 <= i <= |items|
      invariant CondensedAll(items[..i]) == Success(done)
      invariant out == acc + done
    {
      assert items[i] in v.items;
      r := CollectCondensed(items[i], out);
      CondensedAllStep(items, i);
      if r.Failure? {
        CondensedAllFails(items, i + 1);
        return r;
      }
      AppendAssoc(acc, done, Condensed(items[i]).value);
      out := r.value;
      done := done + Condensed(items[i]).value;
      i := i + 1;
    }
    assert items[..i] == items;
    r := Success(out);
  }

  lemma AppendAssoc<T>(a: seq<T>, b: seq<T>, c: seq<T>)
    ensures a + (b + c) == a + b + c
  {
  }

  lemma CondensedAllStep(items: seq<Json>, i: nat)
    requires i < |items| && CondensedAll(items[..i]).Success?
    ensures CondensedAll(items[..i + 1]) == After(CondensedAll(items[..i]).value, Condensed(items[i]))
  {
    assert items[..i + 1][..i] == items[..i];
  }

  lemma CondensedOwnFails(ms: seq<Member>)
    requires OwnEntries(ms).Failure?
    ensures Condensed(JObject(ms)) == OwnEntries(ms)
  {
  }

  /** One step of the closure on a dict: its own entries, then those of
      its `sections`. */
  lemma CondensedOfDict(ms: seq<Member>)
    requires OwnEntries(ms).Success?
    ensures Get(ms, "sections").None? ==> Condensed(JObject(ms)) == OwnEntries(ms)
    ensures Get(ms, "sections").Some? ==>
      var rest := CondensedSubsections(Get(ms, "sections").value);
      Condensed(JObject(ms)) == if rest.Failure? then rest else Success(OwnEntries(ms).value + rest.value)
  {
  }

  /** Once a prefix of the children fails, the whole fails the same way. */
  lemma {:induction false} CondensedAllFails(items: seq<Json>, i: nat)
    requires i <= |items| && CondensedAll(items[..i]).Failure?
    ensures CondensedAll(items) == CondensedAll(items[..i])
    decreases |items| - i
  {
    if i < |items| {
      assert items[..i + 1][..i] == items[..i];
      CondensedAllFails(items, i + 1);
    } else {
      assert items[..i] == items;
    }
  }

  /** What `_extract_for_comparison` returns: the condensed sections of the
      first version's structure, none when `versions` is missing or empty;
      `Failure` where Python raises. */
  function Extracted(data: seq<Member>): Result<seq<Json>, string>
  {
    var versions := GetOr(Without(data, "_metadata"), "versions", JArray([]));
    if !Truthy(versions) then Success([])
    else if !versions.JArray? then Failure("versions[0] is not a version")
    else
      match versions.items[0]
      case JObject(vm) => Condensed(GetOr(vm, "structure", JObject([])))
      case _ => Failure("AttributeError: a version is not a dict")
  }

  /** `_extract_for_comparison`. */
  method ExtractForComparison(data: seq<Member>) returns (r: Result<seq<Json>, string>)
    ensures r == Extracted(data)
  {
    var withoutMetadata := Without(data, "_metadata");
    var versions := GetOr(withoutMetadata, "versions", JArray([]));
    if !Truthy(versions) {
      return Success([]);
    }
    if !versions.JArray? {
      return Failure("versions[0] is not a version");
    }
    var first := versions.items[0];
    if !first.JObject? {
      return Failure("AttributeError: a version is not a dict");
    }
    var structure := GetOr(first.members, "structure", JObject([]));
    r := CollectCondensed(structure, []);
    if Condensed(structure).Success? {
      assert [] + Condensed(structure).value == Condensed(structure).value;
    }
  }

  // ---- The condensed view of a typed template ----

  /** A typed field projected to id, name and options. */
  function ProjectedField(f: Field): Json
  {
    JObject([Member("id", JInt(f.id)), Member("name", JString(f.name)), Member("options", JArray(Strings(f.options)))])
  }

  function ProjectedFields(fs: seq<Field>): (r: seq<Json>)
    ensures |r| == |fs| && forall i :: 0 <= i < |fs| ==> r[i] == ProjectedField(fs[i])
  {
    seq(|fs|, i requires 0 <= i < |fs| => ProjectedField(fs[i]))
  }

  function CondensedGroup(g: LeafGroup): Json
  {
    JObject([Member("name", JString(g.name)), Member("fields", JArray(ProjectedFields(g.fields)))])
  }

  function CondensedGroups(gs: seq<LeafGroup>): (r: seq<Json>)
    ensures |r| == |gs| && forall i :: 0 <= i < |gs| ==> r[i] == CondensedGroup(gs[i])
  {
    seq(|gs|, i requires 0 <= i < |gs| => CondensedGroup(gs[i]))
  }

  lemma CondensedGroupsConcat(a: seq<LeafGroup>, b: seq<LeafGroup>)
    ensures CondensedGroups(a + b) == CondensedGroups(a) + CondensedGroups(b)
  {
  }

  lemma ProjectFieldOf(f: Field)
    ensures ProjectField(FieldJson(f)) == Success(ProjectedField(f))
  {
    FieldLookups(f);
  }

  lemma {:induction false} ProjectFieldsOfProjections(items: seq<Json>, outs: seq<Json>)
    requires |items| == |outs|
    requires forall i :: 0 <= i < |items| ==> ProjectField(items[i]) == Success(outs[i])
    ensures ProjectFields(items) == Success(outs)
  {
    if items != [] {
      var n := |items| - 1;
      ProjectFieldsOfProjections(items[..n], outs[..n]);
      assert outs[..n] + [outs[n]] == outs;
    }
  }

  lemma CondensedFieldsOf(fs: seq<Field>)
    ensures CondensedFields(JArray(FieldsJson(fs))) == Success(ProjectedFields(fs))
  {
    forall i | 0 <= i < |fs|
      ensures ProjectField(FieldsJson(fs)[i]) == Success(ProjectedFields(fs)[i])
    {
      FieldsJsonAt(fs, i);
      ProjectFieldOf(fs[i]);
    }
    ProjectFieldsOfProjections(FieldsJson(fs), ProjectedFields(fs));
  }

  lemma SectionLookups(s: Section)
    ensures SectionJson(s) == JObject(SectionJson(s).members)
    ensures Get(SectionJson(s).members, "name") == Some(JString(s.name))
    ensures Get(SectionJson(s).members, "fields") == Some(JArray(FieldsJson(s.fields)))
    ensures Get(SectionJson(s).members, "sections") == Some(JArray(SectionsJson(s.sections)))
  {
    var ms := SectionJson(s).members;
    GetAt(ms, "name", 0);
    GetAt(ms, "fields", 3);
    GetAt(ms, "sections", 2);
  }

  /** The entry the raw closure emits for a section's JSON form is the
      condensed form of its flattened group. */
  lemma OwnEntryOf(s: Section)
    requires s.fields != []
    ensures CondensedEntry(SectionJson(s).members, ProjectedFields(s.fields)) == CondensedGroup(FieldComparator.Group(s))
  {
    SectionLookups(s);
  }

  lemma OwnEntriesOf(s: Section)
    ensures OwnEntries(SectionJson(s).members)
      == Success(CondensedGroups(if s.fields != [] then [FieldComparator.Group(s)] else []))
  {
    var ms := SectionJson(s).members;
    var projected := ProjectedFields(s.fields);
    SectionLookups(s);
    CondensedFieldsOf(s.fields);
    var own: seq<LeafGroup> := if s.fields != [] then [FieldComparator.Group(s)] else [];
    if s.fields != [] {
      OwnEntryOf(s);
    }
    OwnEntriesGroups(ms, FieldsJson(s.fields), projected, own);
  }

  lemma OwnEntriesGroups(ms: seq<Member>, fields: seq<Json>, projected: seq<Json>, own: seq<LeafGroup>)
    requires Get(ms, "fields") == Some(JArray(fields))
    requires CondensedFields(JArray(fields)) == Success(projected)
    requires fields == [] <==> own == []
    requires own != [] ==> own == [own[0]] && CondensedGroup(own[0]) == CondensedEntry(ms, projected)
    ensures OwnEntries(ms) == Success(CondensedGroups(own))
  {
    OwnEntriesFrom(ms, fields, projected);
    if own != [] {
      assert CondensedGroups(own) == [CondensedEntry(ms, projected)];
    }
  }

  lemma OwnEntriesFrom(ms: seq<Member>, fields: seq<Json>, projected: seq<Json>)
    requires Get(ms, "fields") == Some(JArray(fields))
    requires CondensedFields(JArray(fields)) == Success(projected)
    ensures fields == [] ==> OwnEntries(ms) == Success([])
    ensures fields != [] ==> OwnEntries(ms) == Success([CondensedEntry(ms, projected)])
  {
  }

  lemma CondensedOfObject(ms: seq<Member>, own: seq<Json>, subs: seq<Json>, rest: seq<Json>)
    requires OwnEntries(ms) == Success(own)
    requires Get(ms, "sections") == Some(JArray(subs)) && CondensedAll(subs) == Success(rest)
    ensures Condensed(JObject(ms)) == Success(own + rest)
  {
  }

  /** On the JSON form of a typed section, the raw closure emits the
      condensed groups of the typed flattening, in the same order. */
  lemma {:induction false} CondensedOfSection(s: Section)
    ensures Condensed(SectionJson(s)) == Success(CondensedGroups(FieldComparator.Leaves(s)))
    decreases s, 1
  {
    var ms := SectionJson(s).members;
    SectionLookups(s);
    var own := if s.fields != [] then [FieldComparator.Group(s)] else [];
    OwnEntriesOf(s);
    CondensedOfSections(s.sections);
    CondensedOfObject(ms, CondensedGroups(own), SectionsJson(s.sections), CondensedGroups(FieldComparator.LeavesOf(s.sections)));
    CondensedGroupsConcat(own, FieldComparator.LeavesOf(s.sections));
  }

  lemma {:induction false} CondensedOfSections(ss: seq<Section>)
    ensures CondensedAll(SectionsJson(ss)) == Success(CondensedGroups(FieldComparator.LeavesOf(ss)))
    decreases ss, 0
  {
    var js := SectionsJson(ss);
    var parts := seq(|ss|, i requires 0 <= i < |ss| => CondensedGroups(FieldComparator.Leaves(ss[i])));
    forall i | 0 <= i < |ss|
      ensures Condensed(js[i]) == Success(parts[i])
    {
      SectionsJsonAt(ss, i);
      CondensedOfSection(ss[i]);
    }
    CondensedAllOfParts(js, parts);
    LeavesOfParts(ss, parts);
  }

  function Flatten(parts: seq<seq<Json>>): seq<Json>
  {
    if parts == [] then [] else Flatten(parts[..|parts| - 1]) + parts[|parts| - 1]
  }

  lemma {:induction false} CondensedAllOfParts(js: seq<Json>, parts: seq<seq<Json>>)
    requires |js| == |parts|
    requires forall i :: 0 <= i < |js| ==> Condensed(js[i]) == Success(parts[i])
    ensures CondensedAll(js) == Success(Flatten(parts))
  {
    if js != [] {
      var n := |js| - 1;
      CondensedAllOfParts(js[..n], parts[..n]);
    }
  }

  lemma {:induction false} LeavesOfParts(ss: seq<Section>, parts: seq<seq<Json>>)
    requires |parts| == |ss|
    requires forall i :: 0 <= i < |ss| ==> parts[i] == CondensedGroups(FieldComparator.Leaves(ss[i]))
    ensures CondensedGroups(FieldComparator.LeavesOf(ss)) == Flatten(parts)
  {
    if ss != [] {
      var n := |ss| - 1;
      LeavesOfParts(ss[..n], parts[..n]);
      CondensedGroupsConcat(FieldComparator.LeavesOf(ss[..n]), FieldComparator.Leaves(ss[n]));
    }
  }

  /** For the JSON form of a typed template (with any other top-level keys,
      `_metadata` included), the condensed view the prompt carries lists
      exactly the sections the structural comparator flattens, in the same
      order, each with its fields' ids, names and options. */
  lemma ExtractedOfTemplate(t: Template, others: seq<Member>)
    requires !HasKey(others, "versions")
    ensures Extracted(TemplateMembers(t, others)) == Success(CondensedGroups(FieldComparator.FirstVersionLeaves(t)))
  {
    TemplateVersions(t, others);
    var data := TemplateMembers(t, others);
    var versions := JArray(VersionsJson(t.versions));
    assert GetOr(Without(data, "_metadata"), "versions", JArray([])) == versions;
    if t.versions != [] {
      FirstVersionCondensed(t);
      assert Truthy(versions);
      var first := versions.items[0];
      assert Extracted(data) == Condensed(GetOr(first.members, "structure", JObject([])));
    } else {
      assert !Truthy(versions);
      assert FieldComparator.FirstVersionLeaves(t) == [];
    }
  }

  /** The `versions` list the extractor reads is the templates' versions. */
  lemma TemplateVersions(t: Template, others: seq<Member>)
    requires !HasKey(others, "versions")
    ensures GetOr(Without(TemplateMembers(t, others), "_metadata"), "versions", JArray([])) == JArray(VersionsJson(t.versions))
  {
    var data := TemplateMembers(t, others);
    WithoutGet(data, "_metadata", "versions");
    GetAfterAbsent(others, Member("versions", JArray(VersionsJson(t.versions))));
  }

  /** The first version's structure condenses to the first version's leaves. */
  lemma FirstVersionCondensed(t: Template)
    requires t.versions != []
    ensures VersionsJson(t.versions) != [] && VersionsJson(t.versions)[0].JObject?
    ensures Condensed(GetOr(VersionsJson(t.versions)[0].members, "structure", JObject([])))
         == Success(CondensedGroups(FieldComparator.FirstVersionLeaves(t)))
  {
    VersionsJsonAt(t.versions, 0);
    GetAt(VersionJson(t.versions[0]).members, "structure", 1);
    CondensedOfSection(t.versions[0].structure);
  }

  // ---------------------------------------------------------------------
  // evaluate
  // ---------------------------------------------------------------------

  /** The outcome of the Bedrock request: a client error, or the reply
      document. */
  datatype ClientReply = CallFailed | Replied(response: Json)

  /** A subscript chain's outcome: a value, a `KeyError`/`IndexError`
      (caught by `evaluate`), or a `TypeError` (not caught). */
  datatype Access = Value(j: Json) | NotFound | WrongType

  function Key(a: Access, key: string): Access
  {
    match a
    case Value(JObject(ms)) => (match Get(ms, key) case None => NotFound case Some(v) => Value(v))
    case Value(_) => WrongType
    case NotFound => NotFound
    case WrongType => WrongType
  }

  /** `x[0]`; a JSON dict has only string keys, so the integer key is
      missing. */
  function First(a: Access): Access
  {
    match a
    case Value(JArray(items)) => if items == [] then NotFound else Value(items[0])
    case Value(JString(s)) => if s == [] then NotFound else Value(JString([s[0]]))
    case Value(JObject(_)) => NotFound
    case Value(_) => WrongType
    case NotFound => NotFound
    case WrongType => WrongType
  }

  /** `response["output"]["message"]["content"][0]["text"]`. */
  function ReplyText(response: Json): Access
  {
    Key(First(Key(Key(Key(Value(response), "output"), "message"), "content")), "text")
  }

  /** `LLMEvaluator.evaluate`: `ask` stands for prompting the model with the
      error summary and the two condensed views, and `parse` for
      `json.loads` followed by Pydantic validation (`None` when either
      raises). A client error, a reply without the text, or a text that
      does not parse yields the fallback; a failure to condense either
      document, or a reply of the wrong shape, makes Python raise. */
  method Evaluate(source: seq<Member>, model: seq<Member>, schemaErrors: Option<seq<ValidationError>>,
                  evals: Option<seq<SectionEvaluation>>,
                  ask: (string, seq<Json>, seq<Json>) -> ClientReply,
                  parse: string -> Option<LlmEvaluationResponse>)
    returns (r: Result<LlmEvaluationResponse, string>)
    ensures Extracted(source).Failure? || Extracted(model).Failure? ==> r.Failure?
    ensures Extracted(source).Success? && Extracted(model).Success? ==>
      var reply := ask(ErrorSummary(schemaErrors), Extracted(source).value, Extracted(model).value);
      && (reply.CallFailed? ==> r == Success(Fallback(evals)))
      && (reply.Replied? ==>
            var text := ReplyText(reply.response);
            && (text.NotFound? ==> r == Success(Fallback(evals)))
            && (text.WrongType? || (text.Value? && !text.j.JString?) ==> r.Failure?)
            && (text.Value? && text.j.JString? ==>
                  r == Success(parse(StripFences(text.j.s)).GetOr(Fallback(evals)))))
    ensures r.Success? && r.value.overallAssessment != FallbackAssessment ==>
      exists reply: string :: parse(reply) == Some(r.value)
  {
    var errorsText := ErrorSummary(schemaErrors);
    var sourceCondensed := ExtractForComparison(source);
    if sourceCondensed.Failure? {
      return Failure(sourceCondensed.error);
    }
    var modelCondensed := ExtractForComparison(model);
    if modelCondensed.Failure? {
      return Failure(modelCondensed.error);
    }
    var reply := ask(errorsText, sourceCondensed.value, modelCondensed.value);
    if reply.CallFailed? {
      var fallback := CreateFallbackResponse(evals);
      return Success(fallback);
    }
    var text := ReplyText(reply.response);
    if text.NotFound? {
      var fallback := CreateFallbackResponse(evals);
      return Success(fallback);
    }
    if text.WrongType? || !text.j.JString? {
      return Failure("TypeError: the reply does not have the expected shape");
    }
    var cleaned := StripFences(text.j.s);
    var parsed := parse(cleaned);
    if parsed.None? {
      var fallback := CreateFallbackResponse(evals);
      return Success(fallback);
    }
    r := Success(parsed.value);
  }
}
