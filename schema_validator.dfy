/** Level 1 of the evaluation (evaluation/schema_validator.py): validate a
    model's JSON output against the inspection-template schema, turn each
    Pydantic error into a path, a message and a short value, and score
    compliance as the share of fields left without an error. */
module SchemaValidator {
  import opened Wrappers
  import opened Json
  import opened Text
  import opened Models
  import opened Document
  import opened DocumentJson

  /** One step of a Pydantic error location: a field name or a list index. */
  datatype LocPart = KeyPart(name: string) | IndexPart(index: int)

  /** One entry of a Pydantic `ValidationError.errors()`; `msg` and `input`
      are read with `.get`, so either may be absent. */
  datatype ErrorDetail = ErrorDetail(loc: seq<LocPart>, msg: Option<string>, input: Option<Json>)

  /** What `json.load` made of a file. */
  datatype FileState = NotFound | Unparsable(reason: string) | Parsed(data: Json)

  /** `str(p)` for a location step. */
  function LocPartText(p: LocPart): string
  {
    match p
    case KeyPart(name) => name
    case IndexPart(index) => IntToString(index)
  }

  function LocTexts(loc: seq<LocPart>): (r: seq<string>)
    ensures |r| == |loc| && forall i :: 0 <= i < |loc| ==> r[i] == LocPartText(loc[i])
  {
    seq(|loc|, i requires 0 <= i < |loc| => LocPartText(loc[i]))
  }

  /** The dotted error path: "root" for an empty location. */
  function ErrorPath(loc: seq<LocPart>): string
  {
    if loc == [] then "root" else Join(".", LocTexts(loc))
  }

  /** When no field name holds a dot, the path splits back into the
      location it was built from. */
  lemma ErrorPathSplits(loc: seq<LocPart>)
    requires loc != []
    requires forall i :: 0 <= i < |loc| && loc[i].KeyPart? ==> '.' !in loc[i].name
    ensures Split(ErrorPath(loc), '.') == LocTexts(loc)
  {
    var texts := LocTexts(loc);
    forall i | 0 <= i < |texts|
      ensures '.' !in texts[i]
    {
      if loc[i].IndexPart? {
        IntToStringDigits(loc[i].index);
      }
    }
    SplitJoin(texts, '.');
  }

  lemma IntToStringDigits(i: int)
    ensures '.' !in IntToString(i)
  {
    if i < 0 {
      NatToStringDigits(-i);
    } else {
      NatToStringDigits(i);
    }
  }

  /** `str(x)` for a scalar JSON value; `floatText` is Python's float
      formatting. */
  function ScalarText(j: Json, floatText: real -> string): string
  {
    match j
    case JNull => "None"
    case JBool(b) => if b then "True" else "False"
    case JInt(i) => IntToString(i)
    case JFloat(r) => floatText(r)
    case JString(s) => s
    case JArray(_) => "[]"
    case JObject(_) => "{}"
  }

  function Take(s: string, n: nat): (r: string)
    ensures |r| <= n && r <= s
    ensures |s| <= n ==> r == s
  {
    if |s| <= n then s else s[..n]
  }

  /** The value shown for an error: none for a missing or null input, the
      JSON text of a list or dict (cut to 100 characters plus "..."), or the
      first 100 characters of a scalar's text. `dumps` is `json.dumps`,
      `None` when it raises. */
  function ValueSnippet(input: Option<Json>, dumps: Json -> Option<string>, floatText: real -> string): (r: Option<string>)
    ensures r.None? <==> (input.None? || input.value.JNull?)
    ensures r.Some? ==> |r.value| <= 103
    ensures r.Some? && !(input.value.JArray? || input.value.JObject?) ==>
      |r.value| <= 100 && r.value <= ScalarText(input.value, floatText)
    ensures r.Some? && (input.value.JArray? || input.value.JObject?) && dumps(input.value).Some? ==>
      var d := dumps(input.value).value;
      if |d| > 100 then r.value == d[..100] + "..." else r.value == d
  {
    if input.None? || input.value.JNull? then None
    else if input.value.JArray? || input.value.JObject? then
      match dumps(input.value)
      case None => Some("<unable to serialize>")
      case Some(d) => if |d| > 100 then Some(d[..100] + "...") else Some(d)
    else Some(Take(ScalarText(input.value, floatText), 100))
  }

  /** The evaluation-model error recorded for one Pydantic error. */
  function Shape(d: ErrorDetail, dumps: Json -> Option<string>, floatText: real -> string): ValidationError
  {
    ValidationError(ErrorPath(d.loc), d.msg.GetOr("Unknown validation error"), ValueSnippet(d.input, dumps, floatText))
  }

  function ShapeAll(ds: seq<ErrorDetail>, dumps: Json -> Option<string>, floatText: real -> string): (r: seq<ValidationError>)
    ensures |r| == |ds| && forall i :: 0 <= i < |ds| ==> r[i] == Shape(ds[i], dumps, floatText)
  {
    seq(|ds|, i requires 0 <= i < |ds| => Shape(ds[i], dumps, floatText))
  }

  /** `max(0.0, 1.0 - errors / max(total, 1))`. */
  function Compliance(errors: nat, totalFields: int): real
  {
    var denominator := if totalFields > 1 then totalFields else 1;
    var raw := 1.0 - errors as real / denominator as real;
    if raw > 0.0 then raw else 0.0
  }

  /** Compliance is a score, it is perfect exactly when there is no error,
      and more errors never raise it. */
  lemma ComplianceBounds(errors: nat, more: nat, totalFields: int)
    requires errors <= more
    ensures InUnit(Compliance(errors, totalFields))
    ensures Compliance(errors, totalFields) == 1.0 <==> errors == 0
    ensures Compliance(more, totalFields) <= Compliance(errors, totalFields)
  {
    var denominator := if totalFields > 1 then totalFields else 1;
    assert errors as real / denominator as real <= more as real / denominator as real;
    if errors > 0 {
      assert errors as real / denominator as real > 0.0;
    }
  }

  /** `len(x)`: `None` where Python raises a TypeError. */
  function Len(j: Json): Option<int>
  {
    match j
    case JString(s) => Some(|s|)
    case JArray(items) => Some(|items|)
    case JObject(ms) => Some(|ms|)
    case _ => None
  }

  /** `_count_fields_in_section`: the length of `fields` plus the count of
      every entry of `sections`; `None` where Python raises (a section that
      is not a dict, a `fields` without a length, `sections` not iterable). */
  function CountFieldsIn(section: Json): Option<int>
    decreases section, 2
  {
    match section
    case JObject(ms) =>
      var own := Len(GetOr(ms, "fields", JArray([])));
      var subs := match Get(ms, "sections") case None => Some(0) case Some(v) => CountSubsections(v);
      if own.None? || subs.None? then None else Some(own.value + subs.value)
    case _ => None
  }

  /** `for subsection in sections`: a list is summed entry by entry; a
      non-empty dict or string yields strings, which are not sections, so
      only an empty one counts (as zero). */
  function CountSubsections(sections: Json): Option<int>
    decreases sections, 1
  {
    match sections
    case JArray(items) => SumCounts(items)
    case JObject(ms) => if ms == [] then Some(0) else None
    case JString(s) => if s == [] then Some(0) else None
    case _ => None
  }

  function SumCounts(items: seq<Json>): Option<int>
    decreases items, 0
  {
    if items == [] then Some(0)
    else
      var front := SumCounts(items[..|items| - 1]);
      var last := CountFieldsIn(items[|items| - 1]);
      if front.None? || last.None? then None else Some(front.value + last.value)
  }

  /** The count contributed by one version: its `structure`, `{}` when
      absent; `None` when the version is not a dict. */
  function CountVersion(version: Json): Option<int>
  {
    match version
    case JObject(ms) => (match Get(ms, "structure") case None => Some(0) case Some(s) => CountFieldsIn(s))
    case _ => None
  }

  function SumVersions(items: seq<Json>): Option<int>
  {
    if items == [] then Some(0)
    else
      var front := SumVersions(items[..|items| - 1]);
      var last := CountVersion(items[|items| - 1]);
      if front.None? || last.None? then None else Some(front.value + last.value)
  }

  /** `for version in versions`, with the same reading of dicts and strings
      as `CountSubsections`. */
  function CountVersions(versions: Json): Option<int>
  {
    match versions
    case JArray(items) => SumVersions(items)
    case JObject(ms) => if ms == [] then Some(0) else None
    case JString(s) => if s == [] then Some(0) else None
    case _ => None
  }

  /** `_count_total_fields`: the fields of every version, at least 1, and
      exactly 1 when counting raises. */
  function CountTotalFields(data: seq<Member>): (r: int)
    ensures r >= 1
  {
    var c := match Get(data, "versions") case None => Some(0) case Some(v) => CountVersions(v);
    if c.None? || c.value < 1 then 1 else c.value
  }

  /** On the JSON form of a typed section, counting the raw dict agrees with
      counting the record. */
  lemma {:induction false} CountFieldsInSection(s: Section)
    ensures CountFieldsIn(SectionJson(s)) == Some(CountFields(s))
    decreases s, 1
  {
    var ms := SectionJson(s).members;
    assert SectionJson(s) == JObject(ms) && Get(ms, "fields") == Some(JArray(FieldsJson(s.fields)))
        && Get(ms, "sections") == Some(JArray(SectionsJson(s.sections))) by {
      SectionLookups(s);
    }
    assert SumCounts(SectionsJson(s.sections)) == Some(CountFieldsOf(s.sections)) by {
      CountFieldsInSections(s.sections);
    }
    CountFieldsInObject(ms, FieldsJson(s.fields), SectionsJson(s.sections), CountFieldsOf(s.sections));
  }

  lemma SectionLookups(s: Section)
    ensures SectionJson(s) == JObject(SectionJson(s).members)
    ensures Get(SectionJson(s).members, "fields") == Some(JArray(FieldsJson(s.fields)))
    ensures Get(SectionJson(s).members, "sections") == Some(JArray(SectionsJson(s.sections)))
  {
    var ms := SectionJson(s).members;
    GetAt(ms, "fields", 3);
    GetAt(ms, "sections", 2);
  }

  lemma CountFieldsInObject(ms: seq<Member>, fs: seq<Json>, subs: seq<Json>, k: int)
    requires Get(ms, "fields") == Some(JArray(fs))
    requires Get(ms, "sections") == Some(JArray(subs)) && SumCounts(subs) == Some(k)
    ensures CountFieldsIn(JObject(ms)) == Some(|fs| + k)
  {
  }

  lemma {:induction false} CountFieldsInSections(ss: seq<Section>)
    ensures SumCounts(SectionsJson(ss)) == Some(CountFieldsOf(ss))
    decreases ss, 0
  {
    var js := SectionsJson(ss);
    var counts := seq(|ss|, i requires 0 <= i < |ss| => CountFields(ss[i]));
    forall i | 0 <= i < |ss|
      ensures CountFieldsIn(js[i]) == Some(counts[i])
    {
      SectionsJsonAt(ss, i);
      CountFieldsInSection(ss[i]);
    }
    SumCountsOfCounts(js, counts);
    CountFieldsOfSum(ss, counts);
  }

  lemma {:induction false} SumCountsOfCounts(js: seq<Json>, counts: seq<nat>)
    requires |js| == |counts|
    requires forall i :: 0 <= i < |js| ==> CountFieldsIn(js[i]) == Some(counts[i])
    ensures SumCounts(js) == Some(SumNats(counts))
  {
    if js != [] {
      var n := |js| - 1;
      SumCountsOfCounts(js[..n], counts[..n]);
    }
  }

  lemma {:induction false} CountFieldsOfSum(ss: seq<Section>, counts: seq<nat>)
    requires |counts| == |ss| && forall i :: 0 <= i < |ss| ==> counts[i] == CountFields(ss[i])
    ensures CountFieldsOf(ss) == SumNats(counts)
  {
    if ss != [] {
      var n := |ss| - 1;
      CountFieldsOfSum(ss[..n], counts[..n]);
    }
  }

  lemma {:induction false} CountVersionsOf(vs: seq<Version>)
    ensures SumVersions(VersionsJson(vs)) == Some(CountVersionFields(vs))
  {
    var js := VersionsJson(vs);
    var counts := seq(|vs|, i requires 0 <= i < |vs| => CountFields(vs[i].structure));
    forall i | 0 <= i < |vs|
      ensures CountVersion(js[i]) == Some(counts[i])
    {
      VersionsJsonAt(vs, i);
      CountVersionOf(vs[i]);
    }
    SumVersionsOfCounts(js, counts);
    CountVersionFieldsSum(vs, counts);
  }

  function SumNats(xs: seq<nat>): nat
  {
    if xs == [] then 0 else SumNats(xs[..|xs| - 1]) + xs[|xs| - 1]
  }

  lemma {:induction false} SumVersionsOfCounts(js: seq<Json>, counts: seq<nat>)
    requires |js| == |counts|
    requires forall i :: 0 <= i < |js| ==> CountVersion(js[i]) == Some(counts[i])
    ensures SumVersions(js) == Some(SumNats(counts))
  {
    if js != [] {
      var n := |js| - 1;
      SumVersionsOfCounts(js[..n], counts[..n]);
    }
  }

  lemma {:induction false} CountVersionFieldsSum(vs: seq<Version>, counts: seq<nat>)
    requires |counts| == |vs| && forall i :: 0 <= i < |vs| ==> counts[i] == CountFields(vs[i].structure)
    ensures CountVersionFields(vs) == SumNats(counts)
  {
    if vs != [] {
      var n := |vs| - 1;
      CountVersionFieldsSum(vs[..n], counts[..n]);
    }
  }

  lemma CountVersionOf(v: Version)
    ensures CountVersion(VersionJson(v)) == Some(CountFields(v.structure))
  {
    GetAt(VersionJson(v).members, "structure", 1);
    CountFieldsInSection(v.structure);
  }

  /** For a well-formed template the compliance denominator is the number
      of fields of all its versions (at least 1). */
  lemma CountTotalFieldsOfTemplate(t: Template, others: seq<Member>)
    requires !HasKey(others, "versions")
    ensures CountTotalFields(TemplateMembers(t, others)) == if CountVersionFields(t.versions) < 1 then 1 else CountVersionFields(t.versions)
  {
    GetAfterAbsent(others, Member("versions", JArray(VersionsJson(t.versions))));
    CountVersionsOf(t.versions);
  }

  /** `validate_schema`: `validate` is Pydantic's `model_validate`, giving
      the errors it raises (none when the data is valid). `_metadata` is
      dropped before validating; every error is shaped in order, and the
      compliance is computed against the fields of the whole input. */
  method ValidateSchema(data: seq<Member>, validate: seq<Member> -> seq<ErrorDetail>,
                        dumps: Json -> Option<string>, floatText: real -> string)
    returns (r: SchemaValidationResult)
    ensures var details := validate(Without(data, "_metadata"));
      && (details == [] ==> r == SchemaValidationResult(true, [], 0, 1.0))
      && (details != [] ==>
            && !r.isValid
            && r.errors == ShapeAll(details, dumps, floatText)
            && r.errorCount == |r.errors|
            && r.complianceScore == Compliance(|details|, CountTotalFields(data)))
    ensures r.isValid <==> r.errors == []
    ensures r.errorCount == |r.errors|
    ensures InUnit(r.complianceScore)
    ensures r.complianceScore == 1.0 <==> r.isValid
  {
    var details := validate(Without(data, "_metadata"));
    if details == [] {
      return SchemaValidationResult(true, [], 0, 1.0);
    }
    var errors: seq<ValidationError> := [];
    var i := 0;
    while i < |details|
      invariant 0 <= i <= |details|
      invariant errors == ShapeAll(details[..i], dumps, floatText)
    {
      errors := errors + [Shape(details[i], dumps, floatText)];
      i := i + 1;
    }
    assert details[..i] == details;
    var compliance := Compliance(|errors|, CountTotalFields(data));
    ComplianceBounds(|errors|, |errors|, CountTotalFields(data));
    r := SchemaValidationResult(false, errors, |errors|, compliance);
  }

  /** `validate_schema_from_file`: a missing file and unparsable JSON each
      give one error and compliance 0; a parsed top level that is not a dict
      makes Python raise (`Failure`). */
  method ValidateSchemaFromFile(filePath: string, file: FileState, validate: seq<Member> -> seq<ErrorDetail>,
                                dumps: Json -> Option<string>, floatText: real -> string)
    returns (r: Result<SchemaValidationResult, string>)
    ensures file.NotFound? ==>
      r == Success(SchemaValidationResult(false, [ValidationError("file", "File not found: " + filePath, None)], 1, 0.0))
    ensures file.Unparsable? ==>
      r == Success(SchemaValidationResult(false, [ValidationError("json", "Invalid JSON: " + file.reason, None)], 1, 0.0))
    ensures file.Parsed? ==> (r.Success? <==> file.data.JObject?)
    ensures r.Success? ==> r.value.errorCount == |r.value.errors| && InUnit(r.value.complianceScore)
    ensures r.Success? ==> (r.value.isValid <==> r.value.errors == [])
  {
    match file
    case NotFound =>
      r := Success(SchemaValidationResult(false, [ValidationError("file", "File not found: " + filePath, None)], 1, 0.0));
    case Unparsable(reason) =>
      r := Success(SchemaValidationResult(false, [ValidationError("json", "Invalid JSON: " + reason, None)], 1, 0.0));
    case Parsed(data) =>
      if data.JObject? {
        var v := ValidateSchema(data.members, validate, dumps, floatText);
        r := Success(v);
      } else {
        r := Failure("AttributeError: the parsed JSON is not an object");
      }
  }

  /** At most this many errors are listed for the LLM. */
  const ListedErrors := 20

  function PathLine(e: ValidationError, index: nat): string
  {
    "  " + NatToString(index) + ". Path: " + e.path
  }

  /** The lines for one listed error; the value line only for a non-empty
      value. */
  function ErrorLines(e: ValidationError, index: nat): seq<string>
  {
    [PathLine(e, index), "     Error: " + e.message]
      + (if e.value.Some? && e.value.value != "" then ["     Value: " + e.value.value] else [])
  }

  /** The lines for `es`, numbered from `start`. */
  function ListedLines(es: seq<ValidationError>, start: nat): seq<string>
  {
    if es == [] then []
    else ListedLines(es[..|es| - 1], start) + ErrorLines(es[|es| - 1], start + |es| - 1)
  }

  function Trailer(errorCount: int): string
  {
    "  ... and " + IntToString(errorCount - ListedErrors) + " more errors"
  }

  function ReportLines(result: SchemaValidationResult): seq<string>
  {
    var shown := if |result.errors| <= ListedErrors then result.errors else result.errors[..ListedErrors];
    ["Found " + IntToString(result.errorCount) + " schema validation errors:"]
      + ListedLines(shown, 1)
      + (if result.errorCount > ListedErrors then [Trailer(result.errorCount)] else [])
  }

  /** The text `format_errors_for_llm` produces. */
  function FormattedErrors(result: SchemaValidationResult): string
  {
    if result.isValid then "No schema validation errors found." else Join("\n", ReportLines(result))
  }

  /** `format_errors_for_llm`, building the lines one error at a time. */
  method FormatErrorsForLlm(result: SchemaValidationResult) returns (text: string)
    ensures text == FormattedErrors(result)
  {
    if result.isValid {
      return "No schema validation errors found.";
    }
    var shown := if |result.errors| <= ListedErrors then result.errors else result.errors[..ListedErrors];
    var header := "Found " + IntToString(result.errorCount) + " schema validation errors:";
    var lines := [header];
    var i := 0;
    while i < |shown|
      invariant 0 <= i <= |shown|
      invariant lines == [header] + ListedLines(shown[..i], 1)
    {
      ListedLinesSnoc(shown, i);
      lines := lines + ErrorLines(shown[i], i + 1);
      i := i + 1;
    }
    assert shown[..i] == shown;
    if result.errorCount > ListedErrors {
      lines := lines + [Trailer(result.errorCount)];
    }
    assert lines == ReportLines(result);
    text := Join("\n", lines);
  }

  lemma ListedLinesSnoc(es: seq<ValidationError>, i: nat)
    requires i < |es|
    ensures ListedLines(es[..i + 1], 1) == ListedLines(es[..i], 1) + ErrorLines(es[i], i + 1)
  {
    assert es[..i + 1][..i] == es[..i];
  }

  /** Every error among the first twenty is listed under its 1-based number. */
  lemma {:induction false} ListedLinesHavePaths(es: seq<ValidationError>, start: nat, i: nat)
    requires i < |es|
    ensures PathLine(es[i], start + i) in ListedLines(es, start)
    ensures "     Error: " + es[i].message in ListedLines(es, start)
  {
    var n := |es| - 1;
    if i < n {
      ListedLinesHavePaths(es[..n], start, i);
    }
  }

  /** The third character of a listed line: a digit or a space. */
  predicate NotTrailerShaped(l: string)
  {
    |l| > 2 && l[2] != '.'
  }

  lemma ErrorLinesShape(e: ValidationError, index: nat)
    ensures forall k :: 0 <= k < |ErrorLines(e, index)| ==> NotTrailerShaped(ErrorLines(e, index)[k])
  {
    var p := NatToString(index);
    NatToStringDigits(index);
    assert p[0] in p;
    assert PathLine(e, index)[2] == p[0];
  }

  /** No listed line has a dot in third place, as the trailer does. */
  lemma {:induction false} ListedLinesShape(es: seq<ValidationError>, start: nat)
    ensures forall k :: 0 <= k < |ListedLines(es, start)| ==> NotTrailerShaped(ListedLines(es, start)[k])
  {
    if es != [] {
      var n := |es| - 1;
      ListedLinesShape(es[..n], start);
      ErrorLinesShape(es[n], start + n);
    }
  }

  /** An invalid result lists its first twenty errors and ends with the
      trailer exactly when more than twenty were counted. */
  lemma ReportListsErrors(result: SchemaValidationResult, i: nat)
    requires !result.isValid
    requires i < |result.errors| && i < ListedErrors
    ensures PathLine(result.errors[i], i + 1) in ReportLines(result)
    ensures Trailer(result.errorCount) in ReportLines(result) <==> result.errorCount > ListedErrors
  {
    var shown := if |result.errors| <= ListedErrors then result.errors else result.errors[..ListedErrors];
    var header := "Found " + IntToString(result.errorCount) + " schema validation errors:";
    var listed := ListedLines(shown, 1);
    var t := Trailer(result.errorCount);
    var tail: seq<string> := if result.errorCount > ListedErrors then [t] else [];
    assert ReportLines(result) == [header] + listed + tail;
    assert PathLine(result.errors[i], i + 1) in listed by {
      assert shown[i] == result.errors[i];
      ListedLinesHavePaths(shown, 1, i);
    }
    assert t !in [header] + listed by {
      assert !NotTrailerShaped(t);
      assert header[0] != t[0];
      ListedLinesShape(shown, 1);
    }
  }
}
