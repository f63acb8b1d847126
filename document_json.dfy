/** The JSON form of an inspection template, with the key names of the
    Pydantic models in src/schemas/inspection.py. It lets the functions that
    read raw JSON be compared with the ones that read typed records. */
module DocumentJson {
  import opened Wrappers
  import opened Json
  import opened Document

  function Strings(xs: seq<string>): (r: seq<Json>)
    ensures |r| == |xs| && forall i :: 0 <= i < |xs| ==> r[i] == JString(xs[i])
  {
    seq(|xs|, i requires 0 <= i < |xs| => JString(xs[i]))
  }

  /** A field's dict: the entries the evaluation reads first, then its
      configuration. */
  function FieldJson(f: Field): Json
  {
    JObject(FieldCore(f) + FieldConfig(f))
  }

  function FieldCore(f: Field): seq<Member>
  {
    [ Member("id", JInt(f.id)),
      Member("name", JString(f.name)),
      Member("rating_type", JString(f.ratingType)),
      Member("options", JArray(Strings(f.options)))]
  }

  function FieldConfig(f: Field): seq<Member>
  {
    [ Member("mandatory", JBool(f.mandatory)),
      Member("notes_enabled", JBool(f.notesEnabled)),
      Member("notes_required_for_all_options", JBool(f.notesRequiredForAllOptions)),
      Member("notes_required_for_selected_options", JArray(Strings(f.notesRequiredForSelectedOptions))),
      Member("attachments_enabled", JBool(f.attachmentsEnabled)),
      Member("attachments_required_for_all_options", JBool(f.attachmentsRequiredForAllOptions)),
      Member("attachments_required_for_selected_options", JArray(Strings(f.attachmentsRequiredForSelectedOptions))),
      Member("can_create_work_order", JBool(f.canCreateWorkOrder)),
      Member("work_order_category", JString(f.workOrderCategory)),
      Member("work_order_sub_category", JString(f.workOrderSubCategory))]
  }

  function FieldsJson(fs: seq<Field>): (r: seq<Json>)
    ensures |r| == |fs|
  {
    seq(|fs|, i requires 0 <= i < |fs| => FieldJson(fs[i]))
  }

  function SectionJson(s: Section): Json
    decreases s, 1
  {
    JObject([
      Member("name", JString(s.name)),
      Member("display_type", JString(s.displayType)),
      Member("sections", JArray(SectionsJson(s.sections))),
      Member("fields", JArray(FieldsJson(s.fields)))])
  }

  function SectionsJson(ss: seq<Section>): (r: seq<Json>)
    ensures |r| == |ss|
    decreases ss, 0
  {
    if ss == [] then [] else SectionsJson(ss[..|ss| - 1]) + [SectionJson(ss[|ss| - 1])]
  }

  function VersionJson(v: Version): Json
  {
    JObject([Member("version_id", JInt(v.versionId)), Member("structure", SectionJson(v.structure))])
  }

  function VersionsJson(vs: seq<Version>): (r: seq<Json>)
    ensures |r| == |vs|
  {
    if vs == [] then [] else VersionsJson(vs[..|vs| - 1]) + [VersionJson(vs[|vs| - 1])]
  }

  /** A template's dict: its versions, after any other top-level keys. */
  function TemplateMembers(t: Template, others: seq<Member>): seq<Member>
  {
    others + [Member("versions", JArray(VersionsJson(t.versions)))]
  }

  lemma {:induction false} SectionsJsonAt(ss: seq<Section>, i: nat)
    requires i < |ss|
    ensures SectionsJson(ss)[i] == SectionJson(ss[i])
  {
    var n := |ss| - 1;
    if i < n {
      SectionsJsonAt(ss[..n], i);
    }
  }

  lemma {:induction false} VersionsJsonAt(vs: seq<Version>, i: nat)
    requires i < |vs|
    ensures VersionsJson(vs)[i] == VersionJson(vs[i])
  {
    var n := |vs| - 1;
    if i < n {
      VersionsJsonAt(vs[..n], i);
    }
  }

  lemma {:induction false} FieldsJsonAt(fs: seq<Field>, i: nat)
    requires i < |fs|
    ensures FieldsJson(fs)[i] == FieldJson(fs[i])
  {
  }

  /** The entries a field's dict is read by. */
  lemma FieldLookups(f: Field)
    ensures FieldJson(f) == JObject(FieldJson(f).members)
    ensures Get(FieldJson(f).members, "id") == Some(JInt(f.id))
    ensures Get(FieldJson(f).members, "name") == Some(JString(f.name))
    ensures Get(FieldJson(f).members, "options") == Some(JArray(Strings(f.options)))
  {
    var core := FieldCore(f);
    GetAt(core, "id", 0);
    GetAt(core, "name", 1);
    GetAt(core, "options", 3);
    GetInFront(core, FieldConfig(f), "id");
    GetInFront(core, FieldConfig(f), "name");
    GetInFront(core, FieldConfig(f), "options");
  }
}
