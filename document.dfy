/** The inspection-template document as typed records: a template has
    versions, each version one root section, sections nest and own fields.
    Enumerated values are kept as the strings the documents carry, because a
    candidate document may hold values outside the enumerations. */
module Document {

  datatype Field = Field(
    id: int,
    name: string,
    ratingType: string,
    options: seq<string>,
    mandatory: bool,
    notesEnabled: bool,
    notesRequiredForAllOptions: bool,
    notesRequiredForSelectedOptions: seq<string>,
    attachmentsEnabled: bool,
    attachmentsRequiredForAllOptions: bool,
    attachmentsRequiredForSelectedOptions: seq<string>,
    canCreateWorkOrder: bool,
    workOrderCategory: string,
    workOrderSubCategory: string)

  datatype Section = Section(
    name: string,
    displayType: string,
    sections: seq<Section>,
    fields: seq<Field>)

  datatype Version = Version(versionId: int, structure: Section)

  datatype Template = Template(versions: seq<Version>)

  /** A section as the flattener emits it: its name, display type and own
      fields, without its children. */
  datatype LeafGroup = LeafGroup(name: string, displayType: string, fields: seq<Field>)

  /** `_count_sections`: a section and all its descendants. */
  function CountSections(s: Section): (n: nat)
    ensures n >= 1
  {
    1 + CountSectionsOf(s.sections)
  }

  function CountSectionsOf(ss: seq<Section>): nat
  {
    if ss == [] then 0 else CountSectionsOf(ss[..|ss| - 1]) + CountSections(ss[|ss| - 1])
  }

  /** `_count_fields`: the fields of a section and of all its descendants. */
  function CountFields(s: Section): nat
  {
    |s.fields| + CountFieldsOf(s.sections)
  }

  function CountFieldsOf(ss: seq<Section>): nat
  {
    if ss == [] then 0 else CountFieldsOf(ss[..|ss| - 1]) + CountFields(ss[|ss| - 1])
  }

  /** The fields of every version's structure. */
  function CountVersionFields(vs: seq<Version>): nat
  {
    if vs == [] then 0 else CountVersionFields(vs[..|vs| - 1]) + CountFields(vs[|vs| - 1].structure)
  }
}
