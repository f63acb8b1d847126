/** Lenient validation of an extracted inspection template
    (`src/schemas/inspection.py`): a raw dict tree is walked node by node;
    unknown keys are dropped, invalid enumeration values are replaced by
    defaults, missing keys are defaulted, and a node that still fails
    validation is skipped instead of failing the whole template.

    The schema validation of one node (`model_validate`) is not modelled: it
    is a parameter of the walk (`Validators`), and a skipped node is one for
    which it answers `None`. */
module Inspection {
  import opened Wrappers
  import opened Json
  import opened Text
  import opened Document
  import FieldComparator

  // ---------------------------------------------------------------------
  // Enumerations
  // ---------------------------------------------------------------------

  const DisplayUnspecified := "SECTION_DISPLAY_TYPE_UNSPECIFIED"

  const SectionDisplayTypes: set<string> := {
    DisplayUnspecified,
    "SECTION_DISPLAY_TYPE_TAB",
    "SECTION_DISPLAY_TYPE_ACCORDION",
    "SECTION_DISPLAY_TYPE_FIELD_SET"
  }

  const Radio := "RATING_TYPE_RADIO"

  /** A rating type must be specified: there is no `UNSPECIFIED` member. */
  const RatingTypes: set<string> := {
    "RATING_TYPE_CHECKBOX",
    Radio,
    "RATING_TYPE_SELECT"
  }

  const CategoryUnspecified := "MAINTENANCE_CATEGORY_UNSPECIFIED"

  const MaintenanceCategories: set<string> := {
    CategoryUnspecified,
    "MAINTENANCE_CATEGORY_PLUMBING",
    "MAINTENANCE_CATEGORY_ELECTRICAL",
    "MAINTENANCE_CATEGORY_HVAC",
    "MAINTENANCE_CATEGORY_PEST_CONTROL",
    "MAINTENANCE_CATEGORY_CLEANING",
    "MAINTENANCE_CATEGORY_CARPENTRY",
    "MAINTENANCE_CATEGORY_EXTERIOR",
    "MAINTENANCE_CATEGORY_APPLIANCE_REPAIR",
    "MAINTENANCE_CATEGORY_SECURITY",
    "MAINTENANCE_CATEGORY_PAINTING"
  }

  const SubCategoryUnspecified := "WORK_ORDER_SUB_CATEGORY_UNSPECIFIED"

  const WorkOrderSubCategories: set<string> := {
    SubCategoryUnspecified,
    "WORK_ORDER_SUB_CATEGORY_PLUMBING_CLOGGED_DRAIN",
    "WORK_ORDER_SUB_CATEGORY_PLUMBING_FAUCET_LEAK",
    "WORK_ORDER_SUB_CATEGORY_PLUMBING_TOILET_REPAIR_REPLACEMENT",
    "WORK_ORDER_SUB_CATEGORY_PLUMBING_PIPE_LEAK_BURST",
    "WORK_ORDER_SUB_CATEGORY_PLUMBING_WATER_HEATER_REPAIR",
    "WORK_ORDER_SUB_CATEGORY_PLUMBING_SEWER_BACKUP",
    "WORK_ORDER_SUB_CATEGORY_PLUMBING_LOW_WATER_PRESSURE",
    "WORK_ORDER_SUB_CATEGORY_PLUMBING_SHOWER_TUB_ISSUES",
    "WORK_ORDER_SUB_CATEGORY_PLUMBING_GARBAGE_DISPOSAL_REPAIR",
    "WORK_ORDER_SUB_CATEGORY_ELECTRICAL_POWER_OUTAGE",
    "WORK_ORDER_SUB_CATEGORY_ELECTRICAL_LIGHT_FIXTURE_INSTALLATION_REPAIR",
    "WORK_ORDER_SUB_CATEGORY_ELECTRICAL_OUTLET_OR_SWITCH_NOT_WORKING",
    "WORK_ORDER_SUB_CATEGORY_ELECTRICAL_CIRCUIT_BREAKER_TRIPPING",
    "WORK_ORDER_SUB_CATEGORY_ELECTRICAL_WIRING_ISSUES",
    "WORK_ORDER_SUB_CATEGORY_ELECTRICAL_CEILING_FAN_INSTALLATION_REPAIR",
    "WORK_ORDER_SUB_CATEGORY_ELECTRICAL_SMOKE_DETECTOR_ISSUE",
    "WORK_ORDER_SUB_CATEGORY_HVAC_AC_NOT_COOLING",
    "WORK_ORDER_SUB_CATEGORY_HVAC_FURNACE_NOT_HEATING",
    "WORK_ORDER_SUB_CATEGORY_HVAC_THERMOSTAT_MALFUNCTION",
    "WORK_ORDER_SUB_CATEGORY_HVAC_AIR_FILTER_REPLACEMENT",
    "WORK_ORDER_SUB_CATEGORY_HVAC_VENT_CLEANING",
    "WORK_ORDER_SUB_CATEGORY_PEST_CONTROL_RODENT_INFESTATION",
    "WORK_ORDER_SUB_CATEGORY_PEST_CONTROL_COCKROACH_TREATMENT",
    "WORK_ORDER_SUB_CATEGORY_PEST_CONTROL_PREVENTATIVE_PEST_CONTROL",
    "WORK_ORDER_SUB_CATEGORY_PEST_CONTROL_TERMITE_CONTROL",
    "WORK_ORDER_SUB_CATEGORY_PEST_CONTROL_BEE_WASP_REMOVAL",
    "WORK_ORDER_SUB_CATEGORY_CARPENTRY_DOOR_REPAIR_INSTALLATION",
    "WORK_ORDER_SUB_CATEGORY_CARPENTRY_WINDOW_FRAME_REPAIR",
    "WORK_ORDER_SUB_CATEGORY_CARPENTRY_CABINET_REPAIR",
    "WORK_ORDER_SUB_CATEGORY_CARPENTRY_DRYWALL_REPAIR",
    "WORK_ORDER_SUB_CATEGORY_CARPENTRY_FLOORBOARD_REPAIR",
    "WORK_ORDER_SUB_CATEGORY_APPLIANCE_REPAIR_REFRIGERATOR_FAILURE",
    "WORK_ORDER_SUB_CATEGORY_APPLIANCE_REPAIR_STOVE_OVEN_MALFUNCTION",
    "WORK_ORDER_SUB_CATEGORY_APPLIANCE_REPAIR_DISHWASHER_FAILURE",
    "WORK_ORDER_SUB_CATEGORY_SECURITY_DOOR_LOCK_REPAIR",
    "WORK_ORDER_SUB_CATEGORY_SECURITY_SECURITY_SYSTEM_INTERCOM_MALFUNCTION",
    "WORK_ORDER_SUB_CATEGORY_PAINTING_MOLD_REMEDIATION"
  }

  // ---------------------------------------------------------------------
  // The models' keys and defaults
  // ---------------------------------------------------------------------

  /** The four Pydantic models a node is validated against. */
  datatype Model = FieldModel | SectionModel | VersionModel | TemplateModel

  /** `model.model_fields.keys()` of each model. */
  const FieldKeys: set<string> := {
    "id", "name", "description", "mandatory", "rating_type", "options",
    "notes_enabled", "notes_required_for_all_options",
    "notes_required_for_selected_options", "attachments_enabled",
    "attachments_required_for_all_options",
    "attachments_required_for_selected_options", "can_create_work_order",
    "work_order_category", "work_order_sub_category"
  }

  const SectionKeys: set<string> := {"name", "display_type", "sections", "fields"}

  const VersionKeys: set<string> := {"version_id", "structure"}

  const TemplateKeys: set<string> := {
    "id", "name", "description", "property_ids", "versions", "created_at", "updated_at"
  }

  /** The keys `_get_model_defaults` returns, in declaration order: every
      key except the required ones (`id`, `name`, `rating_type` of a field,
      `name` of a section, `id` and `name` of a template, both keys of a
      version). */
  function DefaultKeys(m: Model): seq<string>
  {
    match m
    case FieldModel => [
      "description", "mandatory", "options", "notes_enabled",
      "notes_required_for_all_options", "notes_required_for_selected_options",
      "attachments_enabled", "attachments_required_for_all_options",
      "attachments_required_for_selected_options", "can_create_work_order",
      "work_order_category", "work_order_sub_category"]
    case SectionModel => ["display_type", "sections", "fields"]
    case VersionModel => []
    case TemplateModel => ["description", "property_ids", "versions", "created_at", "updated_at"]
  }

  /** The default of a key listed by `DefaultKeys`: `None`, `False`, an
      empty list or an enumeration's unspecified member. */
  function DefaultValue(m: Model, k: string): Json
  {
    if k == "work_order_category" then JString(CategoryUnspecified)
    else if k == "work_order_sub_category" then JString(SubCategoryUnspecified)
    else if k == "display_type" then JString(DisplayUnspecified)
    else if k in {"options", "notes_required_for_selected_options", "attachments_required_for_selected_options",
                  "sections", "fields", "property_ids", "versions"} then JArray([])
    else if m.FieldModel? && k != "description" then JBool(false)
    else JNull
  }

  const UnknownSection := "Unknown Section"
  const DefaultTemplateName := "Extracted Inspection Template"

  /** `.items()` on something that is not a dict. */
  const NotADict := "AttributeError: object has no attribute 'items'"
  /** `enumerate` over something that is not iterable. */
  const NotIterable := "TypeError: object is not iterable"
  /** A list or dict looked up in a set of enumeration values. */
  const UnhashableValue := "TypeError: unhashable type"
  /** The final `InspectionTemplate.model_validate`, which is not caught. */
  const TemplateRejected := "ValidationError: InspectionTemplate"

  // ---------------------------------------------------------------------
  // _clean_dict_for_model
  // ---------------------------------------------------------------------

  /** The entries whose key the model declares, in their order. */
  function KeepKeys(ms: seq<Member>, valid: set<string>): seq<Member>
  {
    if ms == [] then []
    else (if ms[0].key in valid then [ms[0]] else []) + KeepKeys(ms[1..], valid)
  }

  /** `_clean_dict_for_model`: the cleaned dict and the removed keys. */
  function CleanDictForModel(ms: seq<Member>, valid: set<string>): (seq<Member>, set<string>)
  {
    (KeepKeys(ms, valid), set k | k in Keys(ms) && k !in valid)
  }

  /** Cleaning keeps exactly the declared keys, with their values, and
      reports exactly the undeclared ones as removed. */
  lemma {:induction false} CleanDictForModelSpec(ms: seq<Member>, valid: set<string>, k: string)
    ensures Get(CleanDictForModel(ms, valid).0, k) == if k in valid then Get(ms, k) else None
    ensures k in CleanDictForModel(ms, valid).1 <==> HasKey(ms, k) && k !in valid
  {
    KeepKeysGet(ms, valid, k);
  }

  lemma {:induction false} KeepKeysGet(ms: seq<Member>, valid: set<string>, k: string)
    ensures Get(KeepKeys(ms, valid), k) == if k in valid then Get(ms, k) else None
  {
    if ms != [] {
      var rest := KeepKeys(ms[1..], valid);
      KeepKeysGet(ms[1..], valid, k);
      if ms[0].key in valid {
        assert KeepKeys(ms, valid) == [ms[0]] + rest;
        assert ([ms[0]] + rest)[1..] == rest;
      } else {
        assert KeepKeys(ms, valid) == rest;
      }
    }
  }

  // ---------------------------------------------------------------------
  // _fix_enum_values
  // ---------------------------------------------------------------------

  /** One entry of `FIELD_ENUM_CONFIG`: a key, its enumeration's values and
      the value that replaces an invalid one. */
  datatype EnumSpec = EnumSpec(key: string, values: set<string>, default: string)

  const EnumConfig: seq<EnumSpec> := [
    EnumSpec("rating_type", RatingTypes, Radio),
    EnumSpec("work_order_category", MaintenanceCategories, CategoryUnspecified),
    EnumSpec("work_order_sub_category", WorkOrderSubCategories, SubCategoryUnspecified),
    EnumSpec("display_type", SectionDisplayTypes, DisplayUnspecified)
  ]

  /** Every default is a member of its enumeration, and no key is
      configured twice. */
  predicate WellFormedConfig(specs: seq<EnumSpec>)
  {
    (forall i :: 0 <= i < |specs| ==> specs[i].default in specs[i].values) &&
    (forall i, j :: 0 <= i < j < |specs| ==> specs[i].key != specs[j].key)
  }

  lemma WellFormedTail(specs: seq<EnumSpec>)
    requires WellFormedConfig(specs) && specs != []
    ensures WellFormedConfig(specs[1..])
  {
    forall i, j | 0 <= i < j < |specs[1..]| ensures specs[1..][i].key != specs[1..][j].key {
      assert specs[1..][i] == specs[i + 1] && specs[1..][j] == specs[j + 1];
    }
  }

  lemma EnumConfigWellFormed()
    ensures WellFormedConfig(EnumConfig)
  {
  }

  /** The keys `FIELD_ENUM_CONFIG` configures, in order. */
  predicate ConfigShape(specs: seq<EnumSpec>)
  {
    WellFormedConfig(specs) && |specs| == 4 &&
    specs[0].key == "rating_type" && specs[1].key == "work_order_category" &&
    specs[2].key == "work_order_sub_category" && specs[3].key == "display_type"
  }

  lemma EnumConfigShape()
    ensures ConfigShape(EnumConfig)
    ensures EnumConfig[0] == EnumSpec("rating_type", RatingTypes, Radio)
    ensures EnumConfig[1] == EnumSpec("work_order_category", MaintenanceCategories, CategoryUnspecified)
    ensures EnumConfig[2] == EnumSpec("work_order_sub_category", WorkOrderSubCategories, SubCategoryUnspecified)
    ensures EnumConfig[3] == EnumSpec("display_type", SectionDisplayTypes, DisplayUnspecified)
  {
    EnumConfigWellFormed();
  }

  /** What one configured key holds after fixing: an absent key stays
      absent, a valid string stays, anything else becomes the default. */
  function FixedValue(v: Option<Json>, e: EnumSpec): Option<Json>
  {
    if v.None? then None else ValidOr(v, e.values, e.default)
  }

  /** A member of the enumeration stays; anything else, or nothing, becomes
      the default. */
  function ValidOr(v: Option<Json>, values: set<string>, default: string): Option<Json>
  {
    if v.Some? && v.value.JString? && v.value.s in values then v else Some(JString(default))
  }

  /** The fix for one configured key; `value not in valid_values` raises on
      a list or a dict. */
  function FixEnum(ms: seq<Member>, e: EnumSpec): Result<seq<Member>, string>
  {
    match Get(ms, e.key)
    case None => Success(ms)
    case Some(x) =>
      if !Hashable(x) then Failure(UnhashableValue)
      else if x.JString? && x.s in e.values then Success(ms)
      else Success(Set(ms, e.key, JString(e.default)))
  }

  /** `_fix_enum_values` over the configured keys, in order. */
  function FixedEnums(ms: seq<Member>, specs: seq<EnumSpec>): Result<seq<Member>, string>
    decreases |specs|
  {
    if specs == [] then Success(ms)
    else
      match FixEnum(ms, specs[0])
      case Failure(e) => Failure(e)
      case Success(ms1) => FixedEnums(ms1, specs[1..])
  }

  /** The value `k` ends up with: fixed by the first spec for `k`, if any. */
  function FixedAt(v: Option<Json>, specs: seq<EnumSpec>, k: string): Option<Json>
  {
    if specs == [] then v
    else if specs[0].key == k then FixedValue(v, specs[0])
    else FixedAt(v, specs[1..], k)
  }

  /** Some configured key holds a list or a dict. */
  predicate HasUnhashableEnum(ms: seq<Member>, specs: seq<EnumSpec>)
  {
    exists i :: 0 <= i < |specs| && Unhashable(Get(ms, specs[i].key))
  }

  /** A value that is present and is a list or a dict. */
  predicate Unhashable(v: Option<Json>)
  {
    v.Some? && !Hashable(v.value)
  }

  lemma {:induction false} FixEnumGet(ms: seq<Member>, e: EnumSpec, k: string)
    requires FixEnum(ms, e).Success?
    ensures Get(FixEnum(ms, e).value, k) == if k == e.key then FixedValue(Get(ms, k), e) else Get(ms, k)
  {
    var x := Get(ms, e.key);
    if x.Some? && !(x.value.JString? && x.value.s in e.values) {
      GetSet(ms, e.key, JString(e.default), k);
    }
  }

  /** Fixing raises exactly when a configured key holds a list or a dict;
      otherwise every configured key is fixed and every other key keeps its
      value. */
  lemma {:induction false} FixedEnumsSpec(ms: seq<Member>, specs: seq<EnumSpec>, k: string)
    requires WellFormedConfig(specs)
    ensures FixedEnums(ms, specs).Failure? <==> HasUnhashableEnum(ms, specs)
    ensures FixedEnums(ms, specs).Success? ==> Get(FixedEnums(ms, specs).value, k) == FixedAt(Get(ms, k), specs, k)
    decreases |specs|
  {
    if specs != [] {
      var e := specs[0];
      WellFormedTail(specs);
      match FixEnum(ms, e)
      case Failure(_) =>
        assert Unhashable(Get(ms, specs[0].key));
      case Success(ms1) =>
        FixedEnumsSpec(ms1, specs[1..], k);
        FixEnumGet(ms, e, k);
        UnhashableTail(ms, ms1, specs);
        if k == e.key {
          NotConfiguredFixedAt(Get(ms1, k), specs[1..], k);
        }
    }
  }

  /** The failure half of `FixedEnumsSpec`. */
  lemma FixedEnumsFails(ms: seq<Member>, specs: seq<EnumSpec>)
    requires WellFormedConfig(specs)
    ensures FixedEnums(ms, specs).Failure? <==> HasUnhashableEnum(ms, specs)
  {
    FixedEnumsSpec(ms, specs, "");
  }

  /** After the first key is fixed without raising, the remaining keys hold
      what they held before. */
  lemma UnhashableTail(ms: seq<Member>, ms1: seq<Member>, specs: seq<EnumSpec>)
    requires WellFormedConfig(specs) && specs != []
    requires FixEnum(ms, specs[0]) == Success(ms1)
    ensures HasUnhashableEnum(ms, specs) <==> HasUnhashableEnum(ms1, specs[1..])
  {
    var tail := specs[1..];
    forall i | 0 <= i < |tail|
      ensures Get(ms1, tail[i].key) == Get(ms, tail[i].key)
    {
      assert tail[i] == specs[i + 1];
      FixEnumGet(ms, specs[0], tail[i].key);
    }
    if HasUnhashableEnum(ms, specs) {
      var i :| 0 <= i < |specs| && Unhashable(Get(ms, specs[i].key));
      assert i > 0;
      assert tail[i - 1] == specs[i];
    }
    if HasUnhashableEnum(ms1, tail) {
      var i :| 0 <= i < |tail| && Unhashable(Get(ms1, tail[i].key));
      assert tail[i] == specs[i + 1];
    }
  }

  lemma {:induction false} NotConfiguredFixedAt(v: Option<Json>, specs: seq<EnumSpec>, k: string)
    requires forall i :: 0 <= i < |specs| ==> specs[i].key != k
    ensures FixedAt(v, specs, k) == v
    decreases |specs|
  {
    if specs != [] {
      assert specs[0].key != k;
      NotConfiguredFixedAt(v, specs[1..], k);
    }
  }

  /** A fixed key always holds a member of its enumeration. */
  lemma {:induction false} FixedAtValid(v: Option<Json>, specs: seq<EnumSpec>, i: nat)
    requires WellFormedConfig(specs) && i < |specs|
    ensures FixedAt(v, specs, specs[i].key) == FixedValue(v, specs[i])
    ensures v.Some? ==> FixedValue(v, specs[i]).Some? && FixedValue(v, specs[i]).value.JString?
    ensures v.Some? ==> FixedValue(v, specs[i]).value.s in specs[i].values
    decreases i
  {
    if i > 0 {
      assert specs[0].key != specs[i].key;
      WellFormedTail(specs);
      assert specs[1..][i - 1] == specs[i];
      FixedAtValid(v, specs[1..], i - 1);
    }
  }

  /** `_fix_enum_values`: a copy of the dict, each configured key checked in
      turn. */
  method FixEnumValues(data: seq<Member>) returns (r: Result<seq<Member>, string>)
    ensures r == FixedEnums(data, EnumConfig)
  {
    var result := data;
    for i := 0 to |EnumConfig|
      invariant FixedEnums(data, EnumConfig) == FixedEnums(result, EnumConfig[i..])
    {
      var spec := EnumConfig[i];
      assert EnumConfig[i..][0] == spec && EnumConfig[i..][1..] == EnumConfig[i + 1..];
      var value := Get(result, spec.key);
      if value.Some? {
        if !Hashable(value.value) {
          return Failure(UnhashableValue);
        }
        if !(value.value.JString? && value.value.s in spec.values) {
          result := Set(result, spec.key, JString(spec.default));
        }
      }
    }
    assert EnumConfig[|EnumConfig|..] == [];
    return Success(result);
  }

  /** Fixing twice changes nothing the first fix did not. */
  lemma FixedEnumsIdempotent(ms: seq<Member>, specs: seq<EnumSpec>)
    requires WellFormedConfig(specs)
    requires FixedEnums(ms, specs).Success?
    ensures FixedEnums(FixedEnums(ms, specs).value, specs) == FixedEnums(ms, specs)
  {
    var out := FixedEnums(ms, specs).value;
    forall k ensures Get(out, k) == FixedAt(Get(ms, k), specs, k) {
      FixedEnumsSpec(ms, specs, k);
    }
    FixedEnumsSpec(ms, specs, "");
    assert !HasUnhashableEnum(ms, specs);
    forall i | 0 <= i < |specs|
      ensures Get(out, specs[i].key).Some? ==> Get(out, specs[i].key) == FixedValue(Get(out, specs[i].key), specs[i])
      ensures Get(out, specs[i].key).Some? ==> Hashable(Get(out, specs[i].key).value)
    {
      var v := Get(ms, specs[i].key);
      FixedAtValid(v, specs, i);
      assert Get(out, specs[i].key) == FixedValue(v, specs[i]);
    }
    FixedEnumsNoOp(out, specs);
  }

  /** Keys that already hold valid values are left as they are. */
  lemma {:induction false} FixedEnumsNoOp(ms: seq<Member>, specs: seq<EnumSpec>)
    requires WellFormedConfig(specs)
    requires forall i :: 0 <= i < |specs| && Get(ms, specs[i].key).Some? ==>
      Hashable(Get(ms, specs[i].key).value) && Get(ms, specs[i].key) == FixedValue(Get(ms, specs[i].key), specs[i])
    ensures FixedEnums(ms, specs) == Success(ms)
    decreases |specs|
  {
    if specs != [] {
      var v := Get(ms, specs[0].key);
      if v.Some? {
        assert Hashable(v.value) && v == FixedValue(v, specs[0]);
      }
      assert FixEnum(ms, specs[0]) == Success(ms);
      assert forall i :: 0 <= i < |specs[1..]| ==> specs[1..][i] == specs[i + 1];
      WellFormedTail(specs);
      FixedEnumsNoOp(ms, specs[1..]);
    }
  }

  // ---------------------------------------------------------------------
  // Applying defaults
  // ---------------------------------------------------------------------

  /** `for key, default in _get_model_defaults(m).items(): if key not in
      d: d[key] = default`; the keys in `typed` are already present, as
      typed children held beside the dict. */
  function WithDefaults(ms: seq<Member>, m: Model, typed: set<string>): seq<Member>
  {
    FillDefaults(ms, m, DefaultKeys(m), typed)
  }

  /** The same loop over the keys `ds`. */
  function FillDefaults(ms: seq<Member>, m: Model, ds: seq<string>, typed: set<string>): seq<Member>
    decreases |ds|
  {
    if ds == [] then ms
    else
      var ms1 := if ds[0] in typed || HasKey(ms, ds[0]) then ms else Set(ms, ds[0], DefaultValue(m, ds[0]));
      FillDefaults(ms1, m, ds[1..], typed)
  }

  /** A present key keeps its value; a missing one takes its default, if it
      has one. */
  lemma WithDefaultsGet(ms: seq<Member>, m: Model, typed: set<string>, k: string)
    ensures Get(WithDefaults(ms, m, typed), k) ==
      if HasKey(ms, k) || k in typed then Get(ms, k)
      else if k in DefaultKeys(m) then Some(DefaultValue(m, k))
      else None
  {
    FillDefaultsGet(ms, m, DefaultKeys(m), typed, k);
  }

  lemma {:induction false} FillDefaultsGet(ms: seq<Member>, m: Model, ds: seq<string>, typed: set<string>, k: string)
    ensures Get(FillDefaults(ms, m, ds, typed), k) ==
      if HasKey(ms, k) || k in typed then Get(ms, k)
      else if k in ds then Some(DefaultValue(m, k))
      else None
    decreases |ds|
  {
    if ds != [] {
      var d := ds[0];
      assert k in ds <==> k == d || k in ds[1..];
      var ms1 := if d in typed || HasKey(ms, d) then ms else Set(ms, d, DefaultValue(m, d));
      FillDefaultsGet(ms1, m, ds[1..], typed, k);
      if !(d in typed || HasKey(ms, d)) {
        GetSet(ms, d, DefaultValue(m, d), k);
      }
    }
  }

  /** The defaults loop, one default at a time. */
  method ApplyDefaults(data: seq<Member>, m: Model, typed: set<string>) returns (r: seq<Member>)
    ensures r == WithDefaults(data, m, typed)
  {
    var defaults := DefaultKeys(m);
    r := data;
    assert defaults[0..] == defaults;
    for i := 0 to |defaults|
      invariant WithDefaults(data, m, typed) == FillDefaults(r, m, defaults[i..], typed)
    {
      var key := defaults[i];
      assert defaults[i..][0] == key && defaults[i..][1..] == defaults[i + 1..];
      if !(key in typed || HasKey(r, key)) {
        r := Set(r, key, DefaultValue(m, key));
      }
    }
  }

  // ---------------------------------------------------------------------
  // Keeping the children that validate
  // ---------------------------------------------------------------------

  /** The outcome of validating one child: an exception, a skipped child
      (`None`) or a validated one. */
  type Outcome<T> = Result<Option<T>, string>

  /** The loops of `validate_section_lenient` and `validate_template_lenient`:
      the first exception propagates, skipped children are dropped and the
      others are kept in order. */
  function Collect<T>(rs: seq<Outcome<T>>): Result<seq<T>, string>
  {
    if rs == [] then Success([])
    else
      match rs[0]
      case Failure(e) => Failure(e)
      case Success(o) =>
        match Collect(rs[1..])
        case Failure(e) => Failure(e)
        case Success(rest) => Success(Kept(o) + rest)
  }

  function Kept<T>(o: Option<T>): seq<T>
  {
    if o.Some? then [o.value] else []
  }

  /** `kept` followed by what a later part of the loop collects. */
  function Prepend<T>(kept: seq<T>, r: Result<seq<T>, string>): Result<seq<T>, string>
  {
    match r
    case Failure(e) => Failure(e)
    case Success(rest) => Success(kept + rest)
  }

  lemma PrependNothing<T>(r: Result<seq<T>, string>)
    ensures Prepend([], r) == r
  {
    if r.Success? {
      assert [] + r.value == r.value;
    }
  }

  /** One turn of a collecting loop. */
  lemma CollectStep<T>(rs: seq<Outcome<T>>, i: nat, kept: seq<T>)
    requires i < |rs|
    requires Collect(rs) == Prepend(kept, Collect(rs[i..]))
    ensures rs[i].Failure? ==> Collect(rs) == Failure(rs[i].error)
    ensures rs[i].Success? ==> Collect(rs) == Prepend(kept + Kept(rs[i].value), Collect(rs[i + 1..]))
  {
    var tail := rs[i..];
    assert tail[0] == rs[i] && tail[1..] == rs[i + 1..];
    CollectCons(tail);
    if rs[i].Success? {
      PrependTwice(kept, Kept(rs[i].value), Collect(rs[i + 1..]));
    }
  }

  lemma CollectCons<T>(rs: seq<Outcome<T>>)
    requires rs != []
    ensures Collect(rs) == if rs[0].Failure? then Failure(rs[0].error) else Prepend(Kept(rs[0].value), Collect(rs[1..]))
  {
  }

  lemma PrependTwice<T>(a: seq<T>, b: seq<T>, r: Result<seq<T>, string>)
    ensures Prepend(a, Prepend(b, r)) == Prepend(a + b, r)
  {
    if r.Success? {
      assert a + (b + r.value) == (a + b) + r.value;
    }
  }

  /** `kept` lists, in order, the children at positions `idx` of `rs`
      (counted from `base`), and every child that validated is among them. */
  ghost predicate KeptAt<T>(rs: seq<Outcome<T>>, kept: seq<T>, idx: seq<nat>, base: nat)
  {
    |idx| == |kept| && Increasing(idx) && KeptSound(rs, kept, idx, base) && KeptComplete(rs, idx, base)
  }

  ghost predicate Increasing(idx: seq<nat>)
  {
    forall a, b :: 0 <= a < b < |idx| ==> idx[a] < idx[b]
  }

  ghost predicate KeptSound<T>(rs: seq<Outcome<T>>, kept: seq<T>, idx: seq<nat>, base: nat)
    requires |idx| == |kept|
  {
    forall a :: 0 <= a < |idx| ==> base <= idx[a] < base + |rs| && rs[idx[a] - base] == Success(Some(kept[a]))
  }

  ghost predicate KeptComplete<T>(rs: seq<Outcome<T>>, idx: seq<nat>, base: nat)
  {
    forall j :: 0 <= j < |rs| && rs[j].Success? && rs[j].value.Some? ==> base + j in idx
  }

  /** The positions of the validated children, counted from `base`. */
  function KeptIndexes<T>(rs: seq<Outcome<T>>, base: nat): seq<nat>
  {
    if rs == [] then []
    else (if rs[0].Success? && rs[0].value.Some? then [base] else []) + KeptIndexes(rs[1..], base + 1)
  }

  lemma {:induction false} KeptIndexesBounds<T>(rs: seq<Outcome<T>>, base: nat)
    ensures forall a :: 0 <= a < |KeptIndexes(rs, base)| ==> base <= KeptIndexes(rs, base)[a] < base + |rs|
  {
    if rs != [] {
      KeptIndexesBounds(rs[1..], base + 1);
    }
  }

  /** Collecting raises exactly when some child raises. */
  lemma {:induction false} CollectSucceeds<T>(rs: seq<Outcome<T>>)
    ensures Collect(rs).Success? <==> forall j :: 0 <= j < |rs| ==> rs[j].Success?
  {
    if rs != [] {
      var tail := rs[1..];
      assert forall j :: 0 <= j < |tail| ==> tail[j] == rs[j + 1];
      CollectSucceeds(tail);
      if !Collect(tail).Success? {
        var j :| 0 <= j < |tail| && !tail[j].Success?;
        assert !rs[j + 1].Success?;
      }
    }
  }

  /** The exception raised is the first child's. */
  lemma {:induction false} CollectFirstFailure<T>(rs: seq<Outcome<T>>)
    requires Collect(rs).Failure?
    ensures exists j :: 0 <= j < |rs| && rs[j] == Failure(Collect(rs).error) && forall i :: 0 <= i < j ==> rs[i].Success?
  {
    if rs[0].Success? {
      var tail := rs[1..];
      CollectFirstFailure(tail);
      var j :| 0 <= j < |tail| && tail[j] == Failure(Collect(tail).error) && forall i :: 0 <= i < j ==> tail[i].Success?;
      assert rs[j + 1] == tail[j];
      assert forall i :: 0 < i < j + 1 ==> rs[i] == tail[i - 1];
    }
  }

  /** Without an exception, collecting keeps exactly the validated children,
      in their original order. */
  lemma {:induction false} CollectKeeps<T>(rs: seq<Outcome<T>>, base: nat)
    requires Collect(rs).Success?
    ensures KeptAt(rs, Collect(rs).value, KeptIndexes(rs, base), base)
  {
    if rs != [] {
      var tail := rs[1..];
      CollectKeeps(tail, base + 1);
      var rest := Collect(tail).value;
      var ti := KeptIndexes(tail, base + 1);
      KeptIndexesBounds(tail, base + 1);
      var head := Kept(rs[0].value);
      var hi: seq<nat> := if rs[0].value.Some? then [base] else [];
      assert Collect(rs).value == head + rest;
      assert KeptIndexes(rs, base) == hi + ti;
      KeptConsIncreasing(hi, ti, base);
      KeptConsSound(rs, head, rest, hi, ti, base);
      KeptConsComplete(rs, hi, ti, base);
    }
  }

  lemma KeptConsIncreasing(hi: seq<nat>, ti: seq<nat>, base: nat)
    requires hi == [] || hi == [base]
    requires Increasing(ti) && forall a :: 0 <= a < |ti| ==> base < ti[a]
    ensures Increasing(hi + ti)
  {
    forall a, b | 0 <= a < b < |hi + ti| ensures (hi + ti)[a] < (hi + ti)[b] {
      if a >= |hi| {
        assert (hi + ti)[a] == ti[a - |hi|];
      }
      assert (hi + ti)[b] == ti[b - |hi|];
    }
  }

  lemma KeptConsSound<T>(rs: seq<Outcome<T>>, head: seq<T>, rest: seq<T>, hi: seq<nat>, ti: seq<nat>, base: nat)
    requires rs != [] && rs[0].Success?
    requires head == Kept(rs[0].value) && hi == (if rs[0].value.Some? then [base] else [])
    requires |ti| == |rest| && KeptSound(rs[1..], rest, ti, base + 1)
    ensures |hi + ti| == |head + rest| && KeptSound(rs, head + rest, hi + ti, base)
  {
    forall a | 0 <= a < |hi + ti|
      ensures base <= (hi + ti)[a] < base + |rs| && rs[(hi + ti)[a] - base] == Success(Some((head + rest)[a]))
    {
      if a >= |hi| {
        var b := a - |hi|;
        assert (hi + ti)[a] == ti[b] && (head + rest)[a] == rest[b];
        assert rs[1..][ti[b] - (base + 1)] == rs[ti[b] - base];
      }
    }
  }

  lemma KeptConsComplete<T>(rs: seq<Outcome<T>>, hi: seq<nat>, ti: seq<nat>, base: nat)
    requires rs != [] && rs[0].Success?
    requires hi == (if rs[0].value.Some? then [base] else [])
    requires KeptComplete(rs[1..], ti, base + 1)
    ensures KeptComplete(rs, hi + ti, base)
  {
    forall j | 0 <= j < |rs| && rs[j].Success? && rs[j].value.Some?
      ensures base + j in hi + ti
    {
      if j > 0 {
        assert rs[1..][j - 1] == rs[j];
      }
    }
  }

  /** `enumerate` over a value that is not a list: nothing to iterate is an
      empty result, a non-iterable raises, and a string's characters or a
      dict's keys are not dicts, so their first visit raises. */
  function NonListChildren<T>(v: Json): (r: Result<seq<T>, string>)
    requires !v.JArray?
    ensures r.Success? <==> Iterate(v) == Some([])
  {
    match Iterate(v)
    case None => Failure(NotIterable)
    case Some(xs) => if xs == [] then Success([]) else Failure(NotADict)
  }

  // ---------------------------------------------------------------------
  // The walk
  // ---------------------------------------------------------------------

  /** A section as it is handed to `Section.model_validate`: its scalar
      keys, and the children already validated. */
  datatype PreparedSection = PreparedSection(members: seq<Member>, sections: seq<Section>, fields: seq<Field>)

  /** A template as it is handed to `InspectionTemplate.model_validate`. */
  datatype PreparedTemplate = PreparedTemplate(members: seq<Member>, versions: seq<Version>)

  /** The schema validation of one node; `None` is a `ValidationError`. */
  datatype Validators = Validators(
    field: seq<Member> -> Option<Field>,
    section: PreparedSection -> Option<Section>,
    version: (Json, Section) -> Option<Version>,
    template: PreparedTemplate -> Option<Template>)

  // validate_field_lenient ----------------------------------------------

  /** The dict a field is validated from: cleaned, enums fixed, defaults
      applied, then `id`, `name` and `rating_type` filled in. */
  function PreparedField(data: seq<Member>, index: nat): Result<seq<Member>, string>
  {
    match FixedEnums(CleanDictForModel(data, FieldKeys).0, EnumConfig)
    case Failure(e) => Failure(e)
    case Success(fixed) => Success(FilledField(WithDefaults(fixed, FieldModel, {}), index))
  }

  /** The required keys without a default: `id` and `name` when missing or
      null, `rating_type` when missing. */
  function FilledField(d: seq<Member>, index: nat): seq<Member>
  {
    var withId := if GetOr(d, "id", JNull) == JNull then Set(d, "id", JInt(index + 1)) else d;
    var withName :=
      if GetOr(withId, "name", JNull) == JNull then Set(withId, "name", JString("Field " + NatToString(index + 1)))
      else withId;
    if HasKey(withName, "rating_type") then withName else Set(withName, "rating_type", JString(Radio))
  }

  /** `validate_field_lenient`: `None` when the field does not validate. */
  function FieldOutcome(V: Validators, data: Json, index: nat): Outcome<Field>
  {
    if !data.JObject? then Failure(NotADict)
    else
      match PreparedField(data.members, index)
      case Failure(e) => Failure(e)
      case Success(d) => Success(V.field(d))
  }

  method ValidateFieldLenient(V: Validators, data: Json, index: nat) returns (r: Outcome<Field>)
    ensures r == FieldOutcome(V, data, index)
  {
    if !data.JObject? {
      return Failure(NotADict);
    }
    var cleaned := CleanDictForModel(data.members, FieldKeys).0;
    var fixed := FixEnumValues(cleaned);
    if fixed.Failure? {
      return Failure(fixed.error);
    }
    var d := ApplyDefaults(fixed.value, FieldModel, {});
    if GetOr(d, "id", JNull) == JNull {
      d := Set(d, "id", JInt(index + 1));
    }
    if GetOr(d, "name", JNull) == JNull {
      d := Set(d, "name", JString("Field " + NatToString(index + 1)));
    }
    if !HasKey(d, "rating_type") {
      d := Set(d, "rating_type", JString(Radio));
    }
    return Success(V.field(d));
  }

  /** The keys a field configures as enumerations. */
  const FieldEnumKeys: set<string> := {"rating_type", "work_order_category", "work_order_sub_category"}

  /** What a prepared field holds under each key, stated key by key: only
      the model's keys; `id` and `name` are filled when missing or null; an
      enumeration value outside its enumeration, or missing, becomes its
      default; any other key keeps its value or takes the model's default. */
  function ExpectedFieldValue(data: seq<Member>, index: nat, k: string): Option<Json>
  {
    var v := Get(data, k);
    if k !in FieldKeys then None
    else if k == "id" then (if v.None? || v.value == JNull then Some(JInt(index + 1)) else v)
    else if k == "name" then
      (if v.None? || v.value == JNull then Some(JString("Field " + NatToString(index + 1))) else v)
    else if k == "rating_type" then ValidOr(v, RatingTypes, Radio)
    else if k == "work_order_category" then ValidOr(v, MaintenanceCategories, CategoryUnspecified)
    else if k == "work_order_sub_category" then ValidOr(v, WorkOrderSubCategories, SubCategoryUnspecified)
    else if v.Some? then v
    else Some(DefaultValue(FieldModel, k))
  }

  /** Preparing a field raises exactly when one of its enumeration keys holds
      a list or a dict. */
  lemma PreparedFieldFails(data: seq<Member>, index: nat)
    ensures PreparedField(data, index).Failure? <==>
      exists k :: k in FieldEnumKeys && Unhashable(Get(data, k))
  {
    EnumConfigShape();
    FieldFixFails(data, EnumConfig);
  }

  lemma FieldFixFails(data: seq<Member>, specs: seq<EnumSpec>)
    requires ConfigShape(specs)
    ensures FixedEnums(CleanDictForModel(data, FieldKeys).0, specs).Failure? <==>
      exists k :: k in FieldEnumKeys && Unhashable(Get(data, k))
  {
    var cleaned := CleanDictForModel(data, FieldKeys).0;
    CleanedFieldEnum(data, "rating_type");
    CleanedFieldEnum(data, "work_order_category");
    CleanedFieldEnum(data, "work_order_sub_category");
    CleanedFieldDisplay(data);
    FieldEnumsFail(cleaned, specs);
    FieldEnumKeysUnhashable(data);
  }

  /** Fixing a dict without a display type raises exactly when one of the
      field's enumeration values is unhashable. */
  lemma FieldEnumsFail(cleaned: seq<Member>, specs: seq<EnumSpec>)
    requires ConfigShape(specs)
    requires Get(cleaned, "display_type") == None
    ensures FixedEnums(cleaned, specs).Failure? <==>
      Unhashable(Get(cleaned, "rating_type")) || Unhashable(Get(cleaned, "work_order_category")) ||
      Unhashable(Get(cleaned, "work_order_sub_category"))
  {
    FixedEnumsFails(cleaned, specs);
    if HasUnhashableEnum(cleaned, specs) {
      var i :| 0 <= i < |specs| && Unhashable(Get(cleaned, specs[i].key));
      assert i < 3;
    }
    if Unhashable(Get(cleaned, "rating_type")) {
      assert Unhashable(Get(cleaned, specs[0].key));
    } else if Unhashable(Get(cleaned, "work_order_category")) {
      assert Unhashable(Get(cleaned, specs[1].key));
    } else if Unhashable(Get(cleaned, "work_order_sub_category")) {
      assert Unhashable(Get(cleaned, specs[2].key));
    }
  }

  lemma FieldEnumKeysUnhashable(data: seq<Member>)
    ensures (exists k :: k in FieldEnumKeys && Unhashable(Get(data, k))) <==>
      Unhashable(Get(data, "rating_type")) || Unhashable(Get(data, "work_order_category")) ||
      Unhashable(Get(data, "work_order_sub_category"))
  {
    assert "rating_type" in FieldEnumKeys;
    assert "work_order_category" in FieldEnumKeys;
    assert "work_order_sub_category" in FieldEnumKeys;
  }

  /** Cleaning keeps a field's enumeration keys ... */
  lemma CleanedFieldEnum(data: seq<Member>, k: string)
    requires k in FieldEnumKeys
    ensures Get(CleanDictForModel(data, FieldKeys).0, k) == Get(data, k)
  {
    CleanDictForModelSpec(data, FieldKeys, k);
    assert k in FieldKeys;
  }

  /** ... and drops a display type, which only sections have. */
  lemma CleanedFieldDisplay(data: seq<Member>)
    ensures Get(CleanDictForModel(data, FieldKeys).0, "display_type") == None
  {
    CleanDictForModelSpec(data, FieldKeys, "display_type");
    assert "display_type" !in FieldKeys;
  }

  /** The keys a configuration fixes. */
  function SpecKeys(specs: seq<EnumSpec>): set<string>
  {
    set i | 0 <= i < |specs| :: specs[i].key
  }

  lemma ShapeKeys(specs: seq<EnumSpec>)
    requires ConfigShape(specs)
    ensures SpecKeys(specs) == FieldEnumKeys + {"display_type"}
  {
    assert specs[0].key in SpecKeys(specs) && specs[1].key in SpecKeys(specs);
    assert specs[2].key in SpecKeys(specs) && specs[3].key in SpecKeys(specs);
  }

  lemma UnhashableConfigured(ms: seq<Member>, specs: seq<EnumSpec>)
    ensures HasUnhashableEnum(ms, specs) <==>
      exists k :: k in SpecKeys(specs) && Unhashable(Get(ms, k))
  {
    if exists k :: k in SpecKeys(specs) && Unhashable(Get(ms, k)) {
      var k :| k in SpecKeys(specs) && Unhashable(Get(ms, k));
      var i :| 0 <= i < |specs| && specs[i].key == k;
    }
  }

  /** Each key of a prepared field holds what `ExpectedFieldValue` says. */
  lemma PreparedFieldGet(data: seq<Member>, index: nat, k: string)
    requires PreparedField(data, index).Success?
    ensures Get(PreparedField(data, index).value, k) == ExpectedFieldValue(data, index, k)
  {
    var cleaned := CleanDictForModel(data, FieldKeys).0;
    var fixed := FixedEnums(cleaned, EnumConfig).value;
    var d := WithDefaults(fixed, FieldModel, {});
    EnumConfigShape();
    FixedFieldGet(data, EnumConfig, k);
    WithDefaultsGet(fixed, FieldModel, {}, k);
    FilledFieldGet(d, index, k);
    if k in FieldKeys && k !in {"id", "name", "rating_type"} {
      FieldDefaultKeysCover(k);
    } else if k in DefaultKeys(FieldModel) {
      FieldDefaultKeysExact(k);
    }
  }

  /** After cleaning and fixing, a field's key holds its data value, fixed
      when it is an enumeration key. */
  lemma FixedFieldGet(data: seq<Member>, specs: seq<EnumSpec>, k: string)
    requires ConfigShape(specs)
    requires FixedEnums(CleanDictForModel(data, FieldKeys).0, specs).Success?
    ensures var v := Get(data, k);
      Get(FixedEnums(CleanDictForModel(data, FieldKeys).0, specs).value, k) ==
      if k !in FieldKeys then None
      else if k == "rating_type" then FixedValue(v, specs[0])
      else if k == "work_order_category" then FixedValue(v, specs[1])
      else if k == "work_order_sub_category" then FixedValue(v, specs[2])
      else v
  {
    var cleaned := CleanDictForModel(data, FieldKeys).0;
    FixedEnumsSpec(cleaned, specs, k);
    ConfigFixedAt(Get(cleaned, k), specs, k);
    if k in FieldEnumKeys {
      CleanedFieldEnum(data, k);
      assert k in FieldKeys;
    } else if k == "display_type" {
      CleanedFieldDisplay(data);
      assert k !in FieldKeys;
    } else {
      CleanDictForModelSpec(data, FieldKeys, k);
    }
  }

  /** The last three steps of preparing a field, key by key. */
  lemma FilledFieldGet(d: seq<Member>, index: nat, k: string)
    ensures Get(FilledField(d, index), k) ==
      if k == "id" then (if GetOr(d, "id", JNull) == JNull then Some(JInt(index + 1)) else Get(d, k))
      else if k == "name" then
        (if GetOr(d, "name", JNull) == JNull then Some(JString("Field " + NatToString(index + 1))) else Get(d, k))
      else if k == "rating_type" then (if HasKey(d, k) then Get(d, k) else Some(JString(Radio)))
      else Get(d, k)
  {
    var withId := if GetOr(d, "id", JNull) == JNull then Set(d, "id", JInt(index + 1)) else d;
    var withName :=
      if GetOr(withId, "name", JNull) == JNull then Set(withId, "name", JString("Field " + NatToString(index + 1)))
      else withId;
    GetSet(d, "id", JInt(index + 1), k);
    GetSet(d, "id", JInt(index + 1), "name");
    GetSet(d, "id", JInt(index + 1), "rating_type");
    GetSet(withId, "name", JString("Field " + NatToString(index + 1)), k);
    GetSet(withId, "name", JString("Field " + NatToString(index + 1)), "rating_type");
    GetSet(withName, "rating_type", JString(Radio), k);
  }

  /** How fixing treats each configured key. */
  lemma ConfigFixedAt(v: Option<Json>, specs: seq<EnumSpec>, k: string)
    requires ConfigShape(specs)
    ensures FixedAt(v, specs, k) ==
      if k == "rating_type" then FixedValue(v, specs[0])
      else if k == "work_order_category" then FixedValue(v, specs[1])
      else if k == "work_order_sub_category" then FixedValue(v, specs[2])
      else if k == "display_type" then FixedValue(v, specs[3])
      else v
  {
    var s1 := specs[1..];
    var s2 := s1[1..];
    var s3 := s2[1..];
    assert s1[0] == specs[1] && s2[0] == specs[2] && s3[0] == specs[3] && s3[1..] == [];
    assert FixedAt(v, s3[1..], k) == v;
    assert FixedAt(v, s3, k) == if k == "display_type" then FixedValue(v, specs[3]) else v;
    assert FixedAt(v, s2, k) == if k == "work_order_sub_category" then FixedValue(v, specs[2]) else FixedAt(v, s3, k);
    assert FixedAt(v, s1, k) == if k == "work_order_category" then FixedValue(v, specs[1]) else FixedAt(v, s2, k);
  }

  /** The field keys that have a default are all but the required ones. */
  lemma FieldDefaultKeysCover(k: string)
    requires k in FieldKeys && k !in {"id", "name", "rating_type"}
    ensures k in DefaultKeys(FieldModel)
  {
  }

  lemma FieldDefaultKeysExact(k: string)
    requires k in DefaultKeys(FieldModel)
    ensures k in FieldKeys && k !in {"id", "name", "rating_type"}
  {
  }

  /** A prepared field has exactly the model's keys. */
  lemma PreparedFieldKeys(data: seq<Member>, index: nat)
    requires PreparedField(data, index).Success?
    ensures forall k :: HasKey(PreparedField(data, index).value, k) <==> k in FieldKeys
  {
    forall k ensures HasKey(PreparedField(data, index).value, k) <==> k in FieldKeys {
      PreparedFieldGet(data, index, k);
      ExpectedFieldKeys(data, index, k);
    }
  }

  lemma ExpectedFieldKeys(data: seq<Member>, index: nat, k: string)
    ensures ExpectedFieldValue(data, index, k).Some? <==> k in FieldKeys
  {
  }

  /** An enumeration key always ends up holding a member of its
      enumeration. */
  lemma ValidOrMember(v: Option<Json>, values: set<string>, default: string)
    requires default in values
    ensures ValidOr(v, values, default).Some? && ValidOr(v, values, default).value.JString?
    ensures ValidOr(v, values, default).value.s in values
  {
  }

  /** A prepared field has a valid rating type (never an unspecified one,
      which the enumeration lacks) and valid work order categories. */
  lemma PreparedFieldEnums(data: seq<Member>, index: nat)
    requires PreparedField(data, index).Success?
    ensures var r := Get(PreparedField(data, index).value, "rating_type");
      r.Some? && r.value.JString? && r.value.s in RatingTypes && r.value.s != "RATING_TYPE_UNSPECIFIED"
    ensures var c := Get(PreparedField(data, index).value, "work_order_category");
      c.Some? && c.value.JString? && c.value.s in MaintenanceCategories
    ensures var c := Get(PreparedField(data, index).value, "work_order_sub_category");
      c.Some? && c.value.JString? && c.value.s in WorkOrderSubCategories
  {
    PreparedFieldGet(data, index, "rating_type");
    ValidOrMember(Get(data, "rating_type"), RatingTypes, Radio);
    PreparedFieldGet(data, index, "work_order_category");
    ValidOrMember(Get(data, "work_order_category"), MaintenanceCategories, CategoryUnspecified);
    PreparedFieldGet(data, index, "work_order_sub_category");
    ValidOrMember(Get(data, "work_order_sub_category"), WorkOrderSubCategories, SubCategoryUnspecified);
  }

  // validate_section_lenient --------------------------------------------

  /** The scalar keys of a section: cleaned, enums fixed, the children's
      keys set aside, a missing name filled in, then the defaults. */
  function SectionScalars(ms: seq<Member>): Result<seq<Member>, string>
  {
    match FixedEnums(CleanDictForModel(ms, SectionKeys).0, EnumConfig)
    case Failure(e) => Failure(e)
    case Success(fixed) => Success(NamedSection(fixed))
  }

  function NamedSection(fixed: seq<Member>): seq<Member>
  {
    var scalars := Without(Without(fixed, "sections"), "fields");
    var named := if HasKey(scalars, "name") then scalars else Set(scalars, "name", JString(UnknownSection));
    WithDefaults(named, SectionModel, {"sections", "fields"})
  }

  /** `validate_section_lenient`: the section's own keys are checked first,
      then its child sections, then its fields. */
  function SectionOutcome(V: Validators, data: Json): Outcome<Section>
    decreases data, 3
  {
    match data
    case JObject(ms) =>
      (match SectionScalars(ms)
       case Failure(e) => Failure(e)
       case Success(scalars) =>
         match ChildSections(V, data)
         case Failure(e) => Failure(e)
         case Success(sections) =>
           match ChildFields(V, ms)
           case Failure(e) => Failure(e)
           case Success(fields) => Success(V.section(PreparedSection(scalars, sections, fields))))
    case _ => Failure(NotADict)
  }

  /** The child sections that validate, from `section_data.get("sections", [])`. */
  function ChildSections(V: Validators, data: Json): Result<seq<Section>, string>
    requires data.JObject?
    decreases data, 2
  {
    match Get(data.members, "sections")
    case None => Success([])
    case Some(v) => SectionList(V, v)
  }

  function SectionList(V: Validators, v: Json): Result<seq<Section>, string>
    decreases v, 1
  {
    if v.JArray? then Collect(SectionOutcomes(V, v)) else NonListChildren(v)
  }

  /** The outcome of each raw child section. */
  function SectionOutcomes(V: Validators, v: Json): (r: seq<Outcome<Section>>)
    requires v.JArray?
    ensures |r| == |v.items|
    decreases v, 0
  {
    seq(|v.items|, j requires 0 <= j < |v.items| => SectionOutcome(V, v.items[j]))
  }

  /** The fields that validate, from `section_data.get("fields", [])`; a
      field's position is its index for the defaults. */
  function ChildFields(V: Validators, ms: seq<Member>): Result<seq<Field>, string>
  {
    match Get(ms, "fields")
    case None => Success([])
    case Some(v) => if v.JArray? then Collect(FieldOutcomes(V, v)) else NonListChildren(v)
  }

  function FieldOutcomes(V: Validators, v: Json): (r: seq<Outcome<Field>>)
    requires v.JArray?
    ensures |r| == |v.items|
  {
    seq(|v.items|, j requires 0 <= j < |v.items| => FieldOutcome(V, v.items[j], j))
  }

  method ValidateSectionLenient(V: Validators, data: Json) returns (r: Outcome<Section>)
    ensures r == SectionOutcome(V, data)
    decreases data, 3
  {
    if !data.JObject? {
      return Failure(NotADict);
    }
    var cleaned := CleanDictForModel(data.members, SectionKeys).0;
    var fixed := FixEnumValues(cleaned);
    if fixed.Failure? {
      return Failure(fixed.error);
    }
    var sections := ValidateChildSections(V, data);
    if sections.Failure? {
      return Failure(sections.error);
    }
    var fields := ValidateChildFields(V, data.members);
    if fields.Failure? {
      return Failure(fields.error);
    }
    var scalars := Without(Without(fixed.value, "sections"), "fields");
    if !HasKey(scalars, "name") {
      scalars := Set(scalars, "name", JString(UnknownSection));
    }
    scalars := ApplyDefaults(scalars, SectionModel, {"sections", "fields"});
    return Success(V.section(PreparedSection(scalars, sections.value, fields.value)));
  }

  /** The loop over the raw child sections. */
  method ValidateChildSections(V: Validators, data: Json) returns (r: Result<seq<Section>, string>)
    requires data.JObject?
    ensures r == ChildSections(V, data)
    decreases data, 2
  {
    var raw := Get(data.members, "sections");
    if raw.None? {
      return Success([]);
    }
    var v := raw.value;
    if !v.JArray? {
      return NonListChildren(v);
    }
    ghost var outcomes := SectionOutcomes(V, v);
    var valid: seq<Section> := [];
    PrependNothing(Collect(outcomes));
    assert outcomes[0..] == outcomes;
    for i := 0 to |v.items|
      invariant Collect(outcomes) == Prepend(valid, Collect(outcomes[i..]))
    {
      var child := ValidateSectionLenient(V, v.items[i]);
      CollectStep(outcomes, i, valid);
      if child.Failure? {
        return Failure(child.error);
      }
      valid := valid + Kept(child.value);
    }
    assert outcomes[|v.items|..] == [];
    assert valid + [] == valid;
    return Success(valid);
  }

  /** The loop over the raw fields. */
  method ValidateChildFields(V: Validators, ms: seq<Member>) returns (r: Result<seq<Field>, string>)
    ensures r == ChildFields(V, ms)
  {
    var raw := Get(ms, "fields");
    if raw.None? {
      return Success([]);
    }
    var v := raw.value;
    if !v.JArray? {
      return NonListChildren(v);
    }
    ghost var outcomes := FieldOutcomes(V, v);
    var valid: seq<Field> := [];
    PrependNothing(Collect(outcomes));
    assert outcomes[0..] == outcomes;
    for i := 0 to |v.items|
      invariant Collect(outcomes) == Prepend(valid, Collect(outcomes[i..]))
    {
      var field := ValidateFieldLenient(V, v.items[i], i);
      CollectStep(outcomes, i, valid);
      if field.Failure? {
        return Failure(field.error);
      }
      valid := valid + Kept(field.value);
    }
    assert outcomes[|v.items|..] == [];
    assert valid + [] == valid;
    return Success(valid);
  }

  /** What a section's scalar keys end up holding: a missing name becomes
      "Unknown Section" (a null one is kept, and fails validation), and the
      display type is a member of its enumeration. */
  function ExpectedSectionValue(ms: seq<Member>, k: string): Option<Json>
  {
    if k == "name" then (if HasKey(ms, "name") then Get(ms, "name") else Some(JString(UnknownSection)))
    else if k == "display_type" then ValidOr(Get(ms, k), SectionDisplayTypes, DisplayUnspecified)
    else None
  }

  /** Each scalar key of a section holds what `ExpectedSectionValue` says. */
  lemma SectionScalarsGet(ms: seq<Member>, k: string)
    requires SectionScalars(ms).Success?
    ensures Get(SectionScalars(ms).value, k) == ExpectedSectionValue(ms, k)
  {
    EnumConfigShape();
    var fixed := FixedEnums(CleanDictForModel(ms, SectionKeys).0, EnumConfig).value;
    FixedSectionGet(ms, EnumConfig, k);
    FixedSectionGet(ms, EnumConfig, "name");
    FixedSectionGet(ms, EnumConfig, "display_type");
    NamedSectionGet(fixed, k);
  }

  lemma FixedSectionGet(ms: seq<Member>, specs: seq<EnumSpec>, k: string)
    requires ConfigShape(specs)
    requires FixedEnums(CleanDictForModel(ms, SectionKeys).0, specs).Success?
    ensures Get(FixedEnums(CleanDictForModel(ms, SectionKeys).0, specs).value, k) ==
      if k !in SectionKeys then None
      else if k == "display_type" then FixedValue(Get(ms, k), specs[3])
      else Get(ms, k)
  {
    var cleaned := CleanDictForModel(ms, SectionKeys).0;
    CleanDictForModelSpec(ms, SectionKeys, k);
    FixedEnumsSpec(cleaned, specs, k);
    ConfigFixedAt(Get(cleaned, k), specs, k);
    if k in FieldEnumKeys {
      assert k !in SectionKeys;
    }
  }

  lemma NamedSectionGet(fixed: seq<Member>, k: string)
    ensures Get(NamedSection(fixed), k) ==
      if k == "sections" || k == "fields" then None
      else if k == "name" then (if HasKey(fixed, "name") then Get(fixed, "name") else Some(JString(UnknownSection)))
      else if k == "display_type" then (if HasKey(fixed, k) then Get(fixed, k) else Some(JString(DisplayUnspecified)))
      else Get(fixed, k)
  {
    var withoutSections := Without(fixed, "sections");
    var scalars := Without(withoutSections, "fields");
    var named := if HasKey(scalars, "name") then scalars else Set(scalars, "name", JString(UnknownSection));
    WithoutGet(fixed, "sections", k);
    WithoutGet(withoutSections, "fields", k);
    WithoutGet(fixed, "sections", "name");
    WithoutGet(withoutSections, "fields", "name");
    WithoutGet(withoutSections, "fields", "sections");
    DefaultedGet(scalars, "name", JString(UnknownSection), k);
    SectionDefaultsGet(named, k);
  }

  /** Setting a key only when it is missing. */
  lemma DefaultedGet(ms: seq<Member>, key: string, v: Json, k: string)
    ensures Get(if HasKey(ms, key) then ms else Set(ms, key, v), k) ==
      if k == key && !HasKey(ms, key) then Some(v) else Get(ms, k)
  {
    GetSet(ms, key, v, k);
  }

  /** The defaults of a section: only the display type is not held apart. */
  lemma SectionDefaultsGet(ms: seq<Member>, k: string)
    ensures Get(WithDefaults(ms, SectionModel, {"sections", "fields"}), k) ==
      if HasKey(ms, k) || k in {"sections", "fields"} then Get(ms, k)
      else if k == "display_type" then Some(JString(DisplayUnspecified))
      else None
  {
    WithDefaultsGet(ms, SectionModel, {"sections", "fields"}, k);
  }

  /** The defaults of a template: the versions are held apart. */
  lemma TemplateDefaultsGet(ms: seq<Member>, k: string)
    ensures Get(WithDefaults(ms, TemplateModel, {"versions"}), k) ==
      if HasKey(ms, k) || k == "versions" then Get(ms, k)
      else if k in DefaultKeys(TemplateModel) then Some(DefaultValue(TemplateModel, k))
      else None
  {
    WithDefaultsGet(ms, TemplateModel, {"versions"}, k);
  }

  lemma TemplateDefaultKeysDeclared(k: string)
    requires k in DefaultKeys(TemplateModel)
    ensures k in TemplateKeys
  {
  }

  /** The template's defaults, key by key. */
  lemma TemplateDefaultValues(k: string)
    requires k in TemplateKeys && k !in {"id", "name", "versions"}
    ensures k in DefaultKeys(TemplateModel)
    ensures DefaultValue(TemplateModel, k) == if k == "property_ids" then JArray([]) else JNull
  {
    if k == "property_ids" {
      assert DefaultValue(TemplateModel, "property_ids") == JArray([]);
    } else if k == "description" {
      assert DefaultValue(TemplateModel, "description") == JNull;
    } else if k == "created_at" {
      assert DefaultValue(TemplateModel, "created_at") == JNull;
    } else {
      assert k == "updated_at";
      assert DefaultValue(TemplateModel, "updated_at") == JNull;
    }
  }


  /** A section's own keys raise exactly when its display type is a list or
      a dict. */
  lemma SectionScalarsFails(ms: seq<Member>)
    ensures SectionScalars(ms).Failure? <==>
      Unhashable(Get(ms, "display_type"))
  {
    EnumConfigShape();
    SectionFixFails(ms, EnumConfig);
  }

  lemma SectionFixFails(ms: seq<Member>, specs: seq<EnumSpec>)
    requires ConfigShape(specs)
    ensures FixedEnums(CleanDictForModel(ms, SectionKeys).0, specs).Failure? <==>
      Unhashable(Get(ms, "display_type"))
  {
    var cleaned := CleanDictForModel(ms, SectionKeys).0;
    assert Get(cleaned, "display_type") == Get(ms, "display_type") by {
      assert "display_type" in SectionKeys;
      CleanDictForModelSpec(ms, SectionKeys, "display_type");
    }
    assert Get(cleaned, "rating_type") == None by {
      assert "rating_type" !in SectionKeys;
      CleanDictForModelSpec(ms, SectionKeys, "rating_type");
    }
    assert Get(cleaned, "work_order_category") == None by {
      assert "work_order_category" !in SectionKeys;
      CleanDictForModelSpec(ms, SectionKeys, "work_order_category");
    }
    assert Get(cleaned, "work_order_sub_category") == None by {
      assert "work_order_sub_category" !in SectionKeys;
      CleanDictForModelSpec(ms, SectionKeys, "work_order_sub_category");
    }
    SectionEnumsFail(cleaned, specs);
  }

  /** Fixing a dict without a field's enumeration keys raises exactly when
      its display type is unhashable. */
  lemma SectionEnumsFail(cleaned: seq<Member>, specs: seq<EnumSpec>)
    requires ConfigShape(specs)
    requires Get(cleaned, "rating_type") == None && Get(cleaned, "work_order_category") == None
    requires Get(cleaned, "work_order_sub_category") == None
    ensures FixedEnums(cleaned, specs).Failure? <==> Unhashable(Get(cleaned, "display_type"))
  {
    FixedEnumsFails(cleaned, specs);
    if HasUnhashableEnum(cleaned, specs) {
      var i :| 0 <= i < |specs| && Unhashable(Get(cleaned, specs[i].key));
      assert i == 3;
    }
    if Unhashable(Get(cleaned, "display_type")) {
      assert Unhashable(Get(cleaned, specs[3].key));
    }
  }

  /** The kept child sections are the ones that validated, in their original
      order; a child that raises makes the section raise. */
  lemma ChildSectionsSpec(V: Validators, data: Json, v: Json)
    requires data.JObject? && Get(data.members, "sections") == Some(v) && v.JArray?
    ensures ChildSections(V, data).Success? <==> forall j :: 0 <= j < |v.items| ==> SectionOutcome(V, v.items[j]).Success?
    ensures ChildSections(V, data).Success? ==>
      KeptAt(SectionOutcomes(V, v), ChildSections(V, data).value, KeptIndexes(SectionOutcomes(V, v), 0), 0)
  {
    var outcomes := SectionOutcomes(V, v);
    assert ChildSections(V, data) == Collect(outcomes);
    assert forall j :: 0 <= j < |v.items| ==> outcomes[j] == SectionOutcome(V, v.items[j]);
    CollectSucceeds(outcomes);
    if Collect(outcomes).Success? {
      CollectKeeps(outcomes, 0);
    }
  }

  /** The same for fields. */
  lemma ChildFieldsSpec(V: Validators, ms: seq<Member>, v: Json)
    requires Get(ms, "fields") == Some(v) && v.JArray?
    ensures ChildFields(V, ms).Success? <==> forall j :: 0 <= j < |v.items| ==> FieldOutcome(V, v.items[j], j).Success?
    ensures ChildFields(V, ms).Success? ==>
      KeptAt(FieldOutcomes(V, v), ChildFields(V, ms).value, KeptIndexes(FieldOutcomes(V, v), 0), 0)
  {
    var outcomes := FieldOutcomes(V, v);
    assert ChildFields(V, ms) == Collect(outcomes);
    assert forall j :: 0 <= j < |v.items| ==> outcomes[j] == FieldOutcome(V, v.items[j], j);
    CollectSucceeds(outcomes);
    if Collect(outcomes).Success? {
      CollectKeeps(outcomes, 0);
    }
  }

  // validate_template_lenient -------------------------------------------

  /** One version: skipped when its structure is missing or falsy, when the
      structure does not validate, or when the version does not. */
  function VersionOutcome(V: Validators, data: Json, index: nat): Outcome<Version>
  {
    match data
    case JObject(vm) =>
      var raw := GetOr(vm, "structure", JNull);
      if !Truthy(raw) then Success(None)
      else
        (match SectionOutcome(V, raw)
         case Failure(e) => Failure(e)
         case Success(None) => Success(None)
         case Success(Some(st)) => Success(V.version(VersionId(vm, index), st)))
    case _ => Failure(NotADict)
  }

  /** `version_cleaned.get("version_id", v_idx + 1)`. */
  function VersionId(vm: seq<Member>, index: nat): Json
  {
    GetOr(CleanDictForModel(vm, VersionKeys).0, "version_id", JInt(index + 1))
  }

  function VersionOutcomes(V: Validators, v: Json): (r: seq<Outcome<Version>>)
    requires v.JArray?
    ensures |r| == |v.items|
  {
    seq(|v.items|, j requires 0 <= j < |v.items| => VersionOutcome(V, v.items[j], j))
  }

  /** The versions that validate, from `template_data.get("versions", [])`. */
  function TemplateVersions(V: Validators, ms: seq<Member>): Result<seq<Version>, string>
  {
    var v := GetOr(ms, "versions", JArray([]));
    if v.JArray? then Collect(VersionOutcomes(V, v)) else NonListChildren(v)
  }

  /** The template's own keys: cleaned, versions set aside, `id` and `name`
      filled in when missing, then the defaults. */
  function TemplateScalars(ms: seq<Member>): seq<Member>
  {
    var scalars := Without(CleanDictForModel(ms, TemplateKeys).0, "versions");
    var withId := if HasKey(scalars, "id") then scalars else Set(scalars, "id", JInt(1));
    var named := if HasKey(withId, "name") then withId else Set(withId, "name", JString(DefaultTemplateName));
    WithDefaults(named, TemplateModel, {"versions"})
  }

  /** `validate_template_lenient`: the final validation is not caught. */
  function TemplateOutcome(V: Validators, data: Json): Result<Template, string>
  {
    match data
    case JObject(ms) =>
      (match TemplateVersions(V, ms)
       case Failure(e) => Failure(e)
       case Success(vs) =>
         match V.template(PreparedTemplate(TemplateScalars(ms), vs))
         case None => Failure(TemplateRejected)
         case Some(t) => Success(t))
    case _ => Failure(NotADict)
  }

  method ValidateVersion(V: Validators, data: Json, index: nat) returns (r: Outcome<Version>)
    ensures r == VersionOutcome(V, data, index)
  {
    if !data.JObject? {
      return Failure(NotADict);
    }
    var cleaned := CleanDictForModel(data.members, VersionKeys).0;
    var raw := GetOr(data.members, "structure", JNull);
    if !Truthy(raw) {
      return Success(None);
    }
    var structure := ValidateSectionLenient(V, raw);
    if structure.Failure? {
      return Failure(structure.error);
    }
    if structure.value.None? {
      return Success(None);
    }
    return Success(V.version(GetOr(cleaned, "version_id", JInt(index + 1)), structure.value.value));
  }

  method ValidateTemplateLenient(V: Validators, data: Json) returns (r: Result<Template, string>)
    ensures r == TemplateOutcome(V, data)
  {
    if !data.JObject? {
      return Failure(NotADict);
    }
    var ms := data.members;
    var cleaned := CleanDictForModel(ms, TemplateKeys).0;
    var raw := GetOr(ms, "versions", JArray([]));
    var versions: seq<Version> := [];
    if raw.JArray? {
      ghost var outcomes := VersionOutcomes(V, raw);
      PrependNothing(Collect(outcomes));
      assert outcomes[0..] == outcomes;
      for i := 0 to |raw.items|
        invariant Collect(outcomes) == Prepend(versions, Collect(outcomes[i..]))
      {
        var version := ValidateVersion(V, raw.items[i], i);
        CollectStep(outcomes, i, versions);
        if version.Failure? {
          return Failure(version.error);
        }
        versions := versions + Kept(version.value);
      }
      assert outcomes[|raw.items|..] == [];
      assert versions + [] == versions;
    } else {
      var none: Result<seq<Version>, string> := NonListChildren(raw);
      if none.Failure? {
        return Failure(none.error);
      }
    }
    var scalars := Without(cleaned, "versions");
    if !HasKey(scalars, "id") {
      scalars := Set(scalars, "id", JInt(1));
    }
    if !HasKey(scalars, "name") {
      scalars := Set(scalars, "name", JString(DefaultTemplateName));
    }
    scalars := ApplyDefaults(scalars, TemplateModel, {"versions"});
    var template := V.template(PreparedTemplate(scalars, versions));
    if template.None? {
      return Failure(TemplateRejected);
    }
    return Success(template.value);
  }

  /** A version's id is its own, if it has one, else its position plus one. */
  lemma VersionIdDefault(vm: seq<Member>, index: nat)
    ensures VersionId(vm, index) == if HasKey(vm, "version_id") then Get(vm, "version_id").value else JInt(index + 1)
  {
    CleanDictForModelSpec(vm, VersionKeys, "version_id");
  }

  /** The kept versions are the ones that validated, in their original
      order; a version that raises makes the template raise. */
  lemma TemplateVersionsSpec(V: Validators, ms: seq<Member>, v: Json)
    requires Get(ms, "versions") == Some(v) && v.JArray?
    ensures TemplateVersions(V, ms).Success? <==> forall j :: 0 <= j < |v.items| ==> VersionOutcome(V, v.items[j], j).Success?
    ensures TemplateVersions(V, ms).Success? ==>
      KeptAt(VersionOutcomes(V, v), TemplateVersions(V, ms).value, KeptIndexes(VersionOutcomes(V, v), 0), 0)
  {
    var outcomes := VersionOutcomes(V, v);
    assert TemplateVersions(V, ms) == Collect(outcomes);
    assert forall j :: 0 <= j < |v.items| ==> outcomes[j] == VersionOutcome(V, v.items[j], j);
    CollectSucceeds(outcomes);
    if Collect(outcomes).Success? {
      CollectKeeps(outcomes, 0);
    }
  }

  /** A version without a truthy structure is skipped. */
  lemma VersionWithoutStructure(V: Validators, vm: seq<Member>, index: nat)
    requires !Truthy(GetOr(vm, "structure", JNull))
    ensures VersionOutcome(V, JObject(vm), index) == Success(None)
  {
  }

  /** What the template's own keys end up holding: `id` defaults to 1, the
      name to "Extracted Inspection Template", the property ids to an empty
      list and the other keys to `None`; versions are held apart, and
      unknown keys are gone. */
  lemma TemplateScalarsGet(ms: seq<Member>, k: string)
    ensures Get(TemplateScalars(ms), k) ==
      if k !in TemplateKeys || k == "versions" then None
      else if HasKey(ms, k) then Get(ms, k)
      else if k == "id" then Some(JInt(1))
      else if k == "name" then Some(JString(DefaultTemplateName))
      else if k == "property_ids" then Some(JArray([]))
      else Some(JNull)
  {
    var scalars := Without(CleanDictForModel(ms, TemplateKeys).0, "versions");
    var withId := if HasKey(scalars, "id") then scalars else Set(scalars, "id", JInt(1));
    var named := if HasKey(withId, "name") then withId else Set(withId, "name", JString(DefaultTemplateName));
    TemplateNamedGet(ms, k);
    TemplateDefaultsGet(named, k);
    if k in TemplateKeys && k !in {"id", "name", "versions"} {
      TemplateDefaultValues(k);
    } else if k in DefaultKeys(TemplateModel) {
      TemplateDefaultKeysDeclared(k);
    }
  }

  /** The template's keys once cleaned and given an id and a name. */
  lemma TemplateNamedGet(ms: seq<Member>, k: string)
    ensures
      var scalars := Without(CleanDictForModel(ms, TemplateKeys).0, "versions");
      var withId := if HasKey(scalars, "id") then scalars else Set(scalars, "id", JInt(1));
      var named := if HasKey(withId, "name") then withId else Set(withId, "name", JString(DefaultTemplateName));
      Get(named, k) ==
        if k !in TemplateKeys || k == "versions" then None
        else if HasKey(ms, k) then Get(ms, k)
        else if k == "id" then Some(JInt(1))
        else if k == "name" then Some(JString(DefaultTemplateName))
        else None
  {
    var cleaned := CleanDictForModel(ms, TemplateKeys).0;
    var scalars := Without(cleaned, "versions");
    var withId := if HasKey(scalars, "id") then scalars else Set(scalars, "id", JInt(1));
    CleanDictForModelSpec(ms, TemplateKeys, k);
    CleanDictForModelSpec(ms, TemplateKeys, "id");
    CleanDictForModelSpec(ms, TemplateKeys, "name");
    WithoutGet(cleaned, "versions", k);
    WithoutGet(cleaned, "versions", "id");
    WithoutGet(cleaned, "versions", "name");
    DefaultedGet(scalars, "id", JInt(1), k);
    DefaultedGet(scalars, "id", JInt(1), "name");
    DefaultedGet(withId, "name", JString(DefaultTemplateName), k);
    assert "id" in TemplateKeys && "name" in TemplateKeys;
  }

  // _count_sections, _count_fields ----------------------------------------

  /** `_count_sections` counts every section of the tree once. */
  lemma {:induction false} CountSectionsPreOrder(s: Section)
    ensures CountSections(s) == |FieldComparator.PreOrder(s)|
  {
    CountSectionsOfPreOrder(s.sections);
  }

  lemma {:induction false} CountSectionsOfPreOrder(ss: seq<Section>)
    ensures CountSectionsOf(ss) == |FieldComparator.PreOrderOf(ss)|
  {
    if ss != [] {
      CountSectionsOfPreOrder(ss[..|ss| - 1]);
      CountSectionsPreOrder(ss[|ss| - 1]);
    }
  }

  /** The number of fields the sections own themselves. */
  function OwnFields(ss: seq<Section>): nat
  {
    if ss == [] then 0 else OwnFields(ss[..|ss| - 1]) + |ss[|ss| - 1].fields|
  }

  lemma {:induction false} OwnFieldsConcat(a: seq<Section>, b: seq<Section>)
    ensures OwnFields(a + b) == OwnFields(a) + OwnFields(b)
    decreases |b|
  {
    if b == [] {
      assert a + b == a;
    } else {
      assert (a + b)[..|a + b| - 1] == a + b[..|b| - 1];
      OwnFieldsConcat(a, b[..|b| - 1]);
    }
  }

  /** `_count_fields` counts the fields every section of the tree owns. */
  lemma {:induction false} CountFieldsPreOrder(s: Section)
    ensures CountFields(s) == OwnFields(FieldComparator.PreOrder(s))
  {
    CountFieldsOfPreOrder(s.sections);
    OwnFieldsConcat([s], FieldComparator.PreOrderOf(s.sections));
    assert [s][..0] == [];
  }

  lemma {:induction false} CountFieldsOfPreOrder(ss: seq<Section>)
    ensures CountFieldsOf(ss) == OwnFields(FieldComparator.PreOrderOf(ss))
  {
    if ss != [] {
      CountFieldsOfPreOrder(ss[..|ss| - 1]);
      CountFieldsPreOrder(ss[|ss| - 1]);
      OwnFieldsConcat(FieldComparator.PreOrderOf(ss[..|ss| - 1]), FieldComparator.PreOrder(ss[|ss| - 1]));
    }
  }
}
