/** `normalize_enum_values`: the Bedrock provider's repair of enum strings
    in a parsed reply, before schema validation. */
module EnumNormalize {
  import opened Json
  import opened Text

  /** The keys whose string values are enum names. */
  const EnumFields: set<string> := {"rating_type", "work_order_category", "work_order_sub_category", "display_type"}

  predicate IsLowerAscii(c: char)
  {
    'a' <= c <= 'z'
  }

  /** `value.replace("-", "_").upper()`: same length, no hyphen and no
      lower-case letter left. */
  function NormalizedEnum(s: string): (r: string)
    ensures |r| == |s|
    ensures forall i :: 0 <= i < |r| ==> r[i] != '-' && !IsLowerAscii(r[i])
    ensures forall i :: 0 <= i < |r| ==> (s[i] == '-' ==> r[i] == '_')
  {
    Upper(ReplaceChar(s, '-', '_'))
  }

  /** A dict is rebuilt key by key, a list item by item; anything else is
      returned as it is. */
  function Normalized(j: Json): (r: Json)
    ensures !j.JObject? && !j.JArray? ==> r == j
    ensures j.JArray? ==> r.JArray? && |r.items| == |j.items|
    ensures j.JObject? ==> r.JObject? && Keys(r.members) == Keys(j.members)
    decreases j, 1
  {
    match j
    case JObject(ms) =>
      var out := seq(|ms|, i requires 0 <= i < |ms| => Member(ms[i].key, NormalizedValue(ms[i].key, ms[i].value)));
      KeysPointwise(out, ms);
      JObject(out)
    case JArray(items) =>
      JArray(seq(|items|, i requires 0 <= i < |items| =>
        if items[i].JObject? || items[i].JArray? then Normalized(items[i]) else items[i]))
    case _ => j
  }

  /** The value stored under `key` in the rebuilt dict. */
  function NormalizedValue(key: string, v: Json): Json
    decreases v, 2
  {
    if key in EnumFields && v.JString? then JString(NormalizedEnum(v.s))
    else if v.JObject? || v.JArray? then Normalized(v)
    else v
  }

  lemma {:induction false} KeysPointwise(a: seq<Member>, b: seq<Member>)
    requires |a| == |b| && forall i :: 0 <= i < |a| ==> a[i].key == b[i].key
    ensures Keys(a) == Keys(b)
  {
    if a != [] {
      KeysPointwise(a[1..], b[1..]);
    }
  }

  /** Every entry of a dict keeps its key and position; a string under an
      enum key is rewritten and every other value is normalised in turn. */
  lemma NormalizedMember(ms: seq<Member>, i: nat)
    requires i < |ms|
    ensures Normalized(JObject(ms)).members[i].key == ms[i].key
    ensures var v := Normalized(JObject(ms)).members[i].value;
      if ms[i].key in EnumFields && ms[i].value.JString? then v == JString(NormalizedEnum(ms[i].value.s))
      else v == Normalized(ms[i].value)
  {
  }

  /** Lists keep their length and order: item `i` of the result is item `i`
      normalised. */
  lemma NormalizedItem(items: seq<Json>, i: nat)
    requires i < |items|
    ensures Normalized(JArray(items)).items[i] == Normalized(items[i])
  {
  }

  /** A rewritten enum string is rewritten to itself. */
  lemma NormalizedEnumIdempotent(s: string)
    ensures NormalizedEnum(NormalizedEnum(s)) == NormalizedEnum(s)
  {
    var r := NormalizedEnum(s);
    assert ReplaceChar(r, '-', '_') == r;
    assert Upper(r) == r;
  }

  /** Normalising twice is normalising once. */
  lemma {:induction false} NormalizedIdempotent(j: Json)
    ensures Normalized(Normalized(j)) == Normalized(j)
    decreases j
  {
    match j
    case JObject(ms) =>
      var r := Normalized(j).members;
      var rr := Normalized(Normalized(j)).members;
      assert |rr| == |r| == |ms|;
      forall i | 0 <= i < |ms| ensures rr[i] == r[i] {
        var v := ms[i].value;
        assert r[i] == Member(ms[i].key, NormalizedValue(ms[i].key, v));
        assert rr[i] == Member(ms[i].key, NormalizedValue(ms[i].key, r[i].value));
        if ms[i].key in EnumFields && v.JString? {
          NormalizedEnumIdempotent(v.s);
        } else if v.JObject? || v.JArray? {
          NormalizedIdempotent(v);
        }
      }
    case JArray(items) =>
      var r := Normalized(j).items;
      var rr := Normalized(Normalized(j)).items;
      forall i | 0 <= i < |items| ensures rr[i] == r[i] {
        if items[i].JObject? || items[i].JArray? {
          NormalizedIdempotent(items[i]);
        }
      }
    case _ =>
  }

  /** The documented example: `RATING_TYPE-select` becomes
      `RATING_TYPE_SELECT`. */
  lemma NormalizedExample()
    ensures NormalizedEnum("RATING_TYPE-select") == "RATING_TYPE_SELECT"
  {
    var s := "RATING_TYPE-select";
    var r := NormalizedEnum(s);
    assert r[11] == '_' && r[12] == 'S' && r[13] == 'E' && r[14] == 'L';
    assert r[15] == 'E' && r[16] == 'C' && r[17] == 'T';
  }
}
