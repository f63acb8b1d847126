/** Merging the partial section trees that chunked page processing returns
    into one tree, and renumbering field ids in pre-order
    (`src/utils/merge.py`). Dicts are JSON values here: an update in place
    is a method that returns the updated value. */
module Merge {
  import opened Wrappers
  import opened Json

  // ---------------------------------------------------------------------
  // _deep_copy_dict
  // ---------------------------------------------------------------------

  /** `_deep_copy_dict`: dicts and lists are rebuilt entry by entry; as a
      value the copy is the original. */
  function DeepCopy(j: Json): (r: Json)
    ensures r == j
    decreases j
  {
    match j
    case JObject(ms) =>
      var copied := seq(|ms|, i requires 0 <= i < |ms| => Member(ms[i].key, DeepCopy(ms[i].value)));
      assert copied == ms;
      JObject(copied)
    case JArray(items) =>
      var copied := seq(|items|, i requires 0 <= i < |items| => DeepCopy(items[i]));
      assert copied == items;
      JArray(copied)
    case _ => j
  }

  // ---------------------------------------------------------------------
  // _merge_sections
  // ---------------------------------------------------------------------

  /** `section.get("name", "")`. */
  function NameOf(ms: seq<Member>): Json
  {
    GetOr(ms, "name", JString(""))
  }

  /** `base_section_map`: every truthy name of a base child maps to the
      index of its last occurrence. A child that is not a dict raises. */
  function NameMap(items: seq<Json>): (r: Result<map<Json, nat>, string>)
    ensures r.Success? ==> forall name :: name in r.value ==> r.value[name] < |items|
  {
    if items == [] then Success(map[])
    else
      var n := |items| - 1;
      var front := NameMap(items[..n]);
      if front.Failure? then front else NameEntry(front.value, items[n], n)
  }

  /** Recording the child at index `n`. */
  function NameEntry(names: map<Json, nat>, section: Json, n: nat): (r: Result<map<Json, nat>, string>)
  {
    match section
    case JObject(ms) =>
      var name := NameOf(ms);
      if !Truthy(name) then Success(names)
      else if !Hashable(name) then Failure("TypeError: unhashable section name")
      else Success(names[name := n])
    case _ => Failure("AttributeError: a section is not a dict")
  }

  /** The child list after the first `n` incoming children of `v` were
      folded into `base`. */
  function MergeChildren(base: seq<Json>, names: map<Json, nat>, v: Json, n: nat): (r: Result<seq<Json>, string>)
    requires v.JArray? && n <= |v.items|
    requires forall name :: name in names ==> names[name] < |base|
    ensures r.Success? ==> |base| <= |r.value|
    decreases v, 1, n
  {
    if n == 0 then Success(base)
    else
      var front := MergeChildren(base, names, v, n - 1);
      if front.Failure? then front
      else MergeChild(front.value, names, v.items[n - 1])
  }

  /** One incoming child: a dict whose truthy name is in `names` is merged
      into the child at that index, any other dict is appended. */
  function MergeChild(sections: seq<Json>, names: map<Json, nat>, inc: Json): (r: Result<seq<Json>, string>)
    requires forall name :: name in names ==> names[name] < |sections|
    ensures r.Success? ==> |sections| <= |r.value|
    decreases inc, 2, 1
  {
    match inc
    case JObject(ims) =>
      var name := NameOf(ims);
      if Truthy(name) && !Hashable(name) then Failure("TypeError: unhashable section name")
      else if Truthy(name) && name in names then
        var merged := Merged(sections[names[name]], inc);
        if merged.Failure? then Failure(merged.error) else Success(sections[names[name] := merged.value])
      else Success(sections + [inc])
    case _ => Failure("AttributeError: a section is not a dict")
  }

  /** `_merge_sections(base, incoming)`. */
  function Merged(base: Json, incoming: Json): (r: Result<Json, string>)
    ensures !Truthy(incoming) || !incoming.JObject? ==> r == Success(base)
    ensures Truthy(incoming) && incoming.JObject? && !Truthy(base) ==> r == Success(incoming)
    decreases incoming, 2, 0
  {
    if !Truthy(incoming) || !incoming.JObject? then Success(base)
    else if !Truthy(base) then Success(incoming)
    else if !base.JObject? then Failure("AttributeError: the base is not a dict")
    else
      match MergedSections(base.members, incoming)
      case Failure(e) => Failure(e)
      case Success(ms1) => AppendedFields(ms1, GetOr(incoming.members, "fields", JArray([])))
  }

  /** The child-sections step of `_merge_sections`: with truthy incoming
      `sections`, the base's `sections` list (empty when absent) after every
      incoming child was merged or appended. */
  function MergedSections(ms: seq<Member>, incoming: Json): Result<seq<Member>, string>
    requires incoming.JObject?
    decreases incoming, 1, |incoming.members| + 1
  {
    match Get(incoming.members, "sections")
    case None => Success(ms)
    case Some(incs) =>
      if !Truthy(incs) then Success(ms)
      else
        var bs := GetOr(ms, "sections", JArray([]));
        if !bs.JArray? || !incs.JArray? then Failure("AttributeError: sections is not a list")
        else
          match NameMap(bs.items)
          case Failure(e) => Failure(e)
          case Success(names) =>
            match MergeChildren(bs.items, names, incs, |incs.items|)
            case Failure(e) => Failure(e)
            case Success(items) => Success(Set(ms, "sections", JArray(items)))
  }

  /** Appending the incoming `fields` (whatever iterating them visits) to the
      result's `fields` list. */
  function AppendedFields(ms: seq<Member>, incoming: Json): Result<Json, string>
  {
    if !Truthy(incoming) then Success(JObject(ms))
    else
      match Iterate(incoming)
      case None => Failure("TypeError: fields is not iterable")
      case Some(xs) =>
        var fields := GetOr(ms, "fields", JArray([]));
        if !fields.JArray? then Failure("AttributeError: fields is not a list")
        else Success(JObject(Set(ms, "fields", JArray(fields.items + xs))))
  }

  /** The loop that builds `base_section_map`. */
  method BuildNameMap(items: seq<Json>) returns (r: Result<map<Json, nat>, string>)
    ensures r == NameMap(items)
  {
    var names: map<Json, nat> := map[];
    var i := 0;
    while i < |items|
      invariant 0 <= i <= |items|
      invariant NameMap(items[..i]) == Success(names)
    {
      assert items[..i + 1][..i] == items[..i];
      var section := items[i];
      ghost var step := NameEntry(names, section, i);
      assert NameMap(items[..i + 1]) == step;
      if !section.JObject? {
        NameMapFails(items, i + 1);
        return Failure("AttributeError: a section is not a dict");
      }
      var name := NameOf(section.members);
      if Truthy(name) {
        if !Hashable(name) {
          NameMapFails(items, i + 1);
          return Failure("TypeError: unhashable section name");
        }
        names := names[name := i];
      }
      assert step == Success(names);
      i := i + 1;
    }
    assert items[..i] == items;
    r := Success(names);
  }

  /** The loop over the incoming child sections. */
  method MergeChildSections(base: seq<Json>, names: map<Json, nat>, v: Json) returns (r: Result<seq<Json>, string>)
    requires v.JArray?
    requires forall name :: name in names ==> names[name] < |base|
    ensures r == MergeChildren(base, names, v, |v.items|)
    decreases v, 1
  {
    var items := v.items;
    var sections := base;
    var i := 0;
    while i < |items|
      invariant 0 <= i <= |items|
      invariant MergeChildren(base, names, v, i) == Success(sections)
      invariant |base| <= |sections|
    {
      var inc := items[i];
      assert inc in v.items;
      MergeChildrenNext(base, names, v, i);
      var step := MergeChildSection(sections, names, inc);
      if step.Failure? {
        MergeChildrenFails(base, names, v, i + 1);
        return step;
      }
      sections := step.value;
      i := i + 1;
    }
    r := Success(sections);
  }

  /** The body of the loop over the incoming child sections, for one
      child `inc`. */
  method MergeChildSection(sections: seq<Json>, names: map<Json, nat>, inc: Json) returns (r: Result<seq<Json>, string>)
    requires forall name :: name in names ==> names[name] < |sections|
    ensures r == MergeChild(sections, names, inc)
    decreases inc, 3
  {
    if !inc.JObject? {
      return Failure("AttributeError: a section is not a dict");
    }
    var name := NameOf(inc.members);
    if Truthy(name) && !Hashable(name) {
      return Failure("TypeError: unhashable section name");
    }
    if Truthy(name) && name in names {
      var index := names[name];
      var merged := MergeSections(sections[index], inc);
      if merged.Failure? {
        return Failure(merged.error);
      }
      r := Success(sections[index := merged.value]);
    } else {
      r := Success(sections + [DeepCopy(inc)]);
    }
  }

  /** One more incoming child merged after the first `i`. */
  lemma MergeChildrenNext(base: seq<Json>, names: map<Json, nat>, v: Json, i: nat)
    requires v.JArray? && i < |v.items|
    requires forall name :: name in names ==> names[name] < |base|
    requires MergeChildren(base, names, v, i).Success?
    ensures MergeChildren(base, names, v, i + 1)
         == MergeChild(MergeChildren(base, names, v, i).value, names, v.items[i])
  {
  }

  /** `_merge_sections`: the base's keys stay, matching children merge,
      new children and all incoming fields are appended. */
  method MergeSections(base: Json, incoming: Json) returns (r: Result<Json, string>)
    ensures r == Merged(base, incoming)
    decreases incoming, 2
  {
    if !Truthy(incoming) || !incoming.JObject? {
      return Success(base);
    }
    if !Truthy(base) {
      return Success(DeepCopy(incoming));
    }
    if !base.JObject? {
      return Failure("AttributeError: the base is not a dict");
    }
    var result := DeepCopy(base).members;
    var incs := Get(incoming.members, "sections");
    if incs.Some? && Truthy(incs.value) {
      var bs := GetOr(result, "sections", JArray([]));
      if !bs.JArray? || !incs.value.JArray? {
        return Failure("AttributeError: sections is not a list");
      }
      var names := BuildNameMap(bs.items);
      if names.Failure? {
        return Failure(names.error);
      }
      var items := MergeChildSections(bs.items, names.value, incs.value);
      if items.Failure? {
        return Failure(items.error);
      }
      result := Set(result, "sections", JArray(items.value));
    }
    var fields := GetOr(result, "fields", JArray([]));
    var incomingFields := GetOr(incoming.members, "fields", JArray([]));
    if Truthy(incomingFields) {
      var xs := Iterate(incomingFields);
      if xs.None? {
        return Failure("TypeError: fields is not iterable");
      }
      if !fields.JArray? {
        return Failure("AttributeError: fields is not a list");
      }
      var out := AppendCopies(fields.items, xs.value);
      result := Set(result, "fields", JArray(out));
    }
    r := Success(JObject(result));
  }

  /** The loop that appends a deep copy of each incoming field. */
  method AppendCopies(fields: seq<Json>, incoming: seq<Json>) returns (out: seq<Json>)
    ensures out == fields + incoming
  {
    out := fields;
    var i := 0;
    while i < |incoming|
      invariant 0 <= i <= |incoming|
      invariant out == fields + incoming[..i]
    {
      assert incoming[..i + 1] == incoming[..i] + [incoming[i]];
      out := out + [DeepCopy(incoming[i])];
      i := i + 1;
    }
    assert incoming[..i] == incoming;
  }


  // ---------------------------------------------------------------------
  // Properties of the merge
  // ---------------------------------------------------------------------

  /** A child's name; `""` for anything that is not a dict. */
  function ChildName(j: Json): Json
  {
    if j.JObject? then NameOf(j.members) else JString("")
  }

  /** The map succeeds only on dict children and holds every truthy
      name among them. */
  lemma {:induction false} NameMapNames(items: seq<Json>)
    requires NameMap(items).Success?
    ensures forall i :: 0 <= i < |items| ==> items[i].JObject?
    ensures forall i :: 0 <= i < |items| && Truthy(ChildName(items[i])) ==> ChildName(items[i]) in NameMap(items).value
  {
    if items != [] {
      var n := |items| - 1;
      var front := items[..n];
      NameMapStep(items);
      NameMapNames(front);
      var names := NameMap(items).value;
      var fm := NameMap(front).value;
      assert items[n].JObject?;
      assert fm.Keys <= names.Keys;
      forall i | 0 <= i < |items|
        ensures items[i].JObject? && (Truthy(ChildName(items[i])) ==> ChildName(items[i]) in names)
      {
        if i < n {
          assert front[i] == items[i];
        }
      }
    }
  }

  /** The map of all children: the map of all but the last, then the last
      recorded. */
  lemma NameMapStep(items: seq<Json>)
    requires items != [] && NameMap(items).Success?
    ensures NameMap(items[..|items| - 1]).Success?
    ensures NameMap(items)
         == NameEntry(NameMap(items[..|items| - 1]).value, items[|items| - 1], |items| - 1)
  {
  }

  /** `k` is the index of the last child named `name`. */
  predicate LastWith(items: seq<Json>, name: Json, k: nat)
  {
    k < |items| && ChildName(items[k]) == name
    && forall j :: k < j < |items| ==> ChildName(items[j]) != name
  }

  /** Each name maps to the last child that carries it. */
  lemma {:induction false} NameMapLast(items: seq<Json>)
    requires NameMap(items).Success?
    ensures forall name :: name in NameMap(items).value ==>
              Truthy(name) && LastWith(items, name, NameMap(items).value[name])
  {
    if items != [] {
      var n := |items| - 1;
      NameMapStep(items);
      NameMapLast(items[..n]);
      var front := NameMap(items[..n]).value;
      var names := NameMap(items).value;
      var last := ChildName(items[n]);
      assert names == if Truthy(last) then front[last := n] else front;
      forall name | name in names
        ensures Truthy(name) && LastWith(items, name, names[name])
      {
        if Truthy(last) && name == last {
          assert names[name] == n;
        } else {
          LastWithExtend(items, name, front[name]);
        }
      }
    }
  }

  /** A child after the last one named `name` that is not named `name`
      either leaves it the last. */
  lemma LastWithExtend(items: seq<Json>, name: Json, k: nat)
    requires items != [] && LastWith(items[..|items| - 1], name, k)
    requires ChildName(items[|items| - 1]) != name
    ensures LastWith(items, name, k)
  {
    var n := |items| - 1;
    assert items[..n][k] == items[k];
    forall j | k < j < |items|
      ensures ChildName(items[j]) != name
    {
      if j < n {
        assert items[..n][j] == items[j];
      }
    }
  }

  /** The incoming children that no base child absorbs, in order. */
  function Unmatched(names: map<Json, nat>, incs: seq<Json>): seq<Json>
  {
    if incs == [] then []
    else
      var n := |incs| - 1;
      Unmatched(names, incs[..n]) + (if Truthy(ChildName(incs[n])) && ChildName(incs[n]) in names then [] else [incs[n]])
  }

  /** The fields appended to a merged dict, and its keys: every key of the
      base stays in place, and every key other than `sections` and `fields`
      keeps the base's value (`name` and `display_type` among them). */
  lemma MergedKeepsKeys(base: Json, incoming: Json)
    requires base.JObject? && base.members != [] && incoming.JObject? && incoming.members != []
    requires Merged(base, incoming).Success?
    ensures Merged(base, incoming).value.JObject?
    ensures Keys(base.members) <= Keys(Merged(base, incoming).value.members)
    ensures forall key :: key != "sections" && key != "fields" ==>
              Get(Merged(base, incoming).value.members, key) == Get(base.members, key)
  {
    var ms := base.members;
    var ms1 := MergedSections(ms, incoming).value;
    MergedSectionsKeepsKeys(ms, incoming);
    var inf := GetOr(incoming.members, "fields", JArray([]));
    if Truthy(inf) {
      var fields := GetOr(ms1, "fields", JArray([]));
      var out := fields.items + Iterate(inf).value;
      SetKeys(ms1, "fields", JArray(out));
      forall key | key != "fields"
        ensures Get(Set(ms1, "fields", JArray(out)), key) == Get(ms1, key)
      {
        GetSet(ms1, "fields", JArray(out), key);
      }
    }
  }

  /** The child-sections step changes the `sections` entry only. */
  lemma MergedSectionsKeepsKeys(ms: seq<Member>, incoming: Json)
    requires incoming.JObject? && MergedSections(ms, incoming).Success?
    ensures Keys(ms) <= Keys(MergedSections(ms, incoming).value)
    ensures forall key :: key != "sections" ==> Get(MergedSections(ms, incoming).value, key) == Get(ms, key)
  {
    var incs := Get(incoming.members, "sections");
    if incs.Some? && Truthy(incs.value) {
      var bs := GetOr(ms, "sections", JArray([]));
      var items := JArray(MergeChildren(bs.items, NameMap(bs.items).value, incs.value, |incs.value.items|).value);
      SetKeys(ms, "sections", items);
      forall key | key != "sections"
        ensures Get(Set(ms, "sections", items), key) == Get(ms, key)
      {
        GetSet(ms, "sections", items, key);
      }
    }
  }

  /** `names` indexes `base`: every name maps to a dict child carrying it. */
  predicate NamesIndex(names: map<Json, nat>, base: seq<Json>)
  {
    (forall i :: 0 <= i < |base| ==> base[i].JObject?)
    && forall name :: name in names ==> names[name] < |base| && ChildName(base[names[name]]) == name
  }

  lemma NameMapIndexes(items: seq<Json>)
    requires NameMap(items).Success?
    ensures NamesIndex(NameMap(items).value, items)
  {
    NameMapNames(items);
    NameMapLast(items);
  }

  /** Merging keeps the base's children in place, each with its name, and
      appends the unmatched incoming children in incoming order; two new
      children with the same name are both appended. */
  lemma MergeChildrenPlaces(base: seq<Json>, v: Json, n: nat)
    requires v.JArray? && n <= |v.items| && NameMap(base).Success?
    requires MergeChildren(base, NameMap(base).value, v, n).Success?
    ensures var out := MergeChildren(base, NameMap(base).value, v, n).value;
            && out[|base|..] == Unmatched(NameMap(base).value, v.items[..n])
            && forall i :: 0 <= i < |base| ==> out[i].JObject? && ChildName(out[i]) == ChildName(base[i])
  {
    NameMapIndexes(base);
    MergeChildrenKeep(base, NameMap(base).value, v, n);
  }

  lemma {:induction false} MergeChildrenKeep(base: seq<Json>, names: map<Json, nat>, v: Json, n: nat)
    requires v.JArray? && n <= |v.items| && NamesIndex(names, base)
    requires MergeChildren(base, names, v, n).Success?
    ensures var out := MergeChildren(base, names, v, n).value;
            && out[|base|..] == Unmatched(names, v.items[..n])
            && forall i :: 0 <= i < |base| ==> out[i].JObject? && ChildName(out[i]) == ChildName(base[i])
    decreases n
  {
    if n > 0 {
      MergeChildrenStep(base, names, v, n);
      MergeChildrenKeep(base, names, v, n - 1);
      var cur := MergeChildren(base, names, v, n - 1).value;
      MergeChildKeeps(base, names, cur, v.items[n - 1]);
      UnmatchedPrefix(names, v.items, n);
    }
  }

  /** The first `n` incoming children merged: the first `n - 1`, then the
      `n`-th. */
  lemma MergeChildrenStep(base: seq<Json>, names: map<Json, nat>, v: Json, n: nat)
    requires v.JArray? && 0 < n <= |v.items|
    requires forall name :: name in names ==> names[name] < |base|
    requires MergeChildren(base, names, v, n).Success?
    ensures MergeChildren(base, names, v, n - 1).Success?
    ensures MergeChildren(base, names, v, n)
         == MergeChild(MergeChildren(base, names, v, n - 1).value, names, v.items[n - 1])
  {
  }

  lemma UnmatchedPrefix(names: map<Json, nat>, incs: seq<Json>, n: nat)
    requires 0 < n <= |incs|
    ensures Unmatched(names, incs[..n])
         == Unmatched(names, incs[..n - 1])
          + (if Truthy(ChildName(incs[n - 1])) && ChildName(incs[n - 1]) in names then [] else [incs[n - 1]])
  {
    assert incs[..n][..n - 1] == incs[..n - 1];
  }

  /** One incoming child either merges into the base child with its name
      or is appended. */
  lemma MergeChildKeeps(base: seq<Json>, names: map<Json, nat>, cur: seq<Json>, inc: Json)
    requires NamesIndex(names, base) && |base| <= |cur|
    requires forall i :: 0 <= i < |base| ==> cur[i].JObject? && ChildName(cur[i]) == ChildName(base[i])
    requires MergeChild(cur, names, inc).Success?
    ensures var out := MergeChild(cur, names, inc).value;
            && out[|base|..] == cur[|base|..] + (if Truthy(ChildName(inc)) && ChildName(inc) in names then [] else [inc])
            && forall i :: 0 <= i < |base| ==> out[i].JObject? && ChildName(out[i]) == ChildName(base[i])
  {
    var name := ChildName(inc);
    if Truthy(name) && name in names {
      var k := names[name];
      assert ChildName(cur[k]) == name;
      MergeChildMerges(cur, names, inc);
      MergedKeepsName(cur[k], inc);
      UpdateKeepsNames(base, cur, k, Merged(cur[k], inc).value, MergeChild(cur, names, inc).value);
    } else {
      MergeChildAppends(cur, names, inc);
      SliceAppend(cur, inc, |base|);
    }
  }

  /** A dict child whose name no base child carries is appended. */
  lemma MergeChildAppends(sections: seq<Json>, names: map<Json, nat>, inc: Json)
    requires forall name :: name in names ==> names[name] < |sections|
    requires MergeChild(sections, names, inc).Success?
    requires !(Truthy(ChildName(inc)) && ChildName(inc) in names)
    ensures MergeChild(sections, names, inc) == Success(sections + [inc])
  {
  }

  lemma SliceAppend<T>(s: seq<T>, x: T, k: nat)
    requires k <= |s|
    ensures (s + [x])[k..] == s[k..] + [x]
    ensures forall i :: 0 <= i < k ==> (s + [x])[i] == s[i]
  {
  }

  /** A dict child whose name some base child carries is merged into it. */
  lemma MergeChildMerges(sections: seq<Json>, names: map<Json, nat>, inc: Json)
    requires forall name :: name in names ==> names[name] < |sections|
    requires MergeChild(sections, names, inc).Success?
    requires Truthy(ChildName(inc)) && ChildName(inc) in names
    ensures Merged(sections[names[ChildName(inc)]], inc).Success?
    ensures MergeChild(sections, names, inc)
         == Success(sections[names[ChildName(inc)] := Merged(sections[names[ChildName(inc)]], inc).value])
  {
  }

  /** Merging into a named dict child keeps it a dict with that name. */
  lemma MergedKeepsName(b: Json, inc: Json)
    requires b.JObject? && Truthy(ChildName(b)) && Truthy(ChildName(inc))
    requires Merged(b, inc).Success?
    ensures Merged(b, inc).value.JObject? && ChildName(Merged(b, inc).value) == ChildName(b)
  {
    assert b.members != [] && inc.members != [];
    MergedKeepsKeys(b, inc);
    assert Get(Merged(b, inc).value.members, "name") == Get(b.members, "name");
  }

  /** Replacing one child of the kept front by a dict with its name keeps
      the front's names and leaves the appended back alone. */
  lemma UpdateKeepsNames(base: seq<Json>, cur: seq<Json>, k: nat, x: Json, out: seq<Json>)
    requires |base| <= |cur| && k < |base| && out == cur[k := x]
    requires forall i :: 0 <= i < |base| ==> cur[i].JObject? && ChildName(cur[i]) == ChildName(base[i])
    requires x.JObject? && ChildName(x) == ChildName(cur[k])
    ensures out[|base|..] == cur[|base|..] + []
    ensures forall i :: 0 <= i < |base| ==> out[i].JObject? && ChildName(out[i]) == ChildName(base[i])
  {
  }

  /** Fields in a tree: the entries of each `fields` list, whatever
      iterating it visits, through every list of child sections. */
  function FieldCount(j: Json): nat
    decreases j, 1, 0
  {
    match j
    case JObject(ms) => OwnFieldCount(ms) + SectionsFieldCount(ms)
    case _ => 0
  }

  function SectionsFieldCount(ms: seq<Member>): nat
    decreases ms, 0, 1
  {
    match Get(ms, "sections")
    case Some(JArray(items)) => ChildFieldCount(items)
    case _ => 0
  }

  function OwnFieldCount(ms: seq<Member>): nat
  {
    match Get(ms, "fields")
    case None => 0
    case Some(f) => (match Iterate(f) case None => 0 case Some(fs) => |fs|)
  }

  function ChildFieldCount(items: seq<Json>): nat
    decreases items, 0, 0
  {
    if items == [] then 0 else ChildFieldCount(items[..|items| - 1]) + FieldCount(items[|items| - 1])
  }

  lemma ChildFieldCountPrefix(items: seq<Json>, n: nat)
    requires 0 < n <= |items|
    ensures ChildFieldCount(items[..n]) == ChildFieldCount(items[..n - 1]) + FieldCount(items[n - 1])
  {
    assert items[..n][..n - 1] == items[..n - 1];
  }

  lemma {:induction false} ChildFieldCountAppend(items: seq<Json>, j: Json)
    ensures ChildFieldCount(items + [j]) == ChildFieldCount(items) + FieldCount(j)
  {
    assert (items + [j])[..|items|] == items;
  }

  lemma {:induction false} ChildFieldCountUpdate(items: seq<Json>, k: nat, j: Json)
    requires k < |items|
    ensures ChildFieldCount(items[k := j]) + FieldCount(items[k]) == ChildFieldCount(items) + FieldCount(j)
  {
    var n := |items| - 1;
    if k < n {
      ChildFieldCountUpdate(items[..n], k, j);
      assert items[k := j][..n] == items[..n][k := j];
    } else {
      assert items[k := j][..n] == items[..n];
    }
  }

  /** A falsy value contributes no fields when iterated. */
  lemma FalsyOwnFields(ms: seq<Member>)
    requires !Truthy(GetOr(ms, "fields", JArray([])))
    ensures OwnFieldCount(ms) == 0
  {
    var f := Get(ms, "fields");
    if f.Some? && Iterate(f.value).Some? {
      IterateTruthy(f.value);
    }
  }

  /** Fields are appended, never dropped or deduplicated: the merged tree
      holds the base's fields plus the incoming ones. */
  lemma MergedCount(base: Json, incoming: Json)
    requires Merged(base, incoming).Success?
    ensures FieldCount(Merged(base, incoming).value) == FieldCount(base) + FieldCount(incoming)
    decreases incoming, 2, 0
  {
    if !Truthy(incoming) || !incoming.JObject? || !Truthy(base) {
      if incoming.JObject? && !Truthy(incoming) {
        assert incoming.members == [];
      }
      if base.JObject? && !Truthy(base) {
        assert base.members == [];
      }
    } else {
      var ms := base.members;
      var ims := incoming.members;
      var ms1 := MergedSections(ms, incoming).value;
      MergedSectionsCount(ms, incoming);
      MergedFieldsCount(ms, ms1, ims);
    }
  }

  /** The child-sections step adds the incoming children's fields and
      leaves the own `fields` entry alone. */
  lemma MergedSectionsCount(ms: seq<Member>, incoming: Json)
    requires incoming.JObject? && MergedSections(ms, incoming).Success?
    ensures Get(MergedSections(ms, incoming).value, "fields") == Get(ms, "fields")
    ensures SectionsFieldCount(MergedSections(ms, incoming).value)
         == SectionsFieldCount(ms) + SectionsFieldCount(incoming.members)
    decreases incoming, 1, |incoming.members| + 1
  {
    var incs := Get(incoming.members, "sections");
    if incs.Some? && Truthy(incs.value) {
      var bs := GetOr(ms, "sections", JArray([]));
      var names := NameMap(bs.items).value;
      var items := MergeChildren(bs.items, names, incs.value, |incs.value.items|).value;
      MergeChildrenCount(bs.items, names, incs.value, |incs.value.items|);
      assert incs.value.items[..|incs.value.items|] == incs.value.items;
      GetSet(ms, "sections", JArray(items), "fields");
    } else if incs.Some? && incs.value.JArray? {
      assert incs.value.items == [];
    }
  }

  /** The fields step of a merge, once the children are merged into `ms1`. */
  lemma MergedFieldsCount(ms: seq<Member>, ms1: seq<Member>, ims: seq<Member>)
    requires Get(ms1, "fields") == Get(ms, "fields")
    requires AppendedFields(ms1, GetOr(ims, "fields", JArray([]))).Success?
    ensures FieldCount(AppendedFields(ms1, GetOr(ims, "fields", JArray([]))).value)
         == OwnFieldCount(ms) + OwnFieldCount(ims) + FieldCount(JObject(ms1)) - OwnFieldCount(ms1)
  {
    var inf := GetOr(ims, "fields", JArray([]));
    if !Truthy(inf) {
      FalsyOwnFields(ims);
    } else {
      var xs := Iterate(inf).value;
      var fields := GetOr(ms1, "fields", JArray([]));
      GetSet(ms1, "fields", JArray(fields.items + xs), "sections");
    }
  }

  lemma {:induction false} MergeChildrenCount(base: seq<Json>, names: map<Json, nat>, v: Json, n: nat)
    requires v.JArray? && n <= |v.items|
    requires forall name :: name in names ==> names[name] < |base|
    requires MergeChildren(base, names, v, n).Success?
    ensures ChildFieldCount(MergeChildren(base, names, v, n).value) == ChildFieldCount(base) + ChildFieldCount(v.items[..n])
    decreases v, 1, n
  {
    if n > 0 {
      MergeChildrenStep(base, names, v, n);
      MergeChildrenCount(base, names, v, n - 1);
      MergeChildCount(MergeChildren(base, names, v, n - 1).value, names, v.items[n - 1]);
      ChildFieldCountPrefix(v.items, n);
    }
  }

  lemma MergeChildCount(sections: seq<Json>, names: map<Json, nat>, inc: Json)
    requires forall name :: name in names ==> names[name] < |sections|
    requires MergeChild(sections, names, inc).Success?
    ensures ChildFieldCount(MergeChild(sections, names, inc).value) == ChildFieldCount(sections) + FieldCount(inc)
    decreases inc, 2, 1
  {
    var name := NameOf(inc.members);
    if Truthy(name) && name in names {
      var k := names[name];
      MergedCount(sections[k], inc);
      ChildFieldCountUpdate(sections, k, Merged(sections[k], inc).value);
    } else {
      ChildFieldCountAppend(sections, inc);
    }
  }

  // ---------------------------------------------------------------------
  // _regenerate_field_ids
  // ---------------------------------------------------------------------

  /** The ids of the dict entries of a `fields` list, in order. */
  function FieldIds(fs: seq<Json>): seq<Json>
  {
    if fs == [] then [] else FieldId(fs[0]) + FieldIds(fs[1..])
  }

  /** The id of a dict field; nothing for any other entry. */
  function FieldId(f: Json): seq<Json>
  {
    match f
    case JObject(fm) => [GetOr(fm, "id", JNull)]
    case _ => []
  }

  /** The ids of the dict fields of a section tree in pre-order: a
      section's own fields, then each child section's. */
  function Ids(section: Json): seq<Json>
    decreases section, 1
  {
    match section
    case JObject(ms) => OwnIds(ms) + SubIds(section)
    case _ => []
  }

  /** The ids in a section's child sections. */
  function SubIds(section: Json): seq<Json>
    requires section.JObject?
    decreases section, 0
  {
    match Get(section.members, "sections")
    case Some(JArray(items)) => ChildIds(items)
    case _ => []
  }

  /** The ids of a section's own dict fields. */
  function OwnIds(ms: seq<Member>): seq<Json>
  {
    match Get(ms, "fields")
    case None => []
    case Some(f) => (match Iterate(f) case None => [] case Some(fs) => FieldIds(fs))
  }

  function ChildIds(items: seq<Json>): seq<Json>
    decreases items, 0
  {
    if items == [] then [] else ChildIds(items[..|items| - 1]) + Ids(items[|items| - 1])
  }

  /** `field["id"] = counter[0]` on a dict entry; other entries are skipped. */
  function NumberedField(f: Json, id: int): Json
  {
    match f
    case JObject(fm) => JObject(Set(fm, "id", JInt(id)))
    case _ => f
  }

  /** A `fields` list after its dict entries got the ids `next`, `next + 1`,
      and so on. */
  function NumberedFields(fs: seq<Json>, next: int): (r: seq<Json>)
    ensures |r| == |fs|
  {
    if fs == [] then []
    else [NumberedField(fs[0], next)] + NumberedFields(fs[1..], next + |FieldId(fs[0])|)
  }

  /** A renumbered section and the counter after it. */
  datatype Numbered = Numbered(section: Json, next: int)

  /** Renumbered child sections and the counter after them. */
  datatype NumberedList = NumberedList(items: seq<Json>, next: int)

  /** `_regenerate_field_ids(section, [next])`: the section with its fields'
      ids rewritten, and the counter's final value, which has advanced by
      exactly the number of dict fields in the tree. */
  function Renumbered(section: Json, next: int): (r: Result<Numbered, string>)
    ensures r.Success? ==> r.value.next == next + |Ids(section)|
    decreases section, 2, 0
  {
    match section
    case JObject(ms) =>
      (match NumberedOwn(ms, next)
       case Failure(e) => Failure(e)
       case Success(ms1) => NumberedRest(section, ms1, next + |OwnIds(ms)|))
    case _ => Failure("AttributeError: a section is not a dict")
  }

  /** The loop over a section's own fields: a `fields` list gets its dict
      entries renumbered from `next` on; an iterable that is not a list (a
      dict or a string) holds no dict to renumber. */
  function NumberedOwn(ms: seq<Member>, next: int): Result<seq<Member>, string>
  {
    match Get(ms, "fields")
    case None => Success(ms)
    case Some(f) =>
      if f.JArray? then Success(Set(ms, "fields", JArray(NumberedFields(f.items, next))))
      else if Iterate(f).None? then Failure("TypeError: fields is not iterable")
      else Success(ms)
  }

  /** The loop over the child sections, once the own fields are done. */
  function NumberedRest(section: Json, ms1: seq<Member>, next: int): (r: Result<Numbered, string>)
    requires section.JObject?
    ensures r.Success? ==> r.value.next == next + |Ids(section)| - |OwnIds(section.members)|
    decreases section, 1, 0
  {
    match Get(section.members, "sections")
    case None => Success(Numbered(JObject(ms1), next))
    case Some(v) =>
      if v.JArray? then
        match RenumberedChildren(v, next, |v.items|)
        case Failure(e) => Failure(e)
        case Success(c) =>
          assert v.items[..|v.items|] == v.items;
          Success(Numbered(JObject(Set(ms1, "sections", JArray(c.items))), c.next))
      else if Iterate(v).None? then Failure("TypeError: sections is not iterable")
      else Success(Numbered(JObject(ms1), next))
  }

  /** The first `n` children of `v` renumbered from `next` on. */
  function RenumberedChildren(v: Json, next: int, n: nat): (r: Result<NumberedList, string>)
    requires v.JArray? && n <= |v.items|
    ensures r.Success? ==> |r.value.items| == n && r.value.next == next + |ChildIds(v.items[..n])|
    decreases v, 1, n
  {
    if n == 0 then Success(NumberedList([], next))
    else
      var front := RenumberedChildren(v, next, n - 1);
      if front.Failure? then front
      else
        assert v.items[..n][..n - 1] == v.items[..n - 1];
        RenumberedChild(front.value, v.items[n - 1])
  }

  /** One child section: a dict is renumbered from the counter, anything
      else is skipped. */
  function RenumberedChild(front: NumberedList, child: Json): (r: Result<NumberedList, string>)
    ensures r.Success? ==> |r.value.items| == |front.items| + 1 && r.value.next == front.next + |Ids(child)|
    decreases child, 2, 1
  {
    if child.JObject? then
      match Renumbered(child, front.next)
      case Failure(e) => Failure(e)
      case Success(c) => Success(NumberedList(front.items + [c.section], c.next))
    else Success(NumberedList(front.items + [child], front.next))
  }

  /** `_regenerate_field_ids(section, counter)`: rewrites the ids and
      advances `counter[0]`. */
  method RegenerateFieldIds(section: Json, counter: array<int>) returns (r: Result<Json, string>)
    requires counter.Length == 1
    modifies counter
    ensures match Renumbered(section, old(counter[0]))
            case Success(n) => r == Success(n.section) && counter[0] == n.next
            case Failure(e) => r == Failure(e)
    decreases section, 2
  {
    if !section.JObject? {
      return Failure("AttributeError: a section is not a dict");
    }
    ghost var start := counter[0];
    var ms1 := RenumberOwnFields(section.members, counter);
    if ms1.Failure? {
      return Failure(ms1.error);
    }
    assert Renumbered(section, start) == NumberedRest(section, ms1.value, counter[0]);
    r := RenumberChildren(section, ms1.value, counter);
  }

  /** The own fields of `_regenerate_field_ids`. */
  method RenumberOwnFields(ms: seq<Member>, counter: array<int>) returns (r: Result<seq<Member>, string>)
    requires counter.Length == 1
    modifies counter
    ensures r == NumberedOwn(ms, old(counter[0]))
    ensures r.Success? ==> counter[0] == old(counter[0]) + |OwnIds(ms)|
  {
    var fields := Get(ms, "fields");
    if fields.None? {
      return Success(ms);
    }
    var visited := Iterate(fields.value);
    if visited.None? {
      return Failure("TypeError: fields is not iterable");
    }
    var out := RenumberFields(visited.value, counter);
    if fields.value.JArray? {
      r := Success(Set(ms, "fields", JArray(out)));
    } else {
      r := Success(ms);
    }
  }

  /** The child sections of `_regenerate_field_ids`, once the own fields
      are done. */
  method RenumberChildren(section: Json, ms1: seq<Member>, counter: array<int>) returns (r: Result<Json, string>)
    requires section.JObject? && counter.Length == 1
    modifies counter
    ensures match NumberedRest(section, ms1, old(counter[0]))
            case Success(n) => r == Success(n.section) && counter[0] == n.next
            case Failure(e) => r == Failure(e)
    decreases section, 1
  {
    var children := Get(section.members, "sections");
    if children.None? {
      return Success(JObject(ms1));
    }
    var v := children.value;
    if v.JArray? {
      var items := RenumberChildSections(v, counter);
      if items.Failure? {
        return Failure(items.error);
      }
      r := Success(JObject(Set(ms1, "sections", JArray(items.value))));
    } else if Iterate(v).None? {
      r := Failure("TypeError: sections is not iterable");
    } else {
      r := Success(JObject(ms1));
    }
  }

  /** One step of the loop over the fields: the entry at `i` takes the
      counter `next`, and the rest are numbered from after it. */
  lemma NumberedFieldsFrom(fs: seq<Json>, i: nat, next: int, done: seq<Json>, start: int, x: Json, next': int)
    requires i < |fs|
    requires done + NumberedFields(fs[i..], next) == NumberedFields(fs, start)
    requires next + |FieldIds(fs[i..])| == start + |FieldIds(fs)|
    requires x == NumberedField(fs[i], next) && next' == next + |FieldId(fs[i])|
    ensures (done + [x]) + NumberedFields(fs[i + 1..], next') == NumberedFields(fs, start)
    ensures next' + |FieldIds(fs[i + 1..])| == start + |FieldIds(fs)|
  {
    var rest := NumberedFields(fs[i + 1..], next');
    assert fs[i..][0] == fs[i] && fs[i..][1..] == fs[i + 1..];
    assert NumberedFields(fs[i..], next) == [x] + rest;
    assert (done + [x]) + rest == done + ([x] + rest);
  }

  /** The loop over the fields of `_regenerate_field_ids`. */
  method RenumberFields(own: seq<Json>, counter: array<int>) returns (out: seq<Json>)
    requires counter.Length == 1
    modifies counter
    ensures out == NumberedFields(own, old(counter[0]))
    ensures counter[0] == old(counter[0]) + |FieldIds(own)|
  {
    var next := counter[0];
    ghost var start := next;
    out := [];
    var i := 0;
    while i < |own|
      invariant 0 <= i <= |own|
      invariant out + NumberedFields(own[i..], next) == NumberedFields(own, start)
      invariant next + |FieldIds(own[i..])| == start + |FieldIds(own)|
    {
      var field := own[i];
      var after := next;
      if field.JObject? {
        field := JObject(Set(field.members, "id", JInt(next)));
        after := next + 1;
      }
      NumberedFieldsFrom(own, i, next, out, start, field, after);
      out := out + [field];
      next := after;
      i := i + 1;
    }
    assert own[|own|..] == [];
    counter[0] := next;
  }

  /** The loop over the child sections of `_regenerate_field_ids`. */
  method RenumberChildSections(v: Json, counter: array<int>) returns (r: Result<seq<Json>, string>)
    requires v.JArray? && counter.Length == 1
    modifies counter
    ensures match RenumberedChildren(v, old(counter[0]), |v.items|)
            case Success(c) => r == Success(c.items) && counter[0] == c.next
            case Failure(e) => r == Failure(e)
    decreases v, 1
  {
    ghost var start := counter[0];
    var items := v.items;
    var out: seq<Json> := [];
    var i := 0;
    while i < |items|
      invariant 0 <= i <= |items|
      invariant RenumberedChildren(v, start, i) == Success(NumberedList(out, counter[0]))
    {
      var child := items[i];
      assert child in v.items;
      ghost var step := RenumberedChild(NumberedList(out, counter[0]), child);
      assert RenumberedChildren(v, start, i + 1) == step;
      if child.JObject? {
        var renumbered := RegenerateFieldIds(child, counter);
        if renumbered.Failure? {
          RenumberedChildrenFails(v, start, i + 1);
          return Failure(renumbered.error);
        }
        child := renumbered.value;
      }
      out := out + [child];
      assert step == Success(NumberedList(out, counter[0]));
      i := i + 1;
    }
    r := Success(out);
  }

  // ---------------------------------------------------------------------
  // Properties of the renumbering
  // ---------------------------------------------------------------------

  /** The ids `next`, `next + 1`, ..., `next + k - 1`. */
  function IdsFrom(next: int, k: nat): (r: seq<Json>)
    ensures |r| == k
    decreases k
  {
    if k == 0 then [] else [JInt(next)] + IdsFrom(next + 1, k - 1)
  }

  /** Numbering `a` ids and then `b` more continues where the first run
      stopped. */
  lemma {:induction false} IdsFromConcat(next: int, a: nat, b: nat)
    ensures IdsFrom(next, a + b) == IdsFrom(next, a) + IdsFrom(next + a, b)
    decreases a
  {
    if a > 0 {
      IdsFromConcat(next + 1, a - 1, b);
    }
  }

  /** The id at position `i` is `next + i`. */
  lemma {:induction false} IdsFromAt(next: int, k: nat, i: nat)
    requires i < k
    ensures IdsFrom(next, k)[i] == JInt(next + i)
    decreases i
  {
    if i > 0 {
      IdsFromAt(next + 1, k - 1, i - 1);
    }
  }

  /** What iterating a dict or a string visits holds no dict. */
  lemma {:induction false} FieldIdsOfNonDicts(fs: seq<Json>)
    requires forall i :: 0 <= i < |fs| ==> !fs[i].JObject?
    ensures FieldIds(fs) == []
  {
    if fs != [] {
      FieldIdsOfNonDicts(fs[1..]);
    }
  }

  /** The renumbered `fields` list carries the ids `next` onwards, one per
      dict entry, in order. */
  lemma {:induction false} NumberedFieldIds(fs: seq<Json>, next: int)
    ensures FieldIds(NumberedFields(fs, next)) == IdsFrom(next, |FieldIds(fs)|)
  {
    if fs != [] {
      var k := |FieldId(fs[0])|;
      var rest := NumberedFields(fs[1..], next + k);
      var x := NumberedField(fs[0], next);
      var r := NumberedFields(fs, next);
      assert r == [x] + rest;
      assert r[0] == x && r[1..] == rest;
      assert FieldIds(r) == FieldId(x) + FieldIds(rest);
      var l := |FieldIds(fs[1..])|;
      assert |FieldIds(fs)| == k + l;
      NumberedFieldIdOf(fs[0], next);
      NumberedFieldIds(fs[1..], next + k);
      IdsFromConcat(next, k, l);
    }
  }

  /** A renumbered entry keeps its place among the ids: a dict gets the id,
      anything else has none. */
  lemma NumberedFieldIdOf(f: Json, id: int)
    ensures FieldId(NumberedField(f, id)) == IdsFrom(id, |FieldId(f)|)
  {
    if f.JObject? {
      NumberedFieldId(f, id);
      assert IdsFrom(id, 1) == [JInt(id)];
    }
  }

  /** Renumbering a dict field gives it the id. */
  lemma NumberedFieldId(f: Json, id: int)
    requires f.JObject?
    ensures FieldId(NumberedField(f, id)) == [JInt(id)]
  {
    GetSet(f.members, "id", JInt(id), "id");
  }

  /** After `_regenerate_field_ids(section, [next])` the field ids of the
      tree are `next`, `next + 1`, ... in pre-order, a section's own fields
      before its child sections, as many as the tree had dict fields. */
  lemma RenumberedIds(section: Json, next: int)
    requires Renumbered(section, next).Success?
    ensures Ids(Renumbered(section, next).value.section) == IdsFrom(next, |Ids(section)|)
    decreases section, 2, 0
  {
    var ms := section.members;
    assert NumberedOwn(ms, next).Success?;
    var ms1 := NumberedOwn(ms, next).value;
    var k := |OwnIds(ms)|;
    var rest := NumberedRest(section, ms1, next + k);
    assert Renumbered(section, next) == rest;
    NumberedOwnIds(ms, next);
    NumberedRestIds(section, ms1, next + k);
    IdsJoined(section, rest.value.section, next, k);
  }

  /** A section whose own ids run from `next` and whose child ids carry on
      from there is numbered from `next` throughout. */
  lemma IdsJoined(section: Json, out: Json, next: int, k: nat)
    requires section.JObject? && out.JObject?
    requires |OwnIds(section.members)| == k
    requires OwnIds(out.members) == IdsFrom(next, k)
    requires SubIds(out) == IdsFrom(next + k, |SubIds(section)|)
    ensures Ids(out) == IdsFrom(next, |Ids(section)|)
  {
    var l := |SubIds(section)|;
    assert Ids(out) == IdsFrom(next, k) + IdsFrom(next + k, l);
    assert |Ids(section)| == k + l;
    IdsFromConcat(next, k, l);
  }

  lemma NumberedOwnIds(ms: seq<Member>, next: int)
    requires NumberedOwn(ms, next).Success?
    ensures OwnIds(NumberedOwn(ms, next).value) == IdsFrom(next, |OwnIds(ms)|)
    ensures Get(NumberedOwn(ms, next).value, "sections") == Get(ms, "sections")
  {
    var f := Get(ms, "fields");
    if f.Some? {
      if f.value.JArray? {
        var out := JArray(NumberedFields(f.value.items, next));
        GetSet(ms, "fields", out, "sections");
        var ms1 := Set(ms, "fields", out);
        assert NumberedOwn(ms, next).value == ms1;
        assert OwnIds(ms1) == FieldIds(out.items);
        assert OwnIds(ms) == FieldIds(f.value.items);
        NumberedFieldIds(f.value.items, next);
      } else {
        FieldIdsOfNonDicts(Iterate(f.value).value);
        assert OwnIds(ms) == [];
      }
    } else {
      assert OwnIds(ms) == [];
    }
  }

  lemma NumberedRestIds(section: Json, ms1: seq<Member>, next: int)
    requires section.JObject? && NumberedRest(section, ms1, next).Success?
    requires Get(ms1, "sections") == Get(section.members, "sections")
    ensures NumberedRest(section, ms1, next).value.section.JObject?
    ensures OwnIds(NumberedRest(section, ms1, next).value.section.members) == OwnIds(ms1)
    ensures SubIds(NumberedRest(section, ms1, next).value.section) == IdsFrom(next, |SubIds(section)|)
    decreases section, 1, 0
  {
    var v := Get(section.members, "sections");
    if v.Some? && v.value.JArray? {
      var items := v.value.items;
      var c := RenumberedChildren(v.value, next, |items|).value;
      assert items[..|items|] == items;
      RenumberedChildrenIds(v.value, next, |items|);
      GetSet(ms1, "sections", JArray(c.items), "fields");
      GetSet(ms1, "sections", JArray(c.items), "sections");
    }
  }

  lemma {:induction false} RenumberedChildrenIds(v: Json, next: int, n: nat)
    requires v.JArray? && n <= |v.items|
    requires RenumberedChildren(v, next, n).Success?
    ensures ChildIds(RenumberedChildren(v, next, n).value.items) == IdsFrom(next, |ChildIds(v.items[..n])|)
    decreases v, 1, n
  {
    if n > 0 {
      var a := |ChildIds(v.items[..n - 1])|;
      var b := |Ids(v.items[n - 1])|;
      var cur := RenumberedChildren(v, next, n).value;
      assert ChildIds(cur.items) == IdsFrom(next, a) + IdsFrom(next + a, b) by {
        RenumberedChildrenIds(v, next, n - 1);
        RenumberedChildrenStep(v, next, n);
      }
      assert |ChildIds(v.items[..n])| == a + b by {
        ChildIdsPrefix(v.items, n);
      }
      IdsFromConcat(next, a, b);
    } else {
      assert ChildIds(v.items[..n]) == [];
    }
  }

  /** The `n`-th child is renumbered from where the first `n - 1` left the
      counter. */
  lemma RenumberedChildrenStep(v: Json, next: int, n: nat)
    requires v.JArray? && 0 < n <= |v.items|
    requires RenumberedChildren(v, next, n).Success?
    ensures RenumberedChildren(v, next, n - 1).Success?
    ensures |RenumberedChildren(v, next, n - 1).value.items| == n - 1
    ensures |RenumberedChildren(v, next, n).value.items| == n
    ensures RenumberedChildren(v, next, n - 1).value.next == next + |ChildIds(v.items[..n - 1])|
    ensures ChildIds(RenumberedChildren(v, next, n).value.items) ==
      ChildIds(RenumberedChildren(v, next, n - 1).value.items) +
      IdsFrom(RenumberedChildren(v, next, n - 1).value.next, |Ids(v.items[n - 1])|)
    decreases v, 1, n - 1
  {
    var prev := RenumberedChildren(v, next, n - 1).value;
    RenumberedChildIds(prev, v.items[n - 1]);
  }

  lemma ChildIdsPrefix(items: seq<Json>, n: nat)
    requires 0 < n <= |items|
    ensures ChildIds(items[..n]) == ChildIds(items[..n - 1]) + Ids(items[n - 1])
  {
    assert items[..n][..n - 1] == items[..n - 1];
  }

  lemma RenumberedChildIds(front: NumberedList, child: Json)
    requires RenumberedChild(front, child).Success?
    ensures var items := RenumberedChild(front, child).value.items;
            && items[..|front.items|] == front.items
            && ChildIds(items) == ChildIds(front.items) + IdsFrom(front.next, |Ids(child)|)
    decreases child, 2, 1
  {
    var items := RenumberedChild(front, child).value.items;
    assert items[..|front.items|] == front.items;
    if child.JObject? {
      RenumberedIds(child, front.next);
    } else {
      assert Ids(child) == [];
    }
  }

  // ---------------------------------------------------------------------
  // merge_section_responses
  // ---------------------------------------------------------------------

  /** The responses merged left to right onto the first one. */
  function Folded(responses: seq<Json>): Result<Json, string>
    requires responses != []
  {
    if |responses| == 1 then Success(responses[0])
    else
      var n := |responses| - 1;
      match Folded(responses[..n])
      case Failure(e) => Failure(e)
      case Success(merged) => Merged(merged, responses[n])
  }

  /** `merge_section_responses`: `{}` for no responses; otherwise the
      merged tree with its field ids renumbered from 1. A single response is
      only renumbered. */
  function MergedResponses(responses: seq<Json>): Result<Json, string>
  {
    if responses == [] then Success(JObject([]))
    else
      match Folded(responses)
      case Failure(e) => Failure(e)
      case Success(merged) =>
        (match Renumbered(merged, 1) case Failure(e) => Failure(e) case Success(n) => Success(n.section))
  }

  /** The fields of all responses together. */
  function TotalFieldCount(responses: seq<Json>): nat
  {
    if responses == [] then 0
    else TotalFieldCount(responses[..|responses| - 1]) + FieldCount(responses[|responses| - 1])
  }

  /** Merging the responses keeps every field of every response. */
  lemma {:induction false} FoldedCount(responses: seq<Json>)
    requires responses != [] && Folded(responses).Success?
    ensures FieldCount(Folded(responses).value) == TotalFieldCount(responses)
  {
    var n := |responses| - 1;
    if n == 0 {
      assert responses[..n] == [];
    } else {
      FoldedCount(responses[..n]);
      MergedCount(Folded(responses[..n]).value, responses[n]);
    }
  }

  /** The merged tree's field ids are 1, 2, ... in pre-order, one per dict
      field of the tree before renumbering. */
  lemma MergedResponsesIds(responses: seq<Json>)
    requires responses != [] && MergedResponses(responses).Success?
    ensures |Ids(MergedResponses(responses).value)| == |Ids(Folded(responses).value)|
    ensures var ids := Ids(MergedResponses(responses).value);
            forall i :: 0 <= i < |ids| ==> ids[i] == JInt(i + 1)
  {
    RenumberedIds(Folded(responses).value, 1);
    var ids := Ids(MergedResponses(responses).value);
    forall i | 0 <= i < |ids| ensures ids[i] == JInt(i + 1) {
      IdsFromAt(1, |ids|, i);
    }
  }

  method MergeSectionResponses(responses: seq<Json>) returns (r: Result<Json, string>)
    ensures r == MergedResponses(responses)
  {
    if responses == [] {
      return Success(JObject([]));
    }
    var counter := new int[1];
    counter[0] := 1;
    if |responses| == 1 {
      r := RegenerateFieldIds(responses[0], counter);
      return;
    }
    var merged := DeepCopy(responses[0]);
    assert Folded(responses[..1]) == Success(merged);
    var i := 1;
    while i < |responses|
      invariant 1 <= i <= |responses|
      invariant Folded(responses[..i]) == Success(merged)
      invariant counter[0] == 1
    {
      FoldedStep(responses, i);
      var next := MergeSections(merged, responses[i]);
      if next.Failure? {
        FoldedFails(responses, i + 1);
        return Failure(next.error);
      }
      merged := next.value;
      i := i + 1;
    }
    assert responses[..i] == responses;
    r := RegenerateFieldIds(merged, counter);
  }

  // ---------------------------------------------------------------------
  // An exception ends a loop: the first failure is the result
  // ---------------------------------------------------------------------

  lemma FoldedStep(responses: seq<Json>, i: nat)
    requires 1 <= i < |responses| && Folded(responses[..i]).Success?
    ensures Folded(responses[..i + 1]) == Merged(Folded(responses[..i]).value, responses[i])
  {
    assert responses[..i + 1][..i] == responses[..i];
  }

  lemma {:induction false} FoldedFails(responses: seq<Json>, k: nat)
    requires 1 <= k <= |responses|
    requires Folded(responses[..k]).Failure?
    ensures Folded(responses) == Folded(responses[..k])
    decreases |responses| - k
  {
    if k < |responses| {
      assert responses[..k + 1][..k] == responses[..k];
      FoldedFails(responses, k + 1);
    } else {
      assert responses[..k] == responses;
    }
  }

  lemma {:induction false} NameMapFails(items: seq<Json>, k: nat)
    requires k <= |items|
    requires NameMap(items[..k]).Failure?
    ensures NameMap(items) == NameMap(items[..k])
    decreases |items| - k
  {
    if k < |items| {
      assert items[..k + 1][..k] == items[..k];
      NameMapFails(items, k + 1);
    } else {
      assert items[..k] == items;
    }
  }

  lemma {:induction false} MergeChildrenFails(base: seq<Json>, names: map<Json, nat>, v: Json, k: nat)
    requires v.JArray? && k <= |v.items|
    requires forall name :: name in names ==> names[name] < |base|
    requires MergeChildren(base, names, v, k).Failure?
    ensures MergeChildren(base, names, v, |v.items|) == MergeChildren(base, names, v, k)
    decreases |v.items| - k
  {
    if k < |v.items| {
      MergeChildrenFails(base, names, v, k + 1);
    }
  }

  lemma {:induction false} RenumberedChildrenFails(v: Json, next: int, k: nat)
    requires v.JArray? && k <= |v.items|
    requires RenumberedChildren(v, next, k).Failure?
    ensures RenumberedChildren(v, next, |v.items|) == RenumberedChildren(v, next, k)
    decreases |v.items| - k
  {
    if k < |v.items| {
      RenumberedChildrenFails(v, next, k + 1);
    }
  }
}
