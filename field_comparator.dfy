/** Deterministic structural comparison of a candidate inspection template
    against the reference one: flattening of the section tree, greedy
    matching of sections and of fields, and the per-field and per-section
    comparison records. */
module FieldComparator {
  import opened Wrappers
  import opened Document
  import opened Models
  import opened Similarity
  import Numeric

  // ---------------------------------------------------------------------
  // Flattening (`extract_sections`)
  // ---------------------------------------------------------------------

  /** The record the flattener emits for a section. */
  function Group(s: Section): LeafGroup
  {
    LeafGroup(s.name, s.displayType, s.fields)
  }

  /** What one call of the `collect_sections` closure appends for `s`: the
      section itself when it owns fields, then, recursively, what its child
      sections append. */
  function Leaves(s: Section): seq<LeafGroup>
  {
    (if s.fields != [] then [Group(s)] else []) + LeavesOf(s.sections)
  }

  function LeavesOf(ss: seq<Section>): seq<LeafGroup>
  {
    if ss == [] then [] else LeavesOf(ss[..|ss| - 1]) + Leaves(ss[|ss| - 1])
  }

  /** All sections of a tree in pre-order: a section before its children,
      children left to right. */
  function PreOrder(s: Section): seq<Section>
  {
    [s] + PreOrderOf(s.sections)
  }

  function PreOrderOf(ss: seq<Section>): seq<Section>
  {
    if ss == [] then [] else PreOrderOf(ss[..|ss| - 1]) + PreOrder(ss[|ss| - 1])
  }

  /** Keep the sections that own fields, as flattened groups, in order. */
  function WithFields(ss: seq<Section>): seq<LeafGroup>
  {
    if ss == [] then []
    else WithFields(ss[..|ss| - 1]) + (if ss[|ss| - 1].fields != [] then [Group(ss[|ss| - 1])] else [])
  }

  /** Every kept group owns at least one field. */
  lemma {:induction false} WithFieldsOwnFields(ss: seq<Section>)
    ensures forall i :: 0 <= i < |WithFields(ss)| ==> WithFields(ss)[i].fields != []
  {
    if ss != [] {
      WithFieldsOwnFields(ss[..|ss| - 1]);
    }
  }

  lemma {:induction false} WithFieldsConcat(a: seq<Section>, b: seq<Section>)
    ensures WithFields(a + b) == WithFields(a) + WithFields(b)
    decreases |b|
  {
    if b == [] {
      assert a + b == a;
    } else {
      assert (a + b)[..|a + b| - 1] == a + b[..|b| - 1];
      WithFieldsConcat(a, b[..|b| - 1]);
    }
  }

  /** The flattener emits exactly the sections that own at least one field,
      in pre-order; it keeps descending below an emitted section. */
  lemma {:induction false} LeavesArePreOrderWithFields(s: Section)
    ensures Leaves(s) == WithFields(PreOrder(s))
    decreases s, 1
  {
    LeavesOfArePreOrderWithFields(s.sections);
    WithFieldsConcat([s], PreOrderOf(s.sections));
    assert WithFields([s]) == WithFields([]) + (if s.fields != [] then [Group(s)] else []);
  }

  lemma {:induction false} LeavesOfArePreOrderWithFields(ss: seq<Section>)
    ensures LeavesOf(ss) == WithFields(PreOrderOf(ss))
    decreases ss, 0
  {
    if ss != [] {
      LeavesOfArePreOrderWithFields(ss[..|ss| - 1]);
      LeavesArePreOrderWithFields(ss[|ss| - 1]);
      WithFieldsConcat(PreOrderOf(ss[..|ss| - 1]), PreOrder(ss[|ss| - 1]));
    }
  }

  /** `collect_sections`: appends to the shared list `acc` the groups of
      `s` and of all its descendants. */
  method CollectSections(s: Section, acc: seq<LeafGroup>) returns (r: seq<LeafGroup>)
    ensures r == acc + Leaves(s)
    decreases s
  {
    r := acc;
    if s.fields != [] {
      r := r + [Group(s)];
    }
    ghost var own := r;
    for i := 0 to |s.sections|
      invariant r == own + LeavesOf(s.sections[..i])
    {
      r := CollectSections(s.sections[i], r);
      LeavesOfStep(s.sections, i, own);
    }
    assert s.sections[..|s.sections|] == s.sections;
  }

  /** Flattening one more child appends that child's groups. */
  lemma LeavesOfStep(ss: seq<Section>, i: nat, prefix: seq<LeafGroup>)
    requires i < |ss|
    ensures prefix + LeavesOf(ss[..i + 1]) == prefix + LeavesOf(ss[..i]) + Leaves(ss[i])
  {
    assert ss[..i + 1][..i] == ss[..i];
  }

  /** The sections the comparator reads: only the first version counts. */
  function FirstVersionLeaves(t: Template): (r: seq<LeafGroup>)
    ensures forall i :: 0 <= i < |r| ==> r[i].fields != []
  {
    if t.versions == [] then []
    else
      LeavesArePreOrderWithFields(t.versions[0].structure);
      WithFieldsOwnFields(PreOrder(t.versions[0].structure));
      Leaves(t.versions[0].structure)
  }

  /** `extract_sections`: no versions gives no sections; otherwise the
      sections of the first version's structure that own fields, in
      pre-order. */
  method ExtractSections(t: Template) returns (r: seq<LeafGroup>)
    ensures t.versions == [] ==> r == []
    ensures t.versions != [] ==> r == WithFields(PreOrder(t.versions[0].structure))
    ensures r == FirstVersionLeaves(t)
  {
    r := [];
    if t.versions == [] {
      return;
    }
    r := CollectSections(t.versions[0].structure, r);
    LeavesArePreOrderWithFields(t.versions[0].structure);
  }

  // ---------------------------------------------------------------------
  // Configuration comparison
  // ---------------------------------------------------------------------

  /** `compare_field_config`: eight equality checks and two list
      similarities. */
  function CompareFieldConfig(source: Field, model: Field): (r: ConfigComparison)
    ensures ConfigInUnit(r)
  {
    ConfigComparison(
      source.mandatory == model.mandatory,
      source.notesEnabled == model.notesEnabled,
      source.notesRequiredForAllOptions == model.notesRequiredForAllOptions,
      ListSimilarity(source.notesRequiredForSelectedOptions, model.notesRequiredForSelectedOptions),
      source.attachmentsEnabled == model.attachmentsEnabled,
      source.attachmentsRequiredForAllOptions == model.attachmentsRequiredForAllOptions,
      ListSimilarity(source.attachmentsRequiredForSelectedOptions, model.attachmentsRequiredForSelectedOptions),
      source.canCreateWorkOrder == model.canCreateWorkOrder,
      source.workOrderCategory == model.workOrderCategory,
      source.workOrderSubCategory == model.workOrderSubCategory)
  }

  function BoolCount(b: bool): nat
  {
    if b then 1 else 0
  }

  /** The number of the eight boolean checks that hold. */
  function MatchingFlags(c: ConfigComparison): (r: nat)
    ensures r <= 8
    ensures r == 8 <==> AllFlagsMatch(c)
    ensures r == 0 <==> NoFlagMatches(c)
  {
    BoolCount(c.mandatory) + BoolCount(c.notesEnabled) + BoolCount(c.notesRequiredForAllOptions)
    + BoolCount(c.attachmentsEnabled) + BoolCount(c.attachmentsRequiredForAllOptions)
    + BoolCount(c.canCreateWorkOrder) + BoolCount(c.workOrderCategory) + BoolCount(c.workOrderSubCategory)
  }

  predicate AllFlagsMatch(c: ConfigComparison)
  {
    && c.mandatory && c.notesEnabled && c.notesRequiredForAllOptions
    && c.attachmentsEnabled && c.attachmentsRequiredForAllOptions
    && c.canCreateWorkOrder && c.workOrderCategory && c.workOrderSubCategory
  }

  predicate NoFlagMatches(c: ConfigComparison)
  {
    && !c.mandatory && !c.notesEnabled && !c.notesRequiredForAllOptions
    && !c.attachmentsEnabled && !c.attachmentsRequiredForAllOptions
    && !c.canCreateWorkOrder && !c.workOrderCategory && !c.workOrderSubCategory
  }

  /** `calculate_config_score`. */
  function ConfigScore(c: ConfigComparison): real
  {
    0.7 * (MatchingFlags(c) as real / 8.0)
    + 0.3 * ((c.notesRequiredForSelectedOptions + c.attachmentsRequiredForSelectedOptions) / 2.0)
  }

  lemma ConfigScoreInUnit(c: ConfigComparison)
    requires ConfigInUnit(c)
    ensures 0.0 <= ConfigScore(c) <= 1.0
  {
  }

  /** With list similarities in [0,1], the config score is 1 exactly when
      all eight checks hold and both lists are fully similar. */
  lemma ConfigScoreOneIff(c: ConfigComparison)
    requires ConfigInUnit(c)
    ensures ConfigScore(c) == 1.0
        <==> AllFlagsMatch(c) && c.notesRequiredForSelectedOptions == 1.0 && c.attachmentsRequiredForSelectedOptions == 1.0
  {
  }

  /** Comparing a field's configuration with itself scores 1.0. */
  lemma ConfigScoreOfSelf(f: Field)
    ensures AllFlagsMatch(CompareFieldConfig(f, f))
    ensures ConfigScore(CompareFieldConfig(f, f)) == 1.0
  {
    ListSimilarityReflexive(f.notesRequiredForSelectedOptions);
    ListSimilarityReflexive(f.attachmentsRequiredForSelectedOptions);
  }

  // ---------------------------------------------------------------------
  // Greedy matching
  // ---------------------------------------------------------------------

  /** The candidate indices already taken by earlier picks. */
  function UsedBy(picks: seq<Option<nat>>): set<nat>
  {
    set i | 0 <= i < |picks| && picks[i].Some? :: picks[i].value
  }

  lemma UsedByAppend(picks: seq<Option<nat>>, p: Option<nat>)
    ensures UsedBy(picks + [p]) == UsedBy(picks) + (if p.Some? then {p.value} else {})
  {
    var q := picks + [p];
    assert forall i :: 0 <= i < |picks| ==> q[i] == picks[i];
    assert q[|picks|] == p;
  }

  /** Every pick names a candidate below `n` that no earlier pick took. */
  predicate FreshPicks(picks: seq<Option<nat>>, n: nat)
  {
    forall k :: 0 <= k < |picks| && picks[k].Some? ==>
      picks[k].value < n && picks[k].value !in UsedBy(picks[..k])
  }

  /** Appending a fresh pick keeps the earlier prefixes, and the picks
      fresh. */
  lemma FreshPicksAppend(picks: seq<Option<nat>>, p: Option<nat>, n: nat)
    requires FreshPicks(picks, n)
    requires p.Some? ==> p.value < n && p.value !in UsedBy(picks)
    ensures forall k :: 0 <= k <= |picks| ==> (picks + [p])[..k] == picks[..k]
    ensures FreshPicks(picks + [p], n)
  {
    var q := picks + [p];
    forall k | 0 <= k <= |picks|
      ensures q[..k] == picks[..k]
    {
    }
    assert q[..|picks|] == picks;
  }

  /** No candidate index is picked twice. */
  lemma FreshPicksInjective(picks: seq<Option<nat>>, n: nat)
    requires FreshPicks(picks, n)
    ensures forall a, b :: 0 <= a < b < |picks| && picks[a].Some? && picks[b].Some? ==> picks[a].value != picks[b].value
  {
    forall a, b | 0 <= a < b < |picks| && picks[a].Some? && picks[b].Some?
      ensures picks[a].value != picks[b].value
    {
      assert picks[..b][a] == picks[a];
      assert picks[a].value in UsedBy(picks[..b]);
    }
  }

  /** How many reference items found a counterpart. */
  function MatchedCount(picks: seq<Option<nat>>): nat
  {
    if picks == [] then 0
    else MatchedCount(picks[..|picks| - 1]) + (if picks[|picks| - 1].Some? then 1 else 0)
  }

  /** A set of naturals all below `n` has at most `n` elements. */
  lemma {:induction false} BoundedSetCard(s: set<nat>, n: nat)
    requires forall x :: x in s ==> x < n
    ensures |s| <= n
  {
    if n > 0 {
      var t := s - {n - 1};
      BoundedSetCard(t, n - 1);
    } else {
      assert s == {};
    }
  }

  /** Fresh picks take exactly `MatchedCount` candidates, so at most as
      many as there are. */
  lemma {:induction false} FreshPicksCount(picks: seq<Option<nat>>, n: nat)
    requires FreshPicks(picks, n)
    ensures |UsedBy(picks)| == MatchedCount(picks)
    ensures forall x :: x in UsedBy(picks) ==> x < n
    ensures MatchedCount(picks) <= n
  {
    if picks != [] {
      var init := picks[..|picks| - 1];
      var last := picks[|picks| - 1];
      assert FreshPicks(init, n) by {
        forall k | 0 <= k < |init| && init[k].Some?
          ensures init[k].value < n && init[k].value !in UsedBy(init[..k])
        {
          assert init[..k] == picks[..k];
        }
      }
      FreshPicksCount(init, n);
      assert picks == init + [last];
      UsedByAppend(init, last);
    }
    BoundedSetCard(UsedBy(picks), n);
  }

  /** The greedy choice among candidates `0 .. |total|-1`, given the
      indices already used: the first unused eligible candidate of highest
      score, or none when no unused candidate is eligible. Scanning in
      order and replacing the best only on a strictly higher score makes
      the earliest candidate win ties. */
  predicate IsGreedyPick(total: seq<real>, eligible: seq<bool>, used: set<nat>, pick: Option<nat>)
    requires |eligible| == |total|
  {
    match pick
    case None =>
      forall j :: 0 <= j < |total| && j !in used ==> !eligible[j]
    case Some(k) =>
      && k < |total| && k !in used && eligible[k]
      && forall j :: 0 <= j < |total| && j !in used && eligible[j] ==>
           total[j] <= total[k] && (j < k ==> total[j] < total[k])
  }

  /** The similarity of a reference name to each candidate name, as both
      matchers compute it. */
  function NameScores(ratio: Ratio, name: string, candidates: seq<string>): (r: seq<real>)
    ensures |r| == |candidates|
  {
    seq(|candidates|, j requires 0 <= j < |candidates| => StringSimilarity(ratio, name, candidates[j]))
  }

  function SectionNames(model: seq<LeafGroup>): seq<string>
  {
    seq(|model|, j requires 0 <= j < |model| => model[j].name)
  }

  function FieldNames(model: seq<Field>): seq<string>
  {
    seq(|model|, j requires 0 <= j < |model| => model[j].name)
  }

  function AboveThreshold(scores: seq<real>, threshold: real): (r: seq<bool>)
    ensures |r| == |scores| && forall j :: 0 <= j < |scores| ==> (r[j] <==> scores[j] > threshold)
  {
    seq(|scores|, j requires 0 <= j < |scores| => scores[j] > threshold)
  }

  /** What `match_sections` picks for one reference section: the greedy
      choice among the unused candidates whose name similarity is above
      0.5. */
  predicate IsSectionPick(ratio: Ratio, source: LeafGroup, model: seq<LeafGroup>, used: set<nat>, pick: Option<nat>)
  {
    var scores := NameScores(ratio, source.name, SectionNames(model));
    IsGreedyPick(scores, AboveThreshold(scores, 0.5), used, pick)
  }

  /** The inner loop of `match_sections`: scan the candidates in order and
      keep the first strictly better one above the 0.5 threshold. */
  method BestSection(ratio: Ratio, source: LeafGroup, model: seq<LeafGroup>, used: set<nat>) returns (pick: Option<nat>)
    ensures IsSectionPick(ratio, source, model, used, pick)
    ensures pick.Some? ==> pick.value < |model| && pick.value !in used
  {
    ghost var scores := NameScores(ratio, source.name, SectionNames(model));
    ghost var eligible := AboveThreshold(scores, 0.5);
    var bestScore := 0.0;
    var bestIdx := -1;
    for idx := 0 to |model|
      invariant -1 <= bestIdx < idx
      invariant bestIdx == -1 ==> bestScore == 0.0
      invariant bestIdx >= 0 ==> bestIdx !in used && eligible[bestIdx] && bestScore == scores[bestIdx]
      invariant bestIdx == -1 ==> forall j :: 0 <= j < idx && j !in used ==> !eligible[j]
      invariant bestIdx >= 0 ==> forall j :: 0 <= j < idx && j !in used && eligible[j] ==>
        scores[j] <= bestScore && (j < bestIdx ==> scores[j] < bestScore)
    {
      if idx in used {
        continue;
      }
      var score := StringSimilarity(ratio, source.name, model[idx].name);
      assert score == scores[idx];
      if score > bestScore && score > 0.5 {
        bestScore := score;
        bestIdx := idx;
      }
    }
    pick := if bestIdx >= 0 then Some(bestIdx) else None;
  }

  /** `match_sections`: one pick per reference section, in reference order;
      each pick is the greedy choice among the candidates still unused. */
  method MatchSections(ratio: Ratio, source: seq<LeafGroup>, model: seq<LeafGroup>) returns (picks: seq<Option<nat>>)
    ensures |picks| == |source|
    ensures forall i :: 0 <= i < |source| ==> IsSectionPick(ratio, source[i], model, UsedBy(picks[..i]), picks[i])
    ensures FreshPicks(picks, |model|)
    ensures IsSectionMatching(ratio, source, model, picks)
  {
    picks := [];
    var used: set<nat> := {};
    for i := 0 to |source|
      invariant |picks| == i
      invariant used == UsedBy(picks)
      invariant forall k :: 0 <= k < i ==> IsSectionPick(ratio, source[k], model, UsedBy(picks[..k]), picks[k])
      invariant FreshPicks(picks, |model|)
    {
      var pick := BestSection(ratio, source[i], model, used);
      if pick.Some? {
        used := used + {pick.value};
      }
      UsedByAppend(picks, pick);
      FreshPicksAppend(picks, pick, |model|);
      picks := picks + [pick];
    }
  }

  /** The name similarity plus 0.1 for equal ids, capped at 1.0. */
  function MatchScore(nameScore: real, sameId: bool): (r: real)
    ensures nameScore <= 1.0 ==> nameScore <= r <= 1.0
  {
    var total := nameScore + (if sameId then 0.1 else 0.0);
    if total < 1.0 then total else 1.0
  }

  function FieldMatchScores(ratio: Ratio, source: Field, model: seq<Field>): (r: seq<real>)
    ensures |r| == |model|
  {
    var names := NameScores(ratio, source.name, FieldNames(model));
    seq(|model|, j requires 0 <= j < |model| => MatchScore(names[j], source.id == model[j].id))
  }

  /** What `match_fields` picks for one reference field: the greedy choice,
      by capped score, among the unused candidates whose raw name similarity
      is above 0.3; with that score, or 0.0 when there is none. */
  predicate IsFieldPick(ratio: Ratio, source: Field, model: seq<Field>, used: set<nat>, pick: Option<nat>, score: real)
  {
    var totals := FieldMatchScores(ratio, source, model);
    && IsGreedyPick(totals, AboveThreshold(NameScores(ratio, source.name, FieldNames(model)), 0.3), used, pick)
    && score == (if pick.Some? then totals[pick.value] else 0.0)
  }

  /** The inner loop of `match_fields`: scan the candidates in order and
      keep the first strictly better capped score among those whose name
      similarity is above 0.3. */
  method BestField(ratio: Ratio, source: Field, model: seq<Field>, used: set<nat>) returns (pick: Option<nat>, score: real)
    ensures IsFieldPick(ratio, source, model, used, pick, score)
    ensures pick.Some? ==> pick.value < |model| && pick.value !in used
    ensures 0.0 <= score <= 1.0 && (pick.Some? <==> score > 0.3)
  {
    ghost var names := NameScores(ratio, source.name, FieldNames(model));
    ghost var totals := FieldMatchScores(ratio, source, model);
    ghost var eligible := AboveThreshold(names, 0.3);
    var bestScore := 0.0;
    var bestIdx := -1;
    for idx := 0 to |model|
      invariant -1 <= bestIdx < idx
      invariant bestIdx == -1 ==> bestScore == 0.0
      invariant bestIdx >= 0 ==> bestIdx !in used && eligible[bestIdx] && bestScore == totals[bestIdx]
      invariant bestIdx >= 0 ==> 0.3 < bestScore <= 1.0
      invariant bestIdx == -1 ==> forall j :: 0 <= j < idx && j !in used ==> !eligible[j]
      invariant bestIdx >= 0 ==> forall j :: 0 <= j < idx && j !in used && eligible[j] ==>
        totals[j] <= bestScore && (j < bestIdx ==> totals[j] < bestScore)
    {
      if idx in used {
        continue;
      }
      var nameScore := StringSimilarity(ratio, source.name, model[idx].name);
      var idBonus := if source.id == model[idx].id then 0.1 else 0.0;
      var totalScore := if nameScore + idBonus < 1.0 then nameScore + idBonus else 1.0;
      assert nameScore == names[idx] && totalScore == totals[idx];
      if totalScore > bestScore && nameScore > 0.3 {
        bestScore := totalScore;
        bestIdx := idx;
      }
    }
    pick := if bestIdx >= 0 then Some(bestIdx) else None;
    score := bestScore;
  }

  /** `match_fields`: one pick and one score per reference field, in
      reference order; each pick is the greedy choice among the candidates
      still unused. */
  method MatchFields(ratio: Ratio, source: seq<Field>, model: seq<Field>)
    returns (picks: seq<Option<nat>>, scores: seq<real>)
    ensures |picks| == |source| && |scores| == |source|
    ensures forall i :: 0 <= i < |source| ==> IsFieldPick(ratio, source[i], model, UsedBy(picks[..i]), picks[i], scores[i])
    ensures FreshPicks(picks, |model|)
    ensures forall i :: 0 <= i < |source| ==> 0.0 <= scores[i] <= 1.0 && (picks[i].Some? <==> scores[i] > 0.3)
    ensures IsFieldMatching(ratio, source, model, picks, scores)
  {
    picks := [];
    scores := [];
    var used: set<nat> := {};
    for i := 0 to |source|
      invariant |picks| == i && |scores| == i
      invariant used == UsedBy(picks)
      invariant forall k :: 0 <= k < i ==> IsFieldPick(ratio, source[k], model, UsedBy(picks[..k]), picks[k], scores[k])
      invariant FreshPicks(picks, |model|)
      invariant forall k :: 0 <= k < i ==> 0.0 <= scores[k] <= 1.0 && (picks[k].Some? <==> scores[k] > 0.3)
    {
      var pick, bestScore := BestField(ratio, source[i], model, used);
      if pick.Some? {
        used := used + {pick.value};
      }
      UsedByAppend(picks, pick);
      FreshPicksAppend(picks, pick, |model|);
      picks := picks + [pick];
      scores := scores + [bestScore];
    }
  }

  /** A complete run of `match_sections`: one pick per reference section,
      each the greedy choice among the candidates the earlier picks left
      unused. */
  predicate IsSectionMatching(ratio: Ratio, source: seq<LeafGroup>, model: seq<LeafGroup>, picks: seq<Option<nat>>)
  {
    && |picks| == |source|
    && FreshPicks(picks, |model|)
    && forall i :: 0 <= i < |source| ==> IsSectionPick(ratio, source[i], model, UsedBy(picks[..i]), picks[i])
  }

  /** A complete run of `match_fields`: one pick and one score per
      reference field, each pick the greedy choice among the candidates the
      earlier picks left unused. */
  predicate IsFieldMatching(ratio: Ratio, source: seq<Field>, model: seq<Field>, picks: seq<Option<nat>>, scores: seq<real>)
  {
    && |picks| == |source| && |scores| == |source|
    && FreshPicks(picks, |model|)
    && forall i :: 0 <= i < |source| ==> IsFieldPick(ratio, source[i], model, UsedBy(picks[..i]), picks[i], scores[i])
  }

  /** The greedy choice is determined by the scores, the eligibility and the
      indices already used. */
  lemma GreedyPickUnique(total: seq<real>, eligible: seq<bool>, used: set<nat>, p: Option<nat>, q: Option<nat>)
    requires |eligible| == |total|
    requires IsGreedyPick(total, eligible, used, p) && IsGreedyPick(total, eligible, used, q)
    ensures p == q
  {
  }

  /** One field's pick and score are determined by the indices already
      used. */
  lemma FieldPickUnique(ratio: Ratio, f: Field, model: seq<Field>, used: set<nat>, p: Option<nat>, s: real, q: Option<nat>, t: real)
    requires IsFieldPick(ratio, f, model, used, p, s) && IsFieldPick(ratio, f, model, used, q, t)
    ensures p == q && s == t
  {
    GreedyPickUnique(FieldMatchScores(ratio, f, model), AboveThreshold(NameScores(ratio, f.name, FieldNames(model)), 0.3), used, p, q);
  }

  /** Two runs of `match_sections` on the same input agree on every pick. */
  lemma SectionMatchingUnique(ratio: Ratio, source: seq<LeafGroup>, model: seq<LeafGroup>, p: seq<Option<nat>>, q: seq<Option<nat>>)
    requires IsSectionMatching(ratio, source, model, p) && IsSectionMatching(ratio, source, model, q)
    ensures p == q
  {
    forall i | 0 <= i < |p| && p[..i] == q[..i]
      ensures p[i] == q[i]
    {
      var scores := NameScores(ratio, source[i].name, SectionNames(model));
      assert IsSectionPick(ratio, source[i], model, UsedBy(p[..i]), p[i]);
      assert IsSectionPick(ratio, source[i], model, UsedBy(q[..i]), q[i]);
      GreedyPickUnique(scores, AboveThreshold(scores, 0.5), UsedBy(p[..i]), p[i], q[i]);
    }
    PrefixAgreement(p, p, q, q, |p|);
    assert p[..|p|] == p && q[..|q|] == q;
  }

  /** Two runs of `match_fields` on the same input agree on every pick and
      every score. */
  lemma FieldMatchingUnique(ratio: Ratio, source: seq<Field>, model: seq<Field>,
                            p: seq<Option<nat>>, s: seq<real>, q: seq<Option<nat>>, t: seq<real>)
    requires IsFieldMatching(ratio, source, model, p, s) && IsFieldMatching(ratio, source, model, q, t)
    ensures p == q && s == t
  {
    forall i | 0 <= i < |p| && p[..i] == q[..i]
      ensures p[i] == q[i] && s[i] == t[i]
    {
      FieldMatchingStep(ratio, source, model, p, s, q, t, i);
    }
    PrefixAgreement(p, s, q, t, |p|);
    assert p[..|p|] == p && q[..|q|] == q && s[..|s|] == s && t[..|t|] == t;
  }

  /** Paired sequences whose next entries agree whenever the earlier ones
      do agree everywhere, by induction on the prefix. */
  lemma {:induction false} PrefixAgreement<A, B>(p: seq<A>, s: seq<B>, q: seq<A>, t: seq<B>, k: nat)
    requires |q| == |p| && |s| == |p| && |t| == |p| && k <= |p|
    requires forall i :: 0 <= i < |p| && p[..i] == q[..i] ==> p[i] == q[i] && s[i] == t[i]
    ensures p[..k] == q[..k] && s[..k] == t[..k]
  {
    if k > 0 {
      PrefixAgreement(p, s, q, t, k - 1);
      PrefixStep(p, k - 1);
      PrefixStep(q, k - 1);
      PrefixStep(s, k - 1);
      PrefixStep(t, k - 1);
    }
  }

  /** Runs of `match_fields` that agree before field `i` agree on it. */
  lemma FieldMatchingStep(ratio: Ratio, source: seq<Field>, model: seq<Field>,
                          p: seq<Option<nat>>, s: seq<real>, q: seq<Option<nat>>, t: seq<real>, i: nat)
    requires IsFieldMatching(ratio, source, model, p, s) && IsFieldMatching(ratio, source, model, q, t)
    requires i < |source| && p[..i] == q[..i]
    ensures p[i] == q[i] && s[i] == t[i]
  {
    var used := UsedBy(p[..i]);
    assert IsFieldPick(ratio, source[i], model, used, p[i], s[i]);
    assert IsFieldPick(ratio, source[i], model, used, q[i], t[i]);
    FieldPickUnique(ratio, source[i], model, used, p[i], s[i], q[i], t[i]);
  }

  // ---------------------------------------------------------------------
  // Field and section comparison
  // ---------------------------------------------------------------------

  /** `compare_field`: a missing counterpart gives a MISSING record with
      every score 0; otherwise the rating types, options and configuration
      are compared, and the name similarity is recomputed when the given
      one is 0.0. */
  function CompareField(ratio: Ratio, source: Field, model: Option<Field>, nameSimilarity: real): (r: FieldEvaluation)
    ensures r.sourceFieldId == source.id && r.sourceName == source.name && r.reasoning.None?
    ensures r.matchType == Missing <==> model.None?
    ensures model.None? ==>
      && r.modelFieldId.None? && r.modelName.None?
      && r.nameSimilarity == 0.0 && r.optionsSimilarity == 0.0 && !r.ratingTypeMatch
      && r.optionsExactMatch == 0.0 && r.config.None? && r.configScore == 0.0 && r.overallScore == 0.0
    ensures model.Some? ==>
      && r.modelFieldId == Some(model.value.id) && r.modelName == Some(model.value.name)
      && r.ratingTypeMatch == (source.ratingType == model.value.ratingType)
      && r.config == Some(CompareFieldConfig(source, model.value))
      && r.configScore == ConfigScore(r.config.value)
      && r.optionsSimilarity == r.optionsExactMatch
      && r.overallScore == 0.0
      && (r.matchType == Exact <==> r.nameSimilarity > 0.9)
    ensures model.Some? && nameSimilarity != 0.0 ==> r.nameSimilarity == nameSimilarity
    ensures model.Some? && nameSimilarity == 0.0 ==> r.nameSimilarity == StringSimilarity(ratio, source.name, model.value.name)
    ensures 0.0 <= nameSimilarity <= 1.0 ==> FieldInUnit(r)
  {
    match model
    case None =>
      FieldEvaluation(source.id, None, source.name, None, Missing, 0.0, 0.0, false, 0.0, None, None, 0.0, 0.0)
    case Some(m) =>
      var optionsExactMatch := OrderedListSimilarity(source.options, m.options);
      var config := CompareFieldConfig(source, m);
      ConfigScoreInUnit(config);
      var configScore := ConfigScore(config);
      var similarity := if nameSimilarity == 0.0 then StringSimilarity(ratio, source.name, m.name) else nameSimilarity;
      FieldEvaluation(
        source.id, Some(m.id), source.name, Some(m.name),
        if similarity > 0.9 then Exact else Partial,
        similarity, optionsExactMatch, source.ratingType == m.ratingType, optionsExactMatch,
        Some(config), None, configScore, 0.0)
  }

  /** A field compared with an identical copy of itself (with a name that is
      not blank after normalisation) is an exact match on every part. */
  lemma CompareFieldOfSelf(ratio: Ratio, f: Field)
    requires NormalizeString(f.name) != []
    ensures var r := CompareField(ratio, f, Some(f), 0.0);
      && r.matchType == Exact && r.nameSimilarity == 1.0 && r.ratingTypeMatch
      && r.optionsExactMatch == 1.0 && r.configScore == 1.0
  {
    assert f.name != [];
    StringSimilarityOfSameName(ratio, f.name, f.name);
    OrderedListSimilarityOneIff(f.options, f.options);
    ConfigScoreOfSelf(f);
  }

  /** The number of field records that found a counterpart. */
  function CountMatched(fields: seq<FieldEvaluation>): nat
  {
    if fields == [] then 0
    else CountMatched(fields[..|fields| - 1]) + (if fields[|fields| - 1].matchType != Missing then 1 else 0)
  }

  /** `compare_section`. Against a missing counterpart every field is
      MISSING; otherwise the fields are matched and compared, and the counts
      add up: matched + missing = reference fields, and, since no candidate
      field is matched twice, extra = candidate fields − matched. */
  method CompareSection(ratio: Ratio, source: LeafGroup, model: Option<LeafGroup>) returns (r: SectionEvaluation)
    ensures r.sourceSectionName == source.name && r.sourceFieldCount == |source.fields|
    ensures |r.fields| == |source.fields|
    ensures forall i :: 0 <= i < |r.fields| ==> r.fields[i].sourceFieldId == source.fields[i].id
    ensures r.matchedFields == CountMatched(r.fields)
    ensures r.matchedFields + r.missingFields == |source.fields|
    ensures r.sectionScore == 0.0 && SectionInUnit(r) && CountsConsistent(r)
    ensures IsSectionComparison(ratio, source, model, r)
    ensures model.None? ==> r == UnmatchedSection(ratio, source)
    ensures model.Some? ==>
      && r.modelSectionName == Some(model.value.name)
      && r.sectionNameSimilarity == StringSimilarity(ratio, source.name, model.value.name)
      && r.modelFieldCount == |model.value.fields|
      && r.fieldCountMatch == (|source.fields| == |model.value.fields|)
      && r.matchedFields <= |model.value.fields|
      && r.extraFields == (if |model.value.fields| - r.matchedFields > 0 then |model.value.fields| - r.matchedFields else 0)
      && r.extraFields == |model.value.fields| - r.matchedFields
  {
    if model.None? {
      r := UnmatchedSection(ratio, source);
    } else {
      r := CompareMatchedSection(ratio, source, model.value);
    }
  }

  /** The record for a reference section without a counterpart: every
      field MISSING, nothing matched, every reference field missing. */
  function UnmatchedSection(ratio: Ratio, source: LeafGroup): (r: SectionEvaluation)
    ensures r.sourceSectionName == source.name && r.modelSectionName.None?
    ensures r.sectionNameSimilarity == 0.0 && r.sectionScore == 0.0
    ensures r.sourceFieldCount == |source.fields| && r.modelFieldCount == 0 && !r.fieldCountMatch
    ensures r.matchedFields == 0 && r.missingFields == |source.fields| && r.extraFields == 0
    ensures |r.fields| == |source.fields|
    ensures forall i :: 0 <= i < |r.fields| ==>
      && r.fields[i].sourceFieldId == source.fields[i].id
      && r.fields[i].matchType == Missing
      && r.fields[i].overallScore == 0.0
    ensures CountMatched(r.fields) == 0 && SectionInUnit(r)
  {
    var fields := source.fields;
    var evals := seq(|fields|, i requires 0 <= i < |fields| => CompareField(ratio, fields[i], None, 0.0));
    CountMatchedAllMissing(evals);
    SectionEvaluation(source.name, None, 0.0, |fields|, 0, false, 0, |fields|, 0, evals, 0.0)
  }

  /** The matched branch of `compare_section`. */
  method CompareMatchedSection(ratio: Ratio, source: LeafGroup, m: LeafGroup) returns (r: SectionEvaluation)
    ensures r.sourceSectionName == source.name && r.sourceFieldCount == |source.fields|
    ensures |r.fields| == |source.fields|
    ensures forall i :: 0 <= i < |r.fields| ==> r.fields[i].sourceFieldId == source.fields[i].id
    ensures r.matchedFields == CountMatched(r.fields)
    ensures r.matchedFields + r.missingFields == |source.fields|
    ensures r.sectionScore == 0.0 && SectionInUnit(r)
    ensures r.modelSectionName == Some(m.name)
    ensures r.sectionNameSimilarity == StringSimilarity(ratio, source.name, m.name)
    ensures r.modelFieldCount == |m.fields| && r.fieldCountMatch == (|source.fields| == |m.fields|)
    ensures r.matchedFields <= |m.fields|
    ensures r.extraFields == (if |m.fields| - r.matchedFields > 0 then |m.fields| - r.matchedFields else 0)
    ensures r.extraFields == |m.fields| - r.matchedFields
    ensures CountsConsistent(r)
    ensures exists picks, scores ::
      && IsFieldMatching(ratio, source.fields, m.fields, picks, scores)
      && r == MatchedSection(ratio, source, m, picks, scores)
  {
    var sourceFields := source.fields;
    var picks, scores := MatchFields(ratio, sourceFields, m.fields);
    var fieldEvaluations, matchedCount := EvaluateFieldMatches(ratio, sourceFields, m.fields, picks, scores);
    var missingCount := |sourceFields| - matchedCount;
    var extraCount := if |m.fields| - matchedCount > 0 then |m.fields| - matchedCount else 0;
    var nameSimilarity := StringSimilarity(ratio, source.name, m.name);
    r := SectionEvaluation(
      source.name, Some(m.name), nameSimilarity,
      |sourceFields|, |m.fields|, |sourceFields| == |m.fields|,
      matchedCount, missingCount, extraCount, fieldEvaluations, 0.0);
    assert r == MatchedSection(ratio, source, m, picks, scores);
    MatchedSectionCounts(ratio, source, m, picks, scores);
  }

  /** The record built from a field matching has its field records in
      range, in reference order, and counts that add up: matched + missing
      = reference fields, and, since no candidate is picked twice, extra =
      candidate fields − matched. */
  lemma MatchedSectionCounts(ratio: Ratio, source: LeafGroup, m: LeafGroup, picks: seq<Option<nat>>, scores: seq<real>)
    requires IsFieldMatching(ratio, source.fields, m.fields, picks, scores)
    requires CountMatched(Evaluations(ratio, source.fields, m.fields, picks, scores)) == MatchedCount(picks)
    ensures var r := MatchedSection(ratio, source, m, picks, scores);
      && (forall i :: 0 <= i < |r.fields| ==> r.fields[i].sourceFieldId == source.fields[i].id)
      && r.matchedFields == CountMatched(r.fields)
      && SectionInUnit(r) && CountsConsistent(r)
      && r.matchedFields <= |m.fields|
      && r.extraFields == |m.fields| - r.matchedFields
  {
    var evals := Evaluations(ratio, source.fields, m.fields, picks, scores);
    EvaluationsInUnit(ratio, source.fields, m.fields, picks, scores);
    FreshPicksCount(picks, |m.fields|);
    MatchedCountBound(picks);
    forall i | 0 <= i < |evals|
      ensures evals[i].sourceFieldId == source.fields[i].id
    {
      assert evals[i] == CompareField(ratio, source.fields[i], Counterpart(m.fields, picks[i]), scores[i]);
    }
  }

  /** The candidate a pick names, if any. */
  function Counterpart<T>(model: seq<T>, pick: Option<nat>): Option<T>
    requires pick.Some? ==> pick.value < |model|
  {
    if pick.Some? then Some(model[pick.value]) else None
  }

  /** Every reference field compared with its picked counterpart. */
  function Evaluations(ratio: Ratio, source: seq<Field>, model: seq<Field>, picks: seq<Option<nat>>, scores: seq<real>)
    : (evals: seq<FieldEvaluation>)
    requires |picks| == |source| && |scores| == |source|
    requires forall k :: 0 <= k < |picks| && picks[k].Some? ==> picks[k].value < |model|
    ensures |evals| == |source|
  {
    seq(|source|, k requires 0 <= k < |source| => CompareField(ratio, source[k], Counterpart(model, picks[k]), scores[k]))
  }

  /** The record `compare_section` builds against the counterpart `m`
      from a field matching: every reference field compared with its pick,
      the picks counted as matched, the other reference fields as missing,
      and the candidate fields left unpicked as extra. */
  function MatchedSection(ratio: Ratio, source: LeafGroup, m: LeafGroup, picks: seq<Option<nat>>, scores: seq<real>)
    : SectionEvaluation
    requires |picks| == |source.fields| && |scores| == |source.fields|
    requires forall k :: 0 <= k < |picks| && picks[k].Some? ==> picks[k].value < |m.fields|
  {
    var matched := MatchedCount(picks);
    SectionEvaluation(
      source.name, Some(m.name), StringSimilarity(ratio, source.name, m.name),
      |source.fields|, |m.fields|, |source.fields| == |m.fields|,
      matched, |source.fields| - matched, if |m.fields| - matched > 0 then |m.fields| - matched else 0,
      Evaluations(ratio, source.fields, m.fields, picks, scores), 0.0)
  }

  /** What `compare_section` returns for `source` against `model`: the
      unmatched record when there is no counterpart, and otherwise the
      record built from the greedy field matching. */
  ghost predicate IsSectionComparison(ratio: Ratio, source: LeafGroup, model: Option<LeafGroup>, r: SectionEvaluation)
  {
    match model
    case None => r == UnmatchedSection(ratio, source)
    case Some(m) =>
      exists picks, scores ::
        && IsFieldMatching(ratio, source.fields, m.fields, picks, scores)
        && r == MatchedSection(ratio, source, m, picks, scores)
  }

  /** `compare_section` is a function of its inputs: two records that both
      follow it are equal. */
  lemma SectionComparisonUnique(ratio: Ratio, source: LeafGroup, model: Option<LeafGroup>, r: SectionEvaluation, r': SectionEvaluation)
    requires IsSectionComparison(ratio, source, model, r) && IsSectionComparison(ratio, source, model, r')
    ensures r == r'
  {
    if model.Some? {
      var m := model.value;
      var p, s :| IsFieldMatching(ratio, source.fields, m.fields, p, s) && r == MatchedSection(ratio, source, m, p, s);
      var q, t :| IsFieldMatching(ratio, source.fields, m.fields, q, t) && r' == MatchedSection(ratio, source, m, q, t);
      FieldMatchingUnique(ratio, source.fields, m.fields, p, s, q, t);
    }
  }

  /** At most one match per reference item. */
  lemma {:induction false} MatchedCountBound(picks: seq<Option<nat>>)
    ensures MatchedCount(picks) <= |picks|
  {
    if picks != [] {
      MatchedCountBound(picks[..|picks| - 1]);
    }
  }

  /** Name scores in [0,1] give field records in range. */
  lemma EvaluationsInUnit(ratio: Ratio, source: seq<Field>, model: seq<Field>, picks: seq<Option<nat>>, scores: seq<real>)
    requires |picks| == |source| && |scores| == |source|
    requires forall k :: 0 <= k < |picks| && picks[k].Some? ==> picks[k].value < |model|
    requires forall k :: 0 <= k < |scores| ==> 0.0 <= scores[k] <= 1.0
    ensures forall k :: 0 <= k < |source| ==> FieldInUnit(Evaluations(ratio, source, model, picks, scores)[k])
  {
    var evals := Evaluations(ratio, source, model, picks, scores);
    forall k | 0 <= k < |source| ensures FieldInUnit(evals[k]) {
      assert evals[k] == CompareField(ratio, source[k], Counterpart(model, picks[k]), scores[k]);
    }
  }

  /** The loop of `compare_section` over the field matches: one comparison
      per reference field, counting those that found a counterpart. */
  method EvaluateFieldMatches(ratio: Ratio, source: seq<Field>, model: seq<Field>, picks: seq<Option<nat>>, scores: seq<real>)
    returns (evals: seq<FieldEvaluation>, matchedCount: nat)
    requires |picks| == |source| && |scores| == |source|
    requires forall k :: 0 <= k < |picks| && picks[k].Some? ==> picks[k].value < |model|
    ensures evals == Evaluations(ratio, source, model, picks, scores)
    ensures matchedCount == CountMatched(evals) == MatchedCount(picks)
  {
    ghost var expected := Evaluations(ratio, source, model, picks, scores);
    evals := [];
    matchedCount := 0;
    for i := 0 to |picks|
      invariant evals == expected[..i]
      invariant matchedCount == CountMatched(evals) == MatchedCount(picks[..i])
    {
      var matched := Counterpart(model, picks[i]);
      var evalResult := CompareField(ratio, source[i], matched, scores[i]);
      EvaluationsStep(ratio, source, model, picks, scores, i);
      CountStep(evals, evalResult, picks[..i], picks[i]);
      evals := evals + [evalResult];
      if matched.Some? {
        matchedCount := matchedCount + 1;
      }
    }
    assert picks[..|picks|] == picks;
  }

  /** The first `i + 1` comparisons extend the first `i` by comparison `i`. */
  lemma EvaluationsStep(ratio: Ratio, source: seq<Field>, model: seq<Field>, picks: seq<Option<nat>>, scores: seq<real>, i: nat)
    requires |picks| == |source| && |scores| == |source| && i < |source|
    requires forall k :: 0 <= k < |picks| && picks[k].Some? ==> picks[k].value < |model|
    ensures Evaluations(ratio, source, model, picks, scores)[..i + 1]
      == Evaluations(ratio, source, model, picks, scores)[..i] + [CompareField(ratio, source[i], Counterpart(model, picks[i]), scores[i])]
    ensures picks[..i + 1] == picks[..i] + [picks[i]]
  {
    PrefixStep(Evaluations(ratio, source, model, picks, scores), i);
    PrefixStep(picks, i);
  }

  lemma PrefixStep<T>(s: seq<T>, i: nat)
    requires i < |s|
    ensures s[..i + 1] == s[..i] + [s[i]]
  {
  }

  /** One more comparison counts as matched exactly when its pick does. */
  lemma CountStep(evals: seq<FieldEvaluation>, e: FieldEvaluation, picks: seq<Option<nat>>, p: Option<nat>)
    requires CountMatched(evals) == MatchedCount(picks)
    requires e.matchType == Missing <==> p.None?
    ensures CountMatched(evals + [e]) == MatchedCount(picks + [p])
    ensures CountMatched(evals + [e]) == CountMatched(evals) + (if p.Some? then 1 else 0)
  {
    assert (evals + [e])[..|evals|] == evals;
    assert (picks + [p])[..|picks|] == picks;
  }

  lemma {:induction false} CountMatchedAllMissing(fields: seq<FieldEvaluation>)
    requires forall i :: 0 <= i < |fields| ==> fields[i].matchType == Missing
    ensures CountMatched(fields) == 0
  {
    if fields != [] {
      CountMatchedAllMissing(fields[..|fields| - 1]);
    }
  }

  /** `compare_templates`: one section record per flattened reference
      section of the first version, in order, each compared with its greedy
      counterpart among the flattened candidate sections. */
  method CompareTemplates(ratio: Ratio, source: Template, model: Template) returns (r: seq<SectionEvaluation>)
    ensures |r| == |FirstVersionLeaves(source)|
    ensures forall i :: 0 <= i < |r| ==>
      && r[i].sourceSectionName == FirstVersionLeaves(source)[i].name
      && |r[i].fields| == |FirstVersionLeaves(source)[i].fields|
      && r[i].fields != []
      && SectionInUnit(r[i]) && CountsConsistent(r[i])
    ensures exists picks ::
      && IsSectionMatching(ratio, FirstVersionLeaves(source), FirstVersionLeaves(model), picks)
      && forall i :: 0 <= i < |r| ==>
           IsSectionComparison(ratio, FirstVersionLeaves(source)[i], Counterpart(FirstVersionLeaves(model), picks[i]), r[i])
  {
    var sourceSections := ExtractSections(source);
    var modelSections := ExtractSections(model);
    var sectionMatches := MatchSections(ratio, sourceSections, modelSections);
    r := CompareMatchedSections(ratio, sourceSections, modelSections, sectionMatches);
  }

  /** The loop of `compare_templates`: each reference section compared
      with the candidate its pick names, or with none. */
  method CompareMatchedSections(ratio: Ratio, source: seq<LeafGroup>, model: seq<LeafGroup>, picks: seq<Option<nat>>)
    returns (r: seq<SectionEvaluation>)
    requires |picks| == |source| && FreshPicks(picks, |model|)
    ensures |r| == |source|
    ensures forall k :: 0 <= k < |r| ==>
      && r[k].sourceSectionName == source[k].name
      && |r[k].fields| == |source[k].fields|
      && SectionInUnit(r[k]) && CountsConsistent(r[k])
      && IsSectionComparison(ratio, source[k], Counterpart(model, picks[k]), r[k])
  {
    r := [];
    for i := 0 to |picks|
      invariant |r| == i
      invariant forall k :: 0 <= k < i ==>
        && r[k].sourceSectionName == source[k].name
        && |r[k].fields| == |source[k].fields|
        && SectionInUnit(r[k]) && CountsConsistent(r[k])
        && IsSectionComparison(ratio, source[k], Counterpart(model, picks[k]), r[k])
    {
      var counterpart := if picks[i].Some? then Some(model[picks[i].value]) else None;
      var evaluation := CompareSection(ratio, source[i], counterpart);
      r := r + [evaluation];
    }
  }
}
