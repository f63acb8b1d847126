/** The similarity primitives of the structural matcher: string similarity,
    unordered (Jaccard) list similarity and ordered list similarity. */
module Similarity {
  import opened Text
  import Numeric

  /** What the model assumes of `difflib.SequenceMatcher(None, a, b).ratio()`:
      a value in [0,1] that is 1 when both strings are the same non-empty
      string. Nothing else (not even symmetry) is assumed. */
  ghost predicate IsRatio(f: (string, string) -> real)
  {
    forall a, b :: 0.0 <= f(a, b) <= 1.0 && (a == b && a != [] ==> f(a, b) == 1.0)
  }

  type Ratio = f: (string, string) -> real | IsRatio(f)
    witness (a: string, b: string) => if a == b then 1.0 else 0.0

  /** `normalize_string`: lower-case, then strip surrounding whitespace. */
  function NormalizeString(s: string): string
  {
    Strip(Lower(s))
  }

  /** A normalised string has no whitespace at either end, and normalising
      it again changes nothing. */
  lemma NormalizeStringIdempotent(s: string)
    ensures var n := NormalizeString(s); n == [] || (!IsSpace(n[0]) && !IsSpace(n[|n| - 1]))
    ensures NormalizeString(NormalizeString(s)) == NormalizeString(s)
  {
    var low := Lower(s);
    var l := StripLeft(low);
    var n := StripRight(l);
    StripLeftSuffix(low);
    StripRightPrefix(l);
    var k := |low| - |l|;
    assert Lower(n) == n by {
      forall i | 0 <= i < |n|
        ensures Lower(n)[i] == n[i]
      {
        assert n[i] == l[i] == low[k + i] == LowerChar(s[k + i]);
      }
    }
    if n != [] {
      assert n[0] == l[0];
    }
    assert StripLeft(n) == n;
    assert StripRight(n) == n;
  }

  /** `normalize_list`: the set of normalised items. */
  function NormalizeList(list: seq<string>): set<string>
  {
    set i | 0 <= i < |list| :: NormalizeString(list[i])
  }

  /** The normalised items, in order (the `norm1`/`norm2` lists). */
  function NormalizeSeq(list: seq<string>): (r: seq<string>)
    ensures |r| == |list| && forall i :: 0 <= i < |list| ==> r[i] == NormalizeString(list[i])
  {
    seq(|list|, i requires 0 <= i < |list| => NormalizeString(list[i]))
  }

  lemma NormalizeListIsSetOfSeq(list: seq<string>)
    ensures NormalizeList(list) == set x | x in NormalizeSeq(list)
  {
    var n := NormalizeSeq(list);
    forall x | x in NormalizeList(list) ensures x in n {
      var i :| 0 <= i < |list| && x == NormalizeString(list[i]);
      assert n[i] == x;
    }
  }

  /** `string_similarity`: 0.0 if either raw string is empty, else the
      ratio of the normalised strings. */
  function StringSimilarity(ratio: Ratio, s1: string, s2: string): (r: real)
    ensures 0.0 <= r <= 1.0
    ensures s1 == [] || s2 == [] ==> r == 0.0
  {
    if s1 == [] || s2 == [] then 0.0 else ratio(NormalizeString(s1), NormalizeString(s2))
  }

  /** Strings that read the same after normalisation are fully similar. */
  lemma StringSimilarityOfSameName(ratio: Ratio, s1: string, s2: string)
    requires s1 != [] && s2 != []
    requires NormalizeString(s1) == NormalizeString(s2) != []
    ensures StringSimilarity(ratio, s1, s2) == 1.0
  {
  }

  /** The Jaccard index |A ∩ B| / |A ∪ B| (0.0 for two empty sets). */
  function Jaccard(a: set<string>, b: set<string>): real
  {
    if |a + b| > 0 then |a * b| as real / |a + b| as real else 0.0
  }

  lemma JaccardInUnit(a: set<string>, b: set<string>)
    ensures 0.0 <= Jaccard(a, b) <= 1.0
  {
    if |a + b| > 0 {
      Numeric.SubsetCard(a * b, a + b);
      Numeric.RatioInUnit(|a * b|, |a + b|);
    }
  }

  lemma {:induction false} StrictSubsetCard<T>(a: set<T>, b: set<T>)
    requires a <= b && a != b
    ensures |a| < |b|
  {
    assert !(b <= a);
    var x :| x in b && x !in a;
    Numeric.SubsetCard(a + {x}, b);
  }

  /** The Jaccard index of two sets, not both empty, is 1 exactly when the
      sets are equal. */
  lemma JaccardOneIffEqual(a: set<string>, b: set<string>)
    requires a + b != {}
    ensures Jaccard(a, b) == 1.0 <==> a == b
  {
    assert |a + b| > 0 by {
      var x :| x in a + b;
    }
    if a != b {
      var x :| (x in a && x !in b) || (x in b && x !in a);
      assert x in a + b && x !in a * b;
      StrictSubsetCard(a * b, a + b);
    } else {
      assert a * b == a + b;
    }
  }

  /** The Jaccard index is 0 exactly when the sets are disjoint. */
  lemma JaccardZeroIffDisjoint(a: set<string>, b: set<string>)
    requires a + b != {}
    ensures Jaccard(a, b) == 0.0 <==> a * b == {}
  {
    assert |a + b| > 0 by {
      var x :| x in a + b;
    }
    if a * b != {} {
      var x :| x in a * b;
    }
  }

  lemma NonEmptyListHasNormalizedItem(list: seq<string>)
    requires list != []
    ensures NormalizeString(list[0]) in NormalizeList(list)
  {
  }

  /** `list_similarity`: both lists empty gives 1.0, exactly one empty gives
      0.0, otherwise the Jaccard index of the normalised sets. */
  function ListSimilarity(list1: seq<string>, list2: seq<string>): (r: real)
    ensures 0.0 <= r <= 1.0
    ensures list1 == [] && list2 == [] ==> r == 1.0
    ensures (list1 == []) != (list2 == []) ==> r == 0.0
  {
    if list1 == [] && list2 == [] then 1.0
    else if list1 == [] || list2 == [] then 0.0
    else
      JaccardInUnit(NormalizeList(list1), NormalizeList(list2));
      Jaccard(NormalizeList(list1), NormalizeList(list2))
  }

  /** For non-empty lists, `list_similarity` is 1 exactly when the lists
      hold the same items up to case, surrounding whitespace, order and
      repetition. */
  lemma ListSimilarityOneIffSameItems(list1: seq<string>, list2: seq<string>)
    requires list1 != [] && list2 != []
    ensures ListSimilarity(list1, list2) == 1.0 <==> NormalizeList(list1) == NormalizeList(list2)
  {
    NonEmptyListHasNormalizedItem(list1);
    JaccardOneIffEqual(NormalizeList(list1), NormalizeList(list2));
  }

  /** For non-empty lists, `list_similarity` is 0 exactly when no item is
      shared. */
  lemma ListSimilarityZeroIffDisjoint(list1: seq<string>, list2: seq<string>)
    requires list1 != [] && list2 != []
    ensures ListSimilarity(list1, list2) == 0.0 <==> NormalizeList(list1) * NormalizeList(list2) == {}
  {
    NonEmptyListHasNormalizedItem(list1);
    JaccardZeroIffDisjoint(NormalizeList(list1), NormalizeList(list2));
  }

  /** Comparing a list with itself gives 1.0. */
  lemma ListSimilarityReflexive(list: seq<string>)
    ensures ListSimilarity(list, list) == 1.0
  {
    if list != [] {
      ListSimilarityOneIffSameItems(list, list);
    }
  }

  lemma ListSimilaritySymmetric(list1: seq<string>, list2: seq<string>)
    ensures ListSimilarity(list1, list2) == ListSimilarity(list2, list1)
  {
    assert NormalizeList(list1) * NormalizeList(list2) == NormalizeList(list2) * NormalizeList(list1);
    assert NormalizeList(list1) + NormalizeList(list2) == NormalizeList(list2) + NormalizeList(list1);
  }

  /** A word without whitespace normalises to its lower-case form. */
  lemma NormalizeWord(s: string)
    requires forall i :: 0 <= i < |s| ==> !IsSpace(s[i])
    ensures NormalizeString(s) == Lower(s)
  {
    var l := Lower(s);
    assert forall i :: 0 <= i < |l| ==> !IsSpace(l[i]);
    assert StripLeft(l) == l;
  }

  lemma NormalizeA()
    ensures NormalizeString("A") == "a"
  {
    assert forall i :: 0 <= i < |"A"| ==> !IsSpace("A"[i]);
    NormalizeWord("A");
    var l := Lower("A");
    assert l[0] == 'a';
  }

  lemma NormalizeB()
    ensures NormalizeString("B") == "b"
  {
    assert forall i :: 0 <= i < |"B"| ==> !IsSpace("B"[i]);
    NormalizeWord("B");
    var l := Lower("B");
    assert l[0] == 'b';
  }

  lemma NormalizeaLower()
    ensures NormalizeString("a") == "a"
  {
    assert forall i :: 0 <= i < |"a"| ==> !IsSpace("a"[i]);
    NormalizeWord("a");
    var l := Lower("a");
    assert l[0] == 'a';
  }

  lemma NormalizecLower()
    ensures NormalizeString("c") == "c"
  {
    assert forall i :: 0 <= i < |"c"| ==> !IsSpace("c"[i]);
    NormalizeWord("c");
    var l := Lower("c");
    assert l[0] == 'c';
  }

  lemma NormalizePass()
    ensures NormalizeString("Pass") == "pass"
  {
    assert forall i :: 0 <= i < |"Pass"| ==> !IsSpace("Pass"[i]);
    NormalizeWord("Pass");
    var l := Lower("Pass");
    assert l[0] == 'p' && l[1] == 'a' && l[2] == 's' && l[3] == 's';
  }

  lemma NormalizepassLower()
    ensures NormalizeString("pass") == "pass"
  {
    assert forall i :: 0 <= i < |"pass"| ==> !IsSpace("pass"[i]);
    NormalizeWord("pass");
    var l := Lower("pass");
    assert l[0] == 'p' && l[1] == 'a' && l[2] == 's' && l[3] == 's';
  }

  lemma NormalizeFail()
    ensures NormalizeString("Fail") == "fail"
  {
    assert forall i :: 0 <= i < |"Fail"| ==> !IsSpace("Fail"[i]);
    NormalizeWord("Fail");
    var l := Lower("Fail");
    assert l[0] == 'f' && l[1] == 'a' && l[2] == 'i' && l[3] == 'l';
  }

  lemma NormalizefailLower()
    ensures NormalizeString("fail") == "fail"
  {
    assert forall i :: 0 <= i < |"fail"| ==> !IsSpace("fail"[i]);
    NormalizeWord("fail");
    var l := Lower("fail");
    assert l[0] == 'f' && l[1] == 'a' && l[2] == 'i' && l[3] == 'l';
  }

  lemma NormalizeListPair(x: string, y: string)
    ensures NormalizeList([x, y]) == {NormalizeString(x), NormalizeString(y)}
  {
    assert [x, y][0] == x && [x, y][1] == y;
  }

  lemma NormalizeSeqPair(x: string, y: string)
    ensures NormalizeSeq([x, y]) == [NormalizeString(x), NormalizeString(y)]
  {
  }

  lemma JaccardOfThree(x: string, y: string, z: string)
    requires x != y && y != z && x != z
    ensures Jaccard({x, y}, {x, z}) == 1.0 / 3.0
  {
    assert {x, y} * {x, z} == {x};
    assert {x, y} + {x, z} == {x, y, z};
  }

  /** `list_similarity(["A","B"], ["a","c"]) == 1/3`. */
  lemma ListSimilarityExample()
    ensures ListSimilarity(["A", "B"], ["a", "c"]) == 1.0 / 3.0
  {
    NormalizeA(); NormalizeB(); NormalizeaLower(); NormalizecLower();
    NormalizeListPair("A", "B");
    NormalizeListPair("a", "c");
    JaccardOfThree("a", "b", "c");
  }

  /** `ordered_list_similarity`: the empty-list rules of `list_similarity`;
      1.0 for equal normalised sequences, 0.9 when only the order differs,
      otherwise the Jaccard index. */
  function OrderedListSimilarity(list1: seq<string>, list2: seq<string>): (r: real)
    ensures 0.0 <= r <= 1.0
    ensures list1 == [] && list2 == [] ==> r == 1.0
    ensures (list1 == []) != (list2 == []) ==> r == 0.0
  {
    if list1 == [] && list2 == [] then 1.0
    else if list1 == [] || list2 == [] then 0.0
    else
      var norm1 := NormalizeSeq(list1);
      var norm2 := NormalizeSeq(list2);
      if norm1 == norm2 then 1.0
      else if (set x | x in norm1) == (set x | x in norm2) then 0.9
      else
        JaccardInUnit(set x | x in norm1, set x | x in norm2);
        Jaccard(set x | x in norm1, set x | x in norm2)
  }

  /** Ordered similarity is 1 exactly when both lists are empty or their
      normalised sequences are equal. */
  lemma OrderedListSimilarityOneIff(list1: seq<string>, list2: seq<string>)
    ensures OrderedListSimilarity(list1, list2) == 1.0
        <==> (list1 == [] && list2 == []) || (list1 != [] && NormalizeSeq(list1) == NormalizeSeq(list2))
  {
    if list1 != [] && list2 != [] {
      var norm1 := NormalizeSeq(list1);
      var norm2 := NormalizeSeq(list2);
      var a := set x | x in norm1;
      var b := set x | x in norm2;
      if norm1 != norm2 && a != b {
        assert norm1[0] in a;
        JaccardOneIffEqual(a, b);
      }
    }
  }

  /** The same normalised items in a different order score exactly 0.9. */
  lemma OrderedListSimilarityReordered(list1: seq<string>, list2: seq<string>)
    requires list1 != [] && list2 != []
    requires NormalizeSeq(list1) != NormalizeSeq(list2)
    requires NormalizeList(list1) == NormalizeList(list2)
    ensures OrderedListSimilarity(list1, list2) == 0.9
  {
    NormalizeListIsSetOfSeq(list1);
    NormalizeListIsSetOfSeq(list2);
  }

  /** Different item sets score the Jaccard index of the sets, as
      `list_similarity` does. */
  lemma OrderedListSimilarityFallsBackToJaccard(list1: seq<string>, list2: seq<string>)
    requires list1 != [] && list2 != []
    requires NormalizeList(list1) != NormalizeList(list2)
    ensures OrderedListSimilarity(list1, list2) == ListSimilarity(list1, list2)
  {
    NormalizeListIsSetOfSeq(list1);
    NormalizeListIsSetOfSeq(list2);
  }

  /** The worked examples of the ordered similarity. */
  lemma OrderedListSimilarityExamples()
    ensures OrderedListSimilarity(["Pass", "Fail"], ["fail", "pass"]) == 0.9
    ensures OrderedListSimilarity(["Pass"], ["Pass"]) == 1.0
    ensures OrderedListSimilarity([], []) == 1.0
    ensures OrderedListSimilarity(["Pass"], []) == 0.0
  {
    NormalizePass(); NormalizepassLower(); NormalizeFail(); NormalizefailLower();
    NormalizeSeqPair("Pass", "Fail");
    NormalizeSeqPair("fail", "pass");
    NormalizeListPair("Pass", "Fail");
    NormalizeListPair("fail", "pass");
    assert {"pass", "fail"} == {"fail", "pass"};
    assert ["pass", "fail"] != ["fail", "pass"] by {
      assert ["pass", "fail"][0] != ["fail", "pass"][0];
    }
    OrderedListSimilarityReordered(["Pass", "Fail"], ["fail", "pass"]);
  }
}
