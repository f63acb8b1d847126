/** Removing a Markdown code fence around a JSON reply. The LLM evaluator
    (`_clean_json_response`) and the Bedrock provider (`generate_json`)
    apply the same steps. */
module Fences {
  import opened Text

  const JsonFence := "```json"
  const Fence := "```"

  /** Trim; drop a leading "```json", then a leading "```", then a
      trailing "```"; trim again. */
  function StripFences(text: string): string
  {
    var t0 := Strip(text);
    var t1 := if StartsWith(t0, JsonFence) then t0[7..] else t0;
    var t2 := if StartsWith(t1, Fence) then t1[3..] else t1;
    var t3 := if EndsWith(t2, Fence) then t2[..|t2| - 3] else t2;
    Strip(t3)
  }

  /** A string with no whitespace at either end is its own `strip()`. */
  lemma {:induction false} StripTrimmed(s: string)
    requires s == [] || (!IsSpace(s[0]) && !IsSpace(s[|s| - 1]))
    ensures Strip(s) == s
  {
    assert StripLeft(s) == s;
  }

  /** `strip()` removes whitespace on both sides of a trimmed core. */
  lemma {:induction false} StripAround(pre: string, core: string, post: string)
    requires forall i :: 0 <= i < |pre| ==> IsSpace(pre[i])
    requires forall i :: 0 <= i < |post| ==> IsSpace(post[i])
    requires core != [] && !IsSpace(core[0]) && !IsSpace(core[|core| - 1])
    ensures Strip(pre + core + post) == core
  {
    StripLeftAround(pre, core + post);
    assert pre + core + post == pre + (core + post);
    StripRightAround(core, post);
  }

  lemma {:induction false} StripLeftAround(pre: string, rest: string)
    requires forall i :: 0 <= i < |pre| ==> IsSpace(pre[i])
    requires rest != [] && !IsSpace(rest[0])
    ensures StripLeft(pre + rest) == rest
  {
    if pre == [] {
      assert pre + rest == rest;
    } else {
      assert (pre + rest)[1..] == pre[1..] + rest;
      StripLeftAround(pre[1..], rest);
    }
  }

  lemma {:induction false} StripRightAround(core: string, post: string)
    requires forall i :: 0 <= i < |post| ==> IsSpace(post[i])
    requires core != [] && !IsSpace(core[|core| - 1])
    ensures StripRight(core + post) == core
  {
    if post == [] {
      assert core + post == core;
    } else {
      var n := |post| - 1;
      assert (core + post)[..|core + post| - 1] == core + post[..n];
      StripRightAround(core, post[..n]);
    }
  }

  /** Fencing a trimmed JSON body as "```json", a newline, the body, a
      newline and "```" and stripping the fence gives the body back. */
  lemma StripFencesOfFenced(body: string)
    requires body != [] && !IsSpace(body[0]) && !IsSpace(body[|body| - 1])
    requires !StartsWith(body, Fence) && !EndsWith(body, Fence)
    ensures StripFences(JsonFence + "\n" + body + "\n" + Fence) == body
  {
    var text := JsonFence + "\n" + body + "\n" + Fence;
    StripTrimmed(text);
    var t1 := text[7..];
    assert t1 == "\n" + body + "\n" + Fence;
    assert !StartsWith(t1, Fence);
    var t3 := t1[..|t1| - 3];
    assert t3 == "\n" + body + "\n";
    StripAround("\n", body, "\n");
  }

  /** A reply without fences is only trimmed. */
  lemma StripFencesOfPlain(text: string)
    requires !StartsWith(Strip(text), Fence) && !EndsWith(Strip(text), Fence)
    ensures StripFences(text) == Strip(text)
  {
    StripEnds(text);
    StripTrimmed(Strip(text));
  }

  /** The result never has whitespace at either end. */
  lemma StripFencesTrimmed(text: string)
    ensures var r := StripFences(text); r == [] || (!IsSpace(r[0]) && !IsSpace(r[|r| - 1]))
  {
    var t0 := Strip(text);
    var t1 := if StartsWith(t0, JsonFence) then t0[7..] else t0;
    var t2 := if StartsWith(t1, Fence) then t1[3..] else t1;
    var t3 := if EndsWith(t2, Fence) then t2[..|t2| - 3] else t2;
    StripEnds(t3);
  }

  /** `strip()` leaves no whitespace at either end. */
  lemma StripEnds(s: string)
    ensures var r := Strip(s); r == [] || (!IsSpace(r[0]) && !IsSpace(r[|r| - 1]))
  {
    var l := StripLeft(s);
    StripLeftSuffix(s);
    StripRightPrefix(l);
    var r := StripRight(l);
    if r != [] {
      assert r[0] == l[0];
    }
  }
}
