/** Loosely typed JSON values as the Python code sees them after
    `json.load`: dicts keep insertion order, and the operations below follow
    Python's `dict` and built-in semantics (`d.get`, `d[k] = v`, truthiness,
    iteration, `len`). */
module Json {
  import opened Wrappers

  datatype Json =
    | JNull
    | JBool(b: bool)
    | JInt(i: int)
    | JFloat(r: real)
    | JString(s: string)
    | JArray(items: seq<Json>)
    | JObject(members: seq<Member>)

  /** One `key: value` entry of a dict, in insertion order. */
  datatype Member = Member(key: string, value: Json)

  function Keys(ms: seq<Member>): (ks: seq<string>)
    ensures |ks| == |ms|
  {
    if ms == [] then [] else [ms[0].key] + Keys(ms[1..])
  }

  /** A Python dict never holds a key twice. */
  predicate DistinctKeys(ms: seq<Member>)
  {
    forall i, j :: 0 <= i < j < |ms| ==> ms[i].key != ms[j].key
  }

  predicate HasKey(ms: seq<Member>, key: string)
  {
    key in Keys(ms)
  }

  /** `d.get(key)`: the value stored under `key`, if any. */
  function Get(ms: seq<Member>, key: string): (r: Option<Json>)
    ensures r.Some? <==> HasKey(ms, key)
    ensures r.Some? ==> Member(key, r.value) in ms
  {
    if ms == [] then None
    else if ms[0].key == key then Some(ms[0].value)
    else Get(ms[1..], key)
  }

  /** `d.get(key, default)`: a present key yields its value even when that
      value is `null`. */
  function GetOr(ms: seq<Member>, key: string, default: Json): Json
  {
    Get(ms, key).GetOr(default)
  }

  /** `d[key] = value`: an existing key keeps its position, a new key goes
      last. */
  function Set(ms: seq<Member>, key: string, value: Json): seq<Member>
  {
    if ms == [] then [Member(key, value)]
    else if ms[0].key == key then [Member(key, value)] + ms[1..]
    else [ms[0]] + Set(ms[1..], key, value)
  }

  /** `{k: v for k, v in d.items() if k != key}`. */
  function Without(ms: seq<Member>, key: string): seq<Member>
  {
    if ms == [] then []
    else (if ms[0].key == key then [] else [ms[0]]) + Without(ms[1..], key)
  }

  /** Storing keeps every key in place and adds `key` at the end only when
      it was absent. */
  lemma {:induction false} SetKeys(ms: seq<Member>, key: string, value: Json)
    ensures Keys(Set(ms, key, value)) == if HasKey(ms, key) then Keys(ms) else Keys(ms) + [key]
  {
    if ms != [] && ms[0].key != key {
      SetKeys(ms[1..], key, value);
      assert Keys(Set(ms, key, value)) == [ms[0].key] + Keys(Set(ms[1..], key, value));
      if !HasKey(ms, key) {
        assert [ms[0].key] + (Keys(ms[1..]) + [key]) == Keys(ms) + [key];
      }
    }
  }

  /** Reading back a stored key gives the stored value; every other key
      reads as before. */
  lemma {:induction false} GetSet(ms: seq<Member>, key: string, value: Json, other: string)
    ensures Get(Set(ms, key, value), key) == Some(value)
    ensures other != key ==> Get(Set(ms, key, value), other) == Get(ms, other)
  {
    if ms != [] && ms[0].key != key {
      GetSet(ms[1..], key, value, other);
    }
  }

  /** Removing a key drops exactly that key's entries and keeps the others
      in order. */
  lemma {:induction false} WithoutGet(ms: seq<Member>, key: string, other: string)
    ensures !HasKey(Without(ms, key), key)
    ensures other != key ==> Get(Without(ms, key), other) == Get(ms, other)
  {
    if ms != [] {
      WithoutGet(ms[1..], key, other);
      var rest := Without(ms[1..], key);
      if ms[0].key == key {
        assert Without(ms, key) == rest;
      } else {
        assert Without(ms, key) == [ms[0]] + rest;
        assert ([ms[0]] + rest)[1..] == rest;
      }
    }
  }

  /** Python's `bool(x)`. */
  predicate Truthy(j: Json)
  {
    match j
    case JNull => false
    case JBool(b) => b
    case JInt(i) => i != 0
    case JFloat(r) => r != 0.0
    case JString(s) => s != []
    case JArray(items) => items != []
    case JObject(ms) => ms != []
  }

  /** Lists and dicts cannot be dict keys or set members: Python raises `TypeError`. */
  predicate Hashable(j: Json)
  {
    !j.JArray? && !j.JObject?
  }

  /** What `for x in j` visits: a list's items, a dict's keys, a string's
      characters; `None` when `j` is not iterable (Python raises). */
  function Iterate(j: Json): (r: Option<seq<Json>>)
    ensures r.Some? <==> (j.JArray? || j.JObject? || j.JString?)
    ensures j.JArray? ==> r == Some(j.items)
  {
    match j
    case JArray(items) => Some(items)
    case JObject(ms) => Some(seq(|ms|, i requires 0 <= i < |ms| => JString(ms[i].key)))
    case JString(s) => Some(seq(|s|, i requires 0 <= i < |s| => JString([s[i]])))
    case _ => None
  }

  /** Iterating visits as many items as `len` counts, and something is
      visited exactly when the value is truthy. */
  lemma IterateTruthy(j: Json)
    requires Iterate(j).Some?
    ensures Iterate(j).value != [] <==> Truthy(j)
  {
  }

  /** The first entry under `key` is the one `Get` finds. */
  lemma {:induction false} GetAt(ms: seq<Member>, key: string, k: nat)
    requires k < |ms| && ms[k].key == key
    requires forall j :: 0 <= j < k ==> ms[j].key != key
    ensures Get(ms, key) == Some(ms[k].value)
  {
    if k > 0 {
      GetAt(ms[1..], key, k - 1);
    }
  }

  /** A key appended to a dict that lacked it reads back as its value. */
  lemma {:induction false} GetAfterAbsent(ms: seq<Member>, m: Member)
    requires !HasKey(ms, m.key)
    ensures Get(ms + [m], m.key) == Some(m.value)
  {
    if ms != [] {
      assert (ms + [m])[1..] == ms[1..] + [m];
      assert Keys(ms) == [ms[0].key] + Keys(ms[1..]);
      GetAfterAbsent(ms[1..], m);
    }
  }

  /** A key found among the first entries is read from there. */
  lemma {:induction false} GetInFront(front: seq<Member>, back: seq<Member>, key: string)
    requires Get(front, key).Some?
    ensures Get(front + back, key) == Get(front, key)
  {
    if front[0].key != key {
      assert (front + back)[1..] == front[1..] + back;
      GetInFront(front[1..], back, key);
    }
  }
}
