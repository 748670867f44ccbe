/** The JSON-like values the code passes around: tool schemas, API payloads and
    response bodies. Objects are ordered sequences of fields, matching the
    insertion order of a Python `dict`. */
module JsonValue {
  import opened Base

  datatype Json =
    | JNull
    | JBool(b: bool)
    | JInt(i: int)
    | JStr(s: string)
    | JArr(items: seq<Json>)
    | JObj(fields: seq<Field>)

  /** One `key: value` entry of a dict. */
  datatype Field = Field(key: string, val: Json)

  /** The keys of a dict, in insertion order. */
  function Keys(fs: seq<Field>): (ks: seq<string>)
    ensures |ks| == |fs|
    ensures forall i :: 0 <= i < |fs| ==> ks[i] == fs[i].key
  {
    seq(|fs|, i requires 0 <= i < |fs| => fs[i].key)
  }

  /** A Python dict never holds the same key twice. */
  predicate UniqueKeys(fs: seq<Field>) {
    forall i, j :: 0 <= i < j < |fs| ==> fs[i].key != fs[j].key
  }

  /** `d.get(key)`: the value stored under `key`, or `None`. */
  function Get(fs: seq<Field>, key: string): (r: Option<Json>)
    ensures r.None? <==> key !in Keys(fs)
    ensures r.Some? ==> exists i :: 0 <= i < |fs| && fs[i] == Field(key, r.value)
  {
    if |fs| == 0 then None
    else if fs[0].key == key then Some(fs[0].val)
    else Get(fs[1..], key)
  }

  /** Python truthiness of a JSON value: null, false, 0, "" and empty
      containers are falsy. */
  predicate Truthy(j: Json) {
    match j
    case JNull => false
    case JBool(b) => b
    case JInt(i) => i != 0
    case JStr(s) => s != ""
    case JArr(items) => items != []
    case JObj(fields) => fields != []
  }

  /** In a dict with unique keys, `get` finds exactly the stored value. */
  lemma {:induction false} GetUnique(fs: seq<Field>, i: int)
    requires UniqueKeys(fs)
    requires 0 <= i < |fs|
    ensures Get(fs, fs[i].key) == Some(fs[i].val)
  {
    if i > 0 {
      assert fs[0].key != fs[i].key;
      assert fs[1..][i - 1] == fs[i];
      GetUnique(fs[1..], i - 1);
    }
  }

  /** The keys of a concatenation are the keys of each part, in order. */
  lemma {:induction false} KeysAppend(a: seq<Field>, b: seq<Field>)
    ensures Keys(a + b) == Keys(a) + Keys(b)
    decreases a
  {
    if |a| > 0 {
      assert (a + b)[1..] == a[1..] + b;
      KeysAppend(a[1..], b);
    } else {
      assert a + b == b;
    }
  }

  /** `get` on a concatenation looks in the first part, then in the second. */
  lemma {:induction false} GetAppend(a: seq<Field>, b: seq<Field>, key: string)
    ensures Get(a + b, key) == if key in Keys(a) then Get(a, key) else Get(b, key)
    decreases a
  {
    if |a| > 0 {
      assert (a + b)[0] == a[0];
      assert (a + b)[1..] == a[1..] + b;
      assert Keys(a) == [a[0].key] + Keys(a[1..]);
      GetAppend(a[1..], b, key);
    } else {
      assert a + b == b;
    }
  }

  /** Two dicts with unique, disjoint keys concatenate to a dict with unique keys. */
  lemma UniqueAppend(a: seq<Field>, b: seq<Field>)
    requires UniqueKeys(a) && UniqueKeys(b)
    requires forall k :: k in Keys(a) ==> k !in Keys(b)
    ensures UniqueKeys(a + b)
    ensures forall k :: k in Keys(a + b) <==> k in Keys(a) || k in Keys(b)
  {
    KeysAppend(a, b);
    var r := a + b;
    forall i, j | 0 <= i < j < |r|
      ensures r[i].key != r[j].key
    {
      if j < |a| {
        assert r[i] == a[i] && r[j] == a[j];
      } else if i >= |a| {
        assert r[i] == b[i - |a|] && r[j] == b[j - |a|];
      } else {
        assert r[i].key == Keys(a)[i] && Keys(a)[i] in Keys(a);
        assert r[j].key == Keys(b)[j - |a|] && Keys(b)[j - |a|] in Keys(b);
      }
    }
  }

  /** The name Python reports for the type of a JSON value. */
  function TypeName(j: Json): string {
    match j
    case JNull => "NoneType"
    case JBool(_) => "bool"
    case JInt(_) => "int"
    case JStr(_) => "str"
    case JArr(_) => "list"
    case JObj(_) => "dict"
  }
}
