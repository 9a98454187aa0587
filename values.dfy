/**
  * The Python values that flow through the chat-completions adapter: message
  * contents, the request payload built for the vendor, and the JSON document
  * `response.json()` hands back.  A Python `dict` is kept as its list of
  * (key, value) bindings in insertion order, because the payload is serialised
  * in that order; reading a key follows Python, where the last binding of a
  * key is the one a dict literal or `json.loads` keeps.  Where a dict is
  * iterated (`Iterate`), its keys are taken to be distinct, as they are in any
  * Python dict: a list of bindings that repeats a key is iterated once per
  * binding.
  */
module Values {
  import opened Wrappers

  /** `autogen_core.FunctionCall`: a tool-call request (all three fields are `str`). */
  datatype FunctionCall = FunctionCall(id: string, arguments: string, name: string)

  datatype Value =
    | VNone
    | VBool(b: bool)
    | VInt(i: int)
    | VStr(s: string)
    | VList(items: seq<Value>)
    | VDict(entries: seq<(string, Value)>)
    | VCall(call: FunctionCall)   // a FunctionCall object inside a message's content list
    | VObject(kind: string)       // any other Python object, e.g. an image part of a user message

  /** `key in d` for a dict with bindings `entries`. */
  predicate HasKey(entries: seq<(string, Value)>, key: string) {
    exists i :: 0 <= i < |entries| && entries[i].0 == key
  }

  /** `d[key]` (None: `KeyError`): the value of the last binding of `key`. */
  function Lookup(entries: seq<(string, Value)>, key: string): (r: Option<Value>)
    ensures r.Some? <==> HasKey(entries, key)
    ensures r.Some? ==> exists i :: 0 <= i < |entries| && entries[i] == (key, r.value)
                                    && forall j :: i < j < |entries| ==> entries[j].0 != key
  {
    if entries == [] then None
    else
      var n := |entries| - 1;
      if entries[n].0 == key then Some(entries[n].1)
      else
        var r := Lookup(entries[..n], key);
        assert forall i :: 0 <= i < n ==> entries[..n][i] == entries[i];
        assert HasKey(entries, key) ==> HasKey(entries[..n], key);
        r
  }

  /** Reading a dict literal with two bindings. */
  lemma LookupPair(k1: string, v1: Value, k2: string, v2: Value, key: string)
    ensures Lookup([(k1, v1), (k2, v2)], key) ==
            if key == k2 then Some(v2) else if key == k1 then Some(v1) else None
  {
    assert [(k1, v1), (k2, v2)][..1] == [(k1, v1)];
    assert [(k1, v1)][..0] == [];
  }

  /** Reading a dict literal with three bindings. */
  lemma LookupTriple(k1: string, v1: Value, k2: string, v2: Value, k3: string, v3: Value, key: string)
    ensures Lookup([(k1, v1), (k2, v2), (k3, v3)], key) ==
            if key == k3 then Some(v3) else if key == k2 then Some(v2) else if key == k1 then Some(v1) else None
  {
    assert [(k1, v1), (k2, v2), (k3, v3)][..2] == [(k1, v1), (k2, v2)];
    LookupPair(k1, v1, k2, v2, key);
  }

  /** `d.get(key, default)`. */
  function Get(entries: seq<(string, Value)>, key: string, default: Value): Value {
    Lookup(entries, key).GetOr(default)
  }

  /**
    * The items a Python `for` loop visits: a list its elements, a dict its keys,
    * a string its one-character strings; anything else raises `TypeError`.
    */
  function Iterate(v: Value): (r: Option<seq<Value>>)
    ensures v.VList? ==> r == Some(v.items)
    ensures r.Some? ==> v.VList? || v.VDict? || v.VStr?
    ensures v.VDict? ==> r.Some? && |r.value| == |v.entries|
                         && forall i :: 0 <= i < |v.entries| ==> r.value[i] == VStr(v.entries[i].0)
    ensures v.VStr? ==> r.Some? && |r.value| == |v.s| && forall i :: 0 <= i < |v.s| ==> r.value[i] == VStr([v.s[i]])
  {
    match v
    case VList(items) => Some(items)
    case VDict(entries) => Some(seq(|entries|, i requires 0 <= i < |entries| => VStr(entries[i].0)))
    case VStr(s) => Some(seq(|s|, i requires 0 <= i < |s| => VStr([s[i]])))
    case _ => None
  }
}
