/** The decoded JSON an HTTP reply carries (`response.json()`), and what the weather
    and Pokémon servers do with it in Python: truth value, `str()`, `d[key]`,
    `d.get(key, default)`, `key in d`, iteration, `x[:n]` and `sep.join(xs)`.
    Numbers are integers; floats are not modelled. */
module Json {
  import opened Strings
  import opened Exceptions

  datatype Json =
    | JNull
    | JBool(b: bool)
    | JNumber(n: int)
    | JString(s: string)
    | JArray(items: seq<Json>)
    | JObject(fields: seq<(string, Json)>)

  /** `type(j).__name__`. */
  function TypeName(j: Json): string
  {
    match j
    case JNull => "NoneType"
    case JBool(_) => "bool"
    case JNumber(_) => "int"
    case JString(_) => "str"
    case JArray(_) => "list"
    case JObject(_) => "dict"
  }

  /** `bool(j)`: None, False, 0 and empty strings, lists and dicts are false. */
  predicate Truthy(j: Json)
  {
    match j
    case JNull => false
    case JBool(b) => b
    case JNumber(n) => n != 0
    case JString(s) => s != ""
    case JArray(items) => items != []
    case JObject(fields) => fields != []
  }

  /** The keys of a decoded object, each once, in the order they first occur: the
      keys of the dict `json.loads` builds. */
  function Keys(fields: seq<(string, Json)>): (ks: seq<string>)
    ensures forall k :: k in ks <==> Get(fields, k).Some?
    ensures forall i, j :: 0 <= i < j < |ks| ==> ks[i] != ks[j]
  {
    if fields == [] then []
    else
      var ks := Keys(fields[..|fields| - 1]);
      if fields[|fields| - 1].0 in ks then ks else ks + [fields[|fields| - 1].0]
  }

  /** The position of the first occurrence of `key`: where the dict puts it. */
  function FirstIndex(fields: seq<(string, Json)>, key: string): (i: nat)
    requires Get(fields, key).Some?
    ensures i < |fields| && fields[i].0 == key
    ensures forall n :: 0 <= n < i ==> fields[n].0 != key
  {
    var init := fields[..|fields| - 1];
    if Get(init, key).Some? then FirstIndex(init, key) else |fields| - 1
  }

  /** `Keys` lists the keys in the order of their first occurrences. */
  lemma {:induction false} KeysOrder(fields: seq<(string, Json)>)
    ensures forall i, j :: 0 <= i < j < |Keys(fields)| ==>
      FirstIndex(fields, Keys(fields)[i]) < FirstIndex(fields, Keys(fields)[j])
  {
    if fields != [] {
      var init := fields[..|fields| - 1];
      KeysOrder(init);
      assert forall k :: k in Keys(init) ==> FirstIndex(fields, k) == FirstIndex(init, k);
    }
  }

  /** The position of the occurrence of `key` whose value the dict keeps: the last. */
  function LastIndex(fields: seq<(string, Json)>, key: string): (i: nat)
    requires Get(fields, key).Some?
    ensures i < |fields| && fields[i] == (key, Get(fields, key).value)
  {
    if fields[|fields| - 1].0 == key then |fields| - 1 else LastIndex(fields[..|fields| - 1], key)
  }

  /** `repr(j)`, without the escaping of quotes and control characters. A dict shows
      each key once, in first-occurrence order, with the value it keeps. */
  function Repr(j: Json): string
    decreases j
  {
    match j
    case JNull => "None"
    case JBool(b) => if b then "True" else "False"
    case JNumber(n) => IntToString(n)
    case JString(s) => Quote(s)
    case JArray(items) => "[" + Join(", ", seq(|items|, i requires 0 <= i < |items| => Repr(items[i]))) + "]"
    case JObject(fields) =>
      var ks := Keys(fields);
      "{" + Join(", ", seq(|ks|, i requires 0 <= i < |ks| =>
                             Quote(ks[i]) + ": " + Repr(fields[LastIndex(fields, ks[i])].1))) + "}"
  }

  /** A key repeated in the decoded text is shown once, with its last value. */
  lemma ReprRepeatedKey()
    ensures PyStr(JObject([("k", JNumber(1)), ("k", JNumber(2))])) == "{'k': 2}"
  {
    var fields := [("k", JNumber(1)), ("k", JNumber(2))];
    assert fields[..1] == [("k", JNumber(1))];
    assert Keys(fields) == ["k"];
    assert LastIndex(fields, "k") == 1;
    assert Repr(JNumber(2)) == "2";
  }

  /** `str(j)`, as an f-string shows it: a string is itself, anything else its repr. */
  function PyStr(j: Json): (r: string)
    ensures j.JString? ==> r == j.s
  {
    if j.JString? then j.s else Repr(j)
  }

  /** The value a dict holds for `key`: a JSON object that repeats a key keeps the
      last value, as `json.loads` does. */
  function Get(fields: seq<(string, Json)>, key: string): (r: Option<Json>)
    ensures r.None? <==> forall i :: 0 <= i < |fields| ==> fields[i].0 != key
    ensures r.Some? ==> exists i :: 0 <= i < |fields| && fields[i] == (key, r.value) &&
                                    (forall k :: i < k < |fields| ==> fields[k].0 != key)
  {
    if fields == [] then None
    else if fields[|fields| - 1].0 == key then Some(fields[|fields| - 1].1)
    else
      var init := fields[..|fields| - 1];
      var r := Get(init, key);
      assert r.Some? ==> exists i :: 0 <= i < |init| && init[i] == (key, r.value) &&
                                     (forall k :: i < k < |init| ==> init[k].0 != key);
      assert forall i :: 0 <= i < |init| ==> init[i] == fields[i];
      r
  }

  /** `j[key]` with a string key. */
  function Subscript(j: Json, key: string): (r: Result<Json>)
    ensures r.Ok? <==> j.JObject? && Get(j.fields, key).Some?
    ensures r.Ok? ==> r.value == Get(j.fields, key).value
    ensures j.JObject? && r.Err? ==> r.error == KeyError(key)
  {
    match j
    case JObject(fields) =>
      (match Get(fields, key)
       case Some(v) => Ok(v)
       case None => Err(KeyError(key)))
    case JArray(_) => Err(TypeError("list indices must be integers or slices, not str"))
    case JString(_) => Err(TypeError("string indices must be integers, not 'str'"))
    case _ => Err(TypeError(Quote(TypeName(j)) + " object is not subscriptable"))
  }

  /** `j.get(key, default)`: only a dict has `get`. */
  function GetOr(j: Json, key: string, default: Json): (r: Result<Json>)
    ensures r.Ok? <==> j.JObject?
    ensures r.Ok? ==> r.value == if Get(j.fields, key).Some? then Get(j.fields, key).value else default
  {
    if j.JObject? then Ok(match Get(j.fields, key) case Some(v) => v case None => default)
    else Err(AttributeError(Quote(TypeName(j)) + " object has no attribute 'get'"))
  }

  predicate IsSubstring(k: string, s: string)
  {
    exists i :: 0 <= i <= |s| && StartsWith(s[i..], k)
  }

  /** `key in j` for a string key: a dict's keys, a list's items, a string's substrings. */
  function Contains(j: Json, key: string): (r: Result<bool>)
    ensures j.JObject? ==> r == Ok(Get(j.fields, key).Some?)
    ensures r.Err? <==> !(j.JObject? || j.JArray? || j.JString?)
  {
    match j
    case JObject(fields) => Ok(Get(fields, key).Some?)
    case JArray(items) => Ok(JString(key) in items)
    case JString(s) => Ok(IsSubstring(key, s))
    case _ => Err(TypeError("argument of type " + Quote(TypeName(j)) + " is not iterable"))
  }

  /** The one-character strings of `s`, as iterating over it yields them. */
  function Chars(s: string): (r: seq<Json>)
    ensures |r| == |s|
  {
    seq(|s|, i requires 0 <= i < |s| => JString([s[i]]))
  }

  /** `for x in j`: a list's items, a dict's keys (each once), a string's characters. */
  function Elements(j: Json): (r: Result<seq<Json>>)
    ensures j.JArray? ==> r == Ok(j.items)
    ensures j.JObject? ==> r.Ok? && |r.value| == |Keys(j.fields)|
    ensures j.JObject? ==> forall i :: 0 <= i < |Keys(j.fields)| ==> r.value[i] == JString(Keys(j.fields)[i])
    ensures r.Err? <==> !(j.JObject? || j.JArray? || j.JString?)
  {
    match j
    case JArray(items) => Ok(items)
    case JObject(fields) => var ks := Keys(fields); Ok(seq(|ks|, i requires 0 <= i < |ks| => JString(ks[i])))
    case JString(s) => Ok(Chars(s))
    case _ => Err(TypeError(Quote(TypeName(j)) + " object is not iterable"))
  }

  /** `for x in j[:n]`: at most the first `n` items of a list or characters of a string. */
  function Head(j: Json, n: nat): (r: Result<seq<Json>>)
    ensures j.JArray? ==> r == Ok(if |j.items| <= n then j.items else j.items[..n])
    ensures r.Ok? ==> |r.value| <= n
    ensures r.Err? <==> !(j.JArray? || j.JString?)
  {
    match j
    case JArray(items) => Ok(if |items| <= n then items else items[..n])
    case JString(s) => Ok(Chars(if |s| <= n then s else s[..n]))
    case JObject(_) => Err(TypeError("unhashable type: 'slice'"))
    case _ => Err(TypeError(Quote(TypeName(j)) + " object is not subscriptable"))
  }

  /** The index of the first item that is not a string, or `|items|`. */
  function FirstNonString(items: seq<Json>): (k: nat)
    ensures k <= |items|
    ensures forall i :: 0 <= i < k ==> items[i].JString?
    ensures k < |items| ==> !items[k].JString?
  {
    if items == [] || !items[0].JString? then 0 else 1 + FirstNonString(items[1..])
  }

  /** `sep.join(items)`: every item must be a string; the first one that is not is
      named in the TypeError. */
  function JoinStrings(sep: string, items: seq<Json>): (r: Result<string>)
    ensures r.Ok? <==> forall i :: 0 <= i < |items| ==> items[i].JString?
    ensures r.Ok? ==> r.value == Join(sep, seq(|items|, i requires 0 <= i < |items| => items[i].s))
  {
    var k := FirstNonString(items);
    if k == |items| then Ok(Join(sep, seq(|items|, i requires 0 <= i < |items| => items[i].s)))
    else Err(TypeError("sequence item " + IntToString(k) + ": expected str instance, " + TypeName(items[k]) + " found"))
  }
}
