/**
 * JSON values as `json.loads` hands them to the Python code, and the two
 * Python operations the pipeline applies to them: `obj[key]` and `for x in v`.
 */
module Json {
  import opened Wrappers

  /** A parsed JSON document. Python keeps `int` and `float` apart, so does this. */
  datatype Json =
    | JNull
    | JBool(b: bool)
    | JInt(i: int)
    | JFloat(f: real)
    | JStr(s: string)
    | JArr(items: seq<Json>)
    | JObj(fields: seq<(string, Json)>)

  /** Index of the last field named `key`, or -1 when there is none. */
  function LastIndex(fields: seq<(string, Json)>, key: string): (r: int)
    ensures -1 <= r < |fields|
    ensures r >= 0 ==> fields[r].0 == key
    ensures forall j :: r < j < |fields| ==> fields[j].0 != key
  {
    if |fields| == 0 then -1
    else if fields[|fields| - 1].0 == key then |fields| - 1
    else LastIndex(fields[..|fields| - 1], key)
  }

  /**
   * `d[key]` on the dict built from `fields`. `json.loads` keeps the LAST
   * binding of a repeated key, so the lookup returns the last matching field.
   */
  function Lookup(fields: seq<(string, Json)>, key: string): (r: Option<Json>)
    ensures r.None? <==> forall i :: 0 <= i < |fields| ==> fields[i].0 != key
    ensures r.Some? ==> exists i :: 0 <= i < |fields| && fields[i] == (key, r.value) &&
                          forall j :: i < j < |fields| ==> fields[j].0 != key
  {
    var i := LastIndex(fields, key);
    if i < 0 then None else Some(fields[i].1)
  }

  /** In an object whose keys are distinct, a key finds its own field. */
  lemma LookupDistinct(fields: seq<(string, Json)>, i: int)
    requires 0 <= i < |fields|
    requires forall j :: 0 <= j < |fields| && j != i ==> fields[j].0 != fields[i].0
    ensures Lookup(fields, fields[i].0) == Some(fields[i].1)
  {
  }

  /** `v[key]` for a string key: defined on objects only (KeyError / TypeError otherwise). */
  function Get(v: Json, key: string): (r: Option<Json>)
    ensures r.Some? ==> v.JObj?
  {
    if v.JObj? then Lookup(v.fields, key) else None
  }

  /** Index of the first field named `key`, or `|fields|` when there is none. */
  function FirstIndex(fields: seq<(string, Json)>, key: string): (r: nat)
    ensures r <= |fields|
    ensures r < |fields| ==> fields[r].0 == key
    ensures forall j :: 0 <= j < r ==> fields[j].0 != key
  {
    if |fields| == 0 then 0
    else if fields[0].0 == key then 0
    else 1 + FirstIndex(fields[1..], key)
  }

  /**
   * The keys of the dict `json.loads` builds from `fields`: each key once, in
   * the order of its first occurrence (a repeated key keeps its first place).
   */
  function DistinctKeys(fields: seq<(string, Json)>): (r: seq<string>)
    ensures forall a, b :: 0 <= a < b < |r| ==> r[a] != r[b]
    ensures forall x :: x in r <==> exists i :: 0 <= i < |fields| && fields[i].0 == x
    ensures forall a, b :: 0 <= a < b < |r| ==> FirstIndex(fields, r[a]) < FirstIndex(fields, r[b])
  {
    if |fields| == 0 then []
    else
      var n := |fields| - 1;
      var init := DistinctKeys(fields[..n]);
      var key := fields[n].0;
      assert forall i :: 0 <= i < n ==> fields[..n][i] == fields[i];
      FirstIndexPrefix(fields, n);
      forall x | x in init
        ensures FirstIndex(fields[..n], x) < n
      {
        var i :| 0 <= i < n && fields[i].0 == x;
        assert fields[..n][i].0 == x;
      }
      if key in init then init
      else
        assert FirstIndex(fields, key) == n;
        init + [key]
  }

  /** A key that occurs among the first `n` fields is first found there. */
  lemma {:induction false} FirstIndexPrefix(fields: seq<(string, Json)>, n: nat)
    requires n <= |fields|
    ensures forall key :: FirstIndex(fields[..n], key) < n ==> FirstIndex(fields, key) == FirstIndex(fields[..n], key)
  {
    forall key | FirstIndex(fields[..n], key) < n
      ensures FirstIndex(fields, key) == FirstIndex(fields[..n], key)
    {
      var i := FirstIndex(fields[..n], key);
      var j := FirstIndex(fields, key);
      assert fields[i].0 == key;
      assert j <= i;
      assert forall t :: 0 <= t < j ==> fields[..n][t].0 != key;
    }
  }

  /**
   * The values `for x in v` yields: the items of a list, the one-character
   * strings of a string, the keys of a dict. Other values are not iterable.
   */
  function Elements(v: Json): (r: Option<seq<Json>>)
    ensures r.Some? <==> v.JArr? || v.JStr? || v.JObj?
    ensures v.JArr? ==> r == Some(v.items)
    ensures v.JStr? ==> |r.value| == |v.s| && forall k :: 0 <= k < |v.s| ==> r.value[k] == JStr([v.s[k]])
    ensures v.JObj? ==> |r.value| == |DistinctKeys(v.fields)| &&
                        forall k :: 0 <= k < |r.value| ==> r.value[k] == JStr(DistinctKeys(v.fields)[k])
  {
    match v
    case JArr(items) => Some(items)
    case JStr(s) => Some(seq(|s|, k requires 0 <= k < |s| => JStr([s[k]])))
    case JObj(fields) =>
      var keys := DistinctKeys(fields);
      Some(seq(|keys|, k requires 0 <= k < |keys| => JStr(keys[k])))
    case _ => None
  }

  /** The keys of an object, in insertion order. */
  function Keys(v: Json): (r: seq<string>)
    ensures v.JObj? ==> |r| == |v.fields| && forall k :: 0 <= k < |r| ==> r[k] == v.fields[k].0
    ensures !v.JObj? ==> r == []
  {
    if v.JObj? then seq(|v.fields|, k requires 0 <= k < |v.fields| => v.fields[k].0) else []
  }
}
