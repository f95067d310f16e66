/** An abstract JSON value, as `json.loads` produces it and as Supabase
    stores it, together with the Python operations the backend applies to
    such values: truthiness (`x or y`), key lookup (`d.get(k)`) and the
    `isinstance` tests. */
module Json {
  import opened Wrappers

  /** Objects keep their entries in insertion order (a Python dict);
      `json.loads` never yields two entries with the same key. */
  datatype Json =
    | JNull
    | JBool(b: bool)
    | JNum(n: real)
    | JStr(s: string)
    | JArr(items: seq<Json>)
    | JObj(fields: seq<(string, Json)>)

  /** Python truthiness: None, False, 0, "", [] and {} are falsy. */
  predicate Truthy(j: Json) {
    match j
    case JNull => false
    case JBool(b) => b
    case JNum(n) => n != 0.0
    case JStr(s) => s != ""
    case JArr(items) => items != []
    case JObj(fields) => fields != []
  }

  /** `k in d` for a dict `d` given by its entries. */
  predicate HasKey(fields: seq<(string, Json)>, k: string) {
    exists i :: 0 <= i < |fields| && fields[i].0 == k
  }

  /** `d[k]` when the key is present: the value of the first entry with key `k`. */
  function Lookup(fields: seq<(string, Json)>, k: string): (r: Option<Json>)
    ensures r.Some? <==> HasKey(fields, k)
    ensures r.Some? ==> exists i :: 0 <= i < |fields| && fields[i] == (k, r.value)
  {
    if fields == [] then None
    else if fields[0].0 == k then Some(fields[0].1)
    else
      var rest := Lookup(fields[1..], k);
      assert HasKey(fields, k) <==> HasKey(fields[1..], k) by {
        if HasKey(fields, k) {
          var i :| 0 <= i < |fields| && fields[i].0 == k;
          assert fields[1..][i - 1].0 == k;
        }
        if HasKey(fields[1..], k) {
          var i :| 0 <= i < |fields[1..]| && fields[1..][i].0 == k;
          assert fields[i + 1].0 == k;
        }
      }
      if rest.Some? then
        var i :| 0 <= i < |fields[1..]| && fields[1..][i] == (k, rest.value);
        assert fields[i + 1] == (k, rest.value);
        rest
      else rest
  }

  /** `d.get(k, default)`. */
  function Get(fields: seq<(string, Json)>, k: string, default: Json): (r: Json)
    ensures HasKey(fields, k) ==> Lookup(fields, k) == Some(r)
    ensures !HasKey(fields, k) ==> r == default
  {
    match Lookup(fields, k)
    case Some(v) => v
    case None => default
  }
}
