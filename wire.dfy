/** The values that travel between the browser pages and the server: JSON
    payloads of Socket.IO events, and URLs with their query strings. */
module Wire {
  import opened Util

  /** A JSON value as the core uses it: strings, booleans and null. */
  datatype Value = Str(s: string) | Bool(b: bool) | Null

  /** A JSON object; a key that is not present reads as undefined. */
  type Payload = map<string, Value>

  /** One emitted Socket.IO event. */
  datatype Event = Event(name: string, payload: Payload)

  /** A URL path with its query parameters in order. */
  datatype Url = Url(path: string, query: seq<(string, string)>)

  /** payload.key; an absent key is modelled by Null (both are falsy). */
  function Get(p: Payload, key: string): Value
  {
    if key in p then p[key] else Null
  }

  /** JavaScript truthiness of a JSON value. */
  predicate Truthy(v: Value)
  {
    match v
    case Str(s) => s != ""
    case Bool(b) => b
    case Null => false
  }

  /** v || fallback. */
  function Or(v: Value, fallback: Value): (r: Value)
    ensures Truthy(v) ==> r == v
    ensures !Truthy(v) ==> r == fallback
  {
    if Truthy(v) then v else fallback
  }

  /** String(v). */
  function JsString(v: Value): string
  {
    match v
    case Str(s) => s
    case Bool(b) => if b then "true" else "false"
    case Null => "null"
  }

  /** URLSearchParams.get: the value of the first parameter with that name. */
  function QueryGet(q: seq<(string, string)>, key: string): Option<string>
  {
    if q == [] then None
    else if q[0].0 == key then Some(q[0].1)
    else QueryGet(q[1..], key)
  }

  /** get finds a name exactly when some parameter carries it, and what it finds is the value
      of such a parameter. */
  lemma {:induction false} QueryGetFinds(q: seq<(string, string)>, key: string)
    ensures QueryGet(q, key).None? <==> forall i :: 0 <= i < |q| ==> q[i].0 != key
    ensures QueryGet(q, key).Some? ==> exists i :: 0 <= i < |q| && q[i] == (key, QueryGet(q, key).value)
  {
    if q != [] && q[0].0 != key {
      QueryGetFinds(q[1..], key);
      if QueryGet(q, key).Some? {
        var i :| 0 <= i < |q| - 1 && q[1..][i] == (key, QueryGet(q, key).value);
        assert q[i + 1] == (key, QueryGet(q, key).value);
      }
      assert (forall i :: 0 <= i < |q| - 1 ==> q[1..][i].0 != key) ==> (forall i :: 0 <= i < |q| ==> q[i].0 != key) by {
        if forall i :: 0 <= i < |q| - 1 ==> q[1..][i].0 != key {
          forall i | 0 <= i < |q| ensures q[i].0 != key {
            if i > 0 { assert q[i] == q[1..][i - 1]; }
          }
        }
      }
    }
  }

  /** Parameters appended after the first occurrence of a name do not change what get returns. */
  lemma {:induction false} QueryGetFirstWins(q: seq<(string, string)>, extra: seq<(string, string)>, key: string)
    requires QueryGet(q, key).Some?
    ensures QueryGet(q + extra, key) == QueryGet(q, key)
  {
    if q[0].0 != key {
      assert (q + extra)[1..] == q[1..] + extra;
      QueryGetFirstWins(q[1..], extra, key);
    }
  }

  /** A name that is absent from the first part is looked up in the rest. */
  lemma {:induction false} QueryGetSkipsAbsent(q: seq<(string, string)>, extra: seq<(string, string)>, key: string)
    requires QueryGet(q, key).None?
    ensures QueryGet(q + extra, key) == QueryGet(extra, key)
  {
    if q == [] {
      assert q + extra == extra;
    } else {
      assert (q + extra)[1..] == q[1..] + extra;
      QueryGetSkipsAbsent(q[1..], extra, key);
    }
  }
}
