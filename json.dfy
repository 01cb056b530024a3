/** JSON values as Python's `json` module produces them: `int` and `float` numbers are
    kept apart, and an object is an association list in insertion order (a Python dict).
    The parser and the serialiser themselves (RFC 8259) are not modelled; they reach the
    other modules as function parameters of the types below. */
module Json {
  import opened Common

  datatype Json =
    | Null
    | Bool(b: bool)
    | Int(i: int)
    | Float(r: real)
    | Str(s: string)
    | Arr(items: seq<Json>)
    | Obj(fields: seq<(string, Json)>)

  type Fields = seq<(string, Json)>

  /** What `json.loads` does with a text: a value, or a `JSONDecodeError` with its message. */
  datatype Parsed = Parsed(value: Json) | Malformed(message: string)

  /** `json.loads`, left abstract. */
  type Parser = string -> Parsed

  /** `json.dumps`, left abstract. */
  type Serializer = Json -> string

  /** `d.get(k)` on a dict. Were a key bound twice, the last binding is the one seen, as
      `json.loads` keeps the last of two equal keys. */
  function Get(fields: Fields, k: string): (r: Option<Json>)
  {
    if fields == [] then None
    else if fields[|fields| - 1].0 == k then Some(fields[|fields| - 1].1)
    else Get(fields[..|fields| - 1], k)
  }

  /** A key is seen exactly when some pair binds it, and what is seen is one of its
      bindings. */
  lemma {:induction false} GetFound(fields: Fields, k: string)
    ensures Get(fields, k).Some? <==> exists i | 0 <= i < |fields| :: fields[i].0 == k
    ensures Get(fields, k).Some? ==> exists i | 0 <= i < |fields| :: fields[i] == (k, Get(fields, k).value)
  {
    var n := |fields|;
    if n > 0 && fields[n - 1].0 != k {
      var front := fields[..n - 1];
      GetFound(front, k);
      if Get(front, k).Some? {
        var j :| 0 <= j < n - 1 && front[j] == (k, Get(front, k).value);
        assert fields[j] == front[j];
      } else {
        forall i | 0 <= i < n ensures fields[i].0 != k {
          if i < n - 1 {
            assert fields[i] == front[i];
          }
        }
      }
    }
  }

  /** `k in d`. */
  predicate HasKey(fields: Fields, k: string)
  {
    Get(fields, k).Some?
  }

  /** `d.get(k, default)`. */
  function GetOr(fields: Fields, k: string, default: Json): (r: Json)
    ensures HasKey(fields, k) ==> r == Get(fields, k).value
    ensures !HasKey(fields, k) ==> r == default
  {
    match Get(fields, k)
    case Some(v) => v
    case None => default
  }

  /** `d[k] = v`: the value is replaced in place when `k` is bound, else the pair is appended. */
  function Put(fields: Fields, k: string, v: Json): (r: Fields)
    ensures Get(r, k) == Some(v)
    ensures forall k' | k' != k :: Get(r, k') == Get(fields, k')
  {
    if HasKey(fields, k) then
      var r := seq(|fields|, i requires 0 <= i < |fields| => if fields[i].0 == k then (k, v) else fields[i]);
      PutInPlace(fields, k, v, r);
      r
    else
      var r := fields + [(k, v)];
      assert r[..|r| - 1] == fields;
      r
  }

  lemma {:induction false} PutInPlace(fields: Fields, k: string, v: Json, r: Fields)
    requires HasKey(fields, k)
    requires |r| == |fields|
    requires forall i | 0 <= i < |fields| :: r[i] == if fields[i].0 == k then (k, v) else fields[i]
    ensures Get(r, k) == Some(v)
    ensures forall k' | k' != k :: Get(r, k') == Get(fields, k')
  {
    var n := |fields|;
    if fields[n - 1].0 != k {
      assert r[n - 1] == fields[n - 1];
      assert HasKey(fields[..n - 1], k);
      PutInPlace(fields[..n - 1], k, v, r[..n - 1]);
    } else if n > 1 {
      forall k' | k' != k ensures Get(r, k') == Get(fields, k') {
        var pf, pr := fields[..n - 1], r[..n - 1];
        if HasKey(pf, k) {
          PutInPlace(pf, k, v, pr);
        } else {
          assert pf == pr by {
            forall i | 0 <= i < n - 1 ensures pf[i] == pr[i] {
              assert pf[i].0 != k by { GetFound(pf, k); }
            }
          }
        }
      }
    }
  }

  /** `d.update(other)`: every binding of `other` is put into `d`, left to right. */
  function Update(fields: Fields, other: Fields): (r: Fields)
    ensures forall k | HasKey(other, k) :: Get(r, k) == Get(other, k)
    ensures forall k | !HasKey(other, k) :: Get(r, k) == Get(fields, k)
    decreases |other|
  {
    if other == [] then fields
    else
      var r := Update(Put(fields, other[0].0, other[0].1), other[1..]);
      forall k ensures Get(other, k) == if HasKey(other[1..], k) then Get(other[1..], k)
                                      else if other[0].0 == k then Some(other[0].1) else None {
        GetFront(other, k);
      }
      r
  }

  /** How the last binding of `k` splits over the first pair and the rest. */
  lemma {:induction false} GetFront(fields: Fields, k: string)
    requires fields != []
    ensures Get(fields, k) == if HasKey(fields[1..], k) then Get(fields[1..], k)
                              else if fields[0].0 == k then Some(fields[0].1) else None
  {
    var n := |fields|;
    if n > 1 && fields[n - 1].0 != k {
      assert fields[..n - 1][1..] == fields[1..][..n - 2];
      GetFront(fields[..n - 1], k);
    }
  }

  /** A key bound at `i` and nowhere after it is seen with that binding. */
  lemma {:induction false} GetAt(fields: Fields, i: nat)
    requires i < |fields|
    requires forall j | i < j < |fields| :: fields[j].0 != fields[i].0
    ensures Get(fields, fields[i].0) == Some(fields[i].1)
  {
    var n := |fields|;
    if i < n - 1 {
      var front := fields[..n - 1];
      assert front[i] == fields[i];
      GetAt(front, i);
    }
  }

  /** Python truthiness: `None`, `False`, zero, and empty strings, lists and dicts are falsy. */
  predicate Truthy(j: Json)
  {
    match j
    case Null => false
    case Bool(b) => b
    case Int(i) => i != 0
    case Float(r) => r != 0.0
    case Str(s) => s != ""
    case Arr(items) => items != []
    case Obj(fields) => fields != []
  }

  /** Python's `x or default`. */
  function OrElse(j: Json, default: Json): (r: Json)
    ensures Truthy(j) ==> r == j
    ensures !Truthy(j) ==> r == default
  {
    if Truthy(j) then j else default
  }

  /** `str()` of a JSON value inside an f-string: a string is itself, anything else is
      shown by the abstract `show`. */
  function Display(j: Json, show: Json -> string): (r: string)
    ensures j.Str? ==> r == j.s
  {
    if j.Str? then j.s else show(j)
  }
}
