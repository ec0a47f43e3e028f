/**
 * Values exchanged by the client and the server: JavaScript values as the Vue code
 * sees them and JSON/Python values as the Django views build them. Objects and
 * dicts are ordered association lists, because both JavaScript objects (for the
 * non-numeric keys used here) and Python dicts keep insertion order.
 */
module Json {
  import opened Wrappers
  import Text

  datatype Value =
    | Undefined
    | Null
    | Bool(b: bool)
    | Num(n: int)
    | Str(s: string)
    | Arr(items: seq<Value>)
    | Obj(fields: seq<(string, Value)>)

  /** A JavaScript object literal or a Python dict with string keys. */
  type Dict = seq<(string, Value)>

  function Keys<V>(d: seq<(string, V)>): (ks: seq<string>)
    ensures |ks| == |d|
    ensures forall i :: 0 <= i < |d| ==> ks[i] == d[i].0
  {
    if d == [] then [] else [d[0].0] + Keys(d[1..])
  }

  /** Every key occurs once, as in any dict or object. */
  predicate Unique<V>(d: seq<(string, V)>)
  {
    forall i, j :: 0 <= i < j < |d| ==> d[i].0 != d[j].0
  }

  /** `k in d` and `d[k]`. */
  function Lookup<V>(d: seq<(string, V)>, k: string): (r: Option<V>)
    ensures r.None? <==> k !in Keys(d)
    ensures r.Some? ==> (k, r.value) in d
  {
    if d == [] then None
    else if d[0].0 == k then Some(d[0].1)
    else Lookup(d[1..], k)
  }

  /** The assignment `d[k] = v`: an existing key keeps its position, a new key goes last. */
  function Set<V>(d: seq<(string, V)>, k: string, v: V): seq<(string, V)>
  {
    if d == [] then [(k, v)]
    else if d[0].0 == k then [(k, v)] + d[1..]
    else [d[0]] + Set(d[1..], k, v)
  }

  /** The first entry answers a lookup of its own key. */
  lemma LookupFirst<V>(d: seq<(string, V)>, k: string)
    requires d != [] && d[0].0 == k
    ensures Lookup(d, k) == Some(d[0].1)
  {
  }

  /** The keys of a four-entry literal. */
  lemma KeysOfFour<V>(k0: string, v0: V, k1: string, v1: V, k2: string, v2: V, k3: string, v3: V)
    ensures Keys([(k0, v0), (k1, v1), (k2, v2), (k3, v3)]) == [k0, k1, k2, k3]
  {
    var ks := Keys([(k0, v0), (k1, v1), (k2, v2), (k3, v3)]);
    assert ks[0] == k0 && ks[1] == k1 && ks[2] == k2 && ks[3] == k3;
  }

  /** A key different from each of four keys is not among them. */
  lemma NotAmongFour(k: string, k0: string, k1: string, k2: string, k3: string)
    requires k != k0 && k != k1 && k != k2 && k != k3
    ensures k !in [k0, k1, k2, k3]
  {
  }

  /** The last of four entries answers its key when the other three keys differ from it. */
  lemma LookupFourth<V>(k0: string, v0: V, k1: string, v1: V, k2: string, v2: V, k3: string, v3: V)
    requires k3 != k0 && k3 != k1 && k3 != k2
    ensures Lookup([(k0, v0), (k1, v1), (k2, v2), (k3, v3)], k3) == Some(v3)
  {
    var d := [(k0, v0), (k1, v1), (k2, v2), (k3, v3)];
    LookupRest(d, k3);
    LookupRest(d[1..], k3);
    LookupRest(d[1..][1..], k3);
    LookupFirst(d[1..][1..][1..], k3);
  }

  /** An entry under another key does not answer a lookup of `k`. */
  lemma LookupRest<V>(d: seq<(string, V)>, k: string)
    requires d != [] && d[0].0 != k
    ensures Lookup(d, k) == Lookup(d[1..], k)
  {
  }

  /** After `d[k] = v`, `k` maps to `v` and every other key to what it mapped to before. */
  lemma {:induction false} SetLookup<V>(d: seq<(string, V)>, k: string, v: V, j: string)
    ensures Lookup(Set(d, k, v), j) == if j == k then Some(v) else Lookup(d, j)
  {
    if d != [] && d[0].0 != k {
      SetLookup(d[1..], k, v, j);
    }
  }

  /** `d[k] = v` keeps the key order and adds `k` at the end when it is new. */
  lemma {:induction false} SetKeys<V>(d: seq<(string, V)>, k: string, v: V)
    ensures Keys(Set(d, k, v)) == if k in Keys(d) then Keys(d) else Keys(d) + [k]
  {
    if d == [] {
    } else if d[0].0 == k {
      assert Keys(d)[0] == k;
      assert Keys(Set(d, k, v)) == Keys(d);
    } else {
      SetKeys(d[1..], k, v);
      assert Keys(d) == [d[0].0] + Keys(d[1..]);
    }
  }

  /** `d[k] = v` never repeats a key. */
  lemma SetUnique<V>(d: seq<(string, V)>, k: string, v: V)
    requires Unique(d)
    ensures Unique(Set(d, k, v))
  {
    SetKeys(d, k, v);
    var r := Set(d, k, v);
    assert forall i :: 0 <= i < |r| ==> r[i].0 == Keys(r)[i];
    assert forall i :: 0 <= i < |d| ==> d[i].0 == Keys(d)[i];
  }

  /**
   * The dict display `{**d, **p}` (Python) or spread `{...d, ...p}` (JavaScript):
   * the entries of `p` are assigned into `d` from left to right.
   */
  function Merge<V>(d: seq<(string, V)>, p: seq<(string, V)>): seq<(string, V)>
    decreases |p|
  {
    if p == [] then d else Merge(Set(d, p[0].0, p[0].1), p[1..])
  }

  /** A merge keeps the keys of `d` first and in order, and contains exactly the keys of both. */
  lemma {:induction false} MergeKeys<V>(d: seq<(string, V)>, p: seq<(string, V)>)
    ensures |Keys(d)| <= |Keys(Merge(d, p))| && Keys(Merge(d, p))[..|Keys(d)|] == Keys(d)
    ensures forall j :: j in Keys(Merge(d, p)) <==> j in Keys(d) || j in Keys(p)
    decreases |p|
  {
    if p != [] {
      var d' := Set(d, p[0].0, p[0].1);
      SetKeys(d, p[0].0, p[0].1);
      MergeKeys(d', p[1..]);
      assert Keys(p) == [p[0].0] + Keys(p[1..]);
      assert Keys(d')[..|Keys(d)|] == Keys(d);
    }
  }

  /** A key the overriding dict does not mention keeps its value from `d`. */
  lemma {:induction false} MergeKeeps<V>(d: seq<(string, V)>, p: seq<(string, V)>, j: string)
    requires j !in Keys(p)
    ensures Lookup(Merge(d, p), j) == Lookup(d, j)
    decreases |p|
  {
    if p != [] {
      assert Keys(p) == [p[0].0] + Keys(p[1..]);
      SetLookup(d, p[0].0, p[0].1, j);
      MergeKeeps(Set(d, p[0].0, p[0].1), p[1..], j);
    }
  }

  /** A key of the overriding dict takes that dict's value. */
  lemma {:induction false} MergeOverrides<V>(d: seq<(string, V)>, p: seq<(string, V)>, j: string)
    requires Unique(p) && j in Keys(p)
    ensures Lookup(Merge(d, p), j) == Lookup(p, j)
    decreases |p|
  {
    assert Keys(p) == [p[0].0] + Keys(p[1..]);
    var d' := Set(d, p[0].0, p[0].1);
    if j == p[0].0 {
      assert j !in Keys(p[1..]);
      SetLookup(d, p[0].0, p[0].1, j);
      MergeKeeps(d', p[1..], j);
    } else {
      MergeOverrides(d', p[1..], j);
    }
  }

  /** Merging into a dict without repeated keys gives a dict without repeated keys. */
  lemma {:induction false} MergeUnique<V>(d: seq<(string, V)>, p: seq<(string, V)>)
    requires Unique(d)
    ensures Unique(Merge(d, p))
    decreases |p|
  {
    if p != [] {
      SetUnique(d, p[0].0, p[0].1);
      MergeUnique(Set(d, p[0].0, p[0].1), p[1..]);
    }
  }

  /** What every key of a merge maps to. */
  lemma MergeLookup<V>(d: seq<(string, V)>, p: seq<(string, V)>)
    ensures forall j :: j !in Keys(p) ==> Lookup(Merge(d, p), j) == Lookup(d, j)
    ensures Unique(p) ==> forall j :: j in Keys(p) ==> Lookup(Merge(d, p), j) == Lookup(p, j)
  {
    forall j | j !in Keys(p)
      ensures Lookup(Merge(d, p), j) == Lookup(d, j)
    {
      MergeKeeps(d, p, j);
    }
    if Unique(p) {
      forall j | j in Keys(p)
        ensures Lookup(Merge(d, p), j) == Lookup(p, j)
      {
        MergeOverrides(d, p, j);
      }
    }
  }

  /** JavaScript truthiness (NaN is not modelled: numbers are integers). */
  predicate Truthy(v: Value)
  {
    match v
    case Undefined => false
    case Null => false
    case Bool(b) => b
    case Num(n) => n != 0
    case Str(s) => s != ""
    case Arr(_) => true
    case Obj(_) => true
  }

  /** JavaScript's conversion of a value to a string, as `'...' + v` performs it. */
  function JsString(v: Value): string
    decreases v, 1
  {
    match v
    case Undefined => "undefined"
    case Null => "null"
    case Bool(b) => if b then "true" else "false"
    case Num(n) => Text.IntToDecimal(n)
    case Str(s) => s
    case Arr(items) => JoinElements(v, items)
    case Obj(_) => "[object Object]"
  }

  /** `Array.prototype.join(',')`: undefined and null elements become empty. */
  function JoinElements(whole: Value, items: seq<Value>): string
    requires forall i :: 0 <= i < |items| ==> items[i] < whole
    decreases whole, 0, |items|
  {
    if items == [] then ""
    else
      var first := if items[0].Undefined? || items[0].Null? then "" else JsString(items[0]);
      if |items| == 1 then first else first + "," + JoinElements(whole, items[1..])
  }
}
