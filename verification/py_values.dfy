/**
 The JSON-like Python values the input checks receive: `str`, `int`, `float`,
 `bool`, `None`, `list` and `dict` with string keys. A dict is its list of
 items in insertion order, which is the order Python iterates it in.
 */
module PyValues {
  import opened Wrappers

  datatype Value =
    | VStr(s: string)
    | VInt(i: int)
    | VFloat(f: real)
    | VBool(b: bool)
    | VNone
    | VList(items: seq<Value>)
    | VDict(entries: seq<(string, Value)>)

  /** The items of a Python dict, in insertion order. */
  type Dict = seq<(string, Value)>

  /** The keys of a dict, in iteration order. */
  function Keys(d: Dict): (ks: seq<string>)
    ensures |ks| == |d|
    ensures forall i | 0 <= i < |d| :: ks[i] == d[i].0
  {
    if |d| == 0 then [] else [d[0].0] + Keys(d[1..])
  }

  /** Python's `k in d`. */
  predicate HasKey(d: Dict, k: string)
  {
    Lookup(d, k).Some?
  }

  /** Every Python dict has pairwise distinct keys. */
  predicate UniqueKeys(d: Dict)
  {
    forall i, j | 0 <= i < j < |d| :: d[i].0 != d[j].0
  }

  /** Python's `d[k]`, with `None` where Python raises KeyError. The first
      entry with key `k` is the only one when the keys are unique. */
  function Lookup(d: Dict, k: string): Option<Value>
  {
    if |d| == 0 then None
    else if d[0].0 == k then Some(d[0].1)
    else Lookup(d[1..], k)
  }

  /** Looking up in a dict with one more item in front. */
  lemma LookupCons(e: (string, Value), d: Dict, k: string)
    ensures Lookup([e] + d, k) == if e.0 == k then Some(e.1) else Lookup(d, k)
    ensures Keys([e] + d) == [e.0] + Keys(d)
  {
  }

  /** Python's `d.get(k, default)`. */
  function Get(d: Dict, k: string, default: Value): (r: Value)
    ensures HasKey(d, k) ==> Lookup(d, k) == Some(r)
    ensures !HasKey(d, k) ==> r == default
  {
    match Lookup(d, k)
    case Some(v) => v
    case None => default
  }

  /** Python's `d[k] = v`: an existing key keeps its place and takes the new
      value; a new key is appended at the end. */
  function Set(d: Dict, k: string, v: Value): (r: Dict)
    ensures Lookup(r, k) == Some(v)
    ensures forall j | j != k :: Lookup(r, j) == Lookup(d, j)
  {
    if |d| == 0 then [(k, v)]
    else if d[0].0 == k then [(k, v)] + d[1..]
    else
      var r := [d[0]] + Set(d[1..], k, v);
      assert forall i | 1 <= i < |d| :: d[i] == d[1..][i - 1];
      r
  }

  /** `d[k] = v` for a key `d` does not have appends the new item at the end. */
  lemma {:induction false} SetAppends(d: Dict, k: string, v: Value)
    requires !HasKey(d, k)
    ensures Set(d, k, v) == d + [(k, v)]
  {
    if |d| > 0 {
      SetAppends(d[1..], k, v);
      assert d == [d[0]] + d[1..];
    }
  }
}
