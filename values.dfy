/**
 * The JSON-like values the core passes around (Python `Any`), with the handful of
 * Python built-ins the core applies to them: truthiness, `or`, `dict.get`, item
 * assignment, `getattr`, iteration, `str()` and `repr()`.
 */
module Values {
  import opened Text

  datatype Option<+T> = None | Some(value: T)

  /** A computation that either returns or raises an exception with the given text. */
  datatype Result<+T> = Ok(value: T) | Err(error: string)
  {
    predicate IsFailure() { Err? }

    function PropagateFailure<U>(): Result<U>
      requires Err?
    {
      Err(error)
    }

    function Extract(): T
      requires Ok?
    {
      value
    }
  }

  /**
   * A Python value. `Map` is a dict: its items in insertion order, keys distinct.
   * `Float` carries the number and the text `str()` prints for it. `Other` is any
   * other object: its class name, the attributes the core may ask for, and `str(obj)`.
   */
  datatype Value =
    | Str(s: string)
    | Int(i: int)
    | Float(r: real, display: string)
    | Bool(b: bool)
    | Null
    | List(items: seq<Value>)
    | Map(entries: seq<(string, Value)>)
    | Other(typeName: string, attrs: seq<(string, Value)>, display: string)

  type Entries = seq<(string, Value)>

  /** Python's `bool(v)`. */
  predicate Truthy(v: Value)
  {
    match v
    case Str(s) => s != []
    case Int(i) => i != 0
    case Float(r, _) => r != 0.0
    case Bool(b) => b
    case Null => false
    case List(items) => items != []
    case Map(entries) => entries != []
    case Other(_, _, _) => true
  }

  /** Python's `a or b`. */
  function Or(a: Value, b: Value): (r: Value)
    ensures Truthy(a) ==> r == a
    ensures !Truthy(a) ==> r == b
  {
    if Truthy(a) then a else b
  }

  /** An optional text (an environment variable, a keyword argument) as a Python value. */
  function FromOption(o: Option<string>): (r: Value)
    ensures o.None? ==> r == Null
    ensures o.Some? ==> r == Str(o.value)
  {
    match o
    case None => Null
    case Some(s) => Str(s)
  }

  /** An optional text that is set and non-empty. */
  predicate Given(o: Option<string>)
  {
    o.Some? && o.value != []
  }

  predicate HasKey(m: Entries, k: string)
  {
    exists i :: 0 <= i < |m| && m[i].0 == k
  }

  /** `d.get(k)` (None when absent). */
  function Get(m: Entries, k: string): Option<Value>
  {
    if m == [] then None
    else if m[0].0 == k then Some(m[0].1)
    else Get(m[1..], k)
  }

  /** `d.get(k)` finds a value exactly when the key is there, and the value is the key's. */
  lemma {:induction false} GetFound(m: Entries, k: string)
    ensures Get(m, k).Some? <==> HasKey(m, k)
    ensures Get(m, k).Some? ==> (k, Get(m, k).value) in m
  {
    if m != [] && m[0].0 != k {
      GetFound(m[1..], k);
      assert forall i :: 0 < i < |m| ==> m[i] == m[1..][i - 1];
      assert HasKey(m[1..], k) ==> HasKey(m, k);
    }
  }

  /** A dict literal's item `k: v` followed by the rest of the literal. */
  function Item(k: string, v: Value, rest: Entries): Entries
  {
    [(k, v)] + rest
  }

  /** Looking a key up in a literal: the first item answers when it has the key, else the rest does. */
  lemma GetItem(k: string, v: Value, rest: Entries, key: string)
    ensures Get(Item(k, v, rest), key) == if k == key then Some(v) else Get(rest, key)
  {
    assert Item(k, v, rest)[1..] == rest;
  }

  /** `d.get(k, default)`. */
  function GetOr(m: Entries, k: string, default: Value): (r: Value)
    ensures !HasKey(m, k) ==> r == default
    ensures HasKey(m, k) ==> (k, r) in m
  {
    GetFound(m, k);
    match Get(m, k)
    case Some(v) => v
    case None => default
  }

  /**
   * `v[k]` for a string key: the key's value in a dict, and otherwise the text of the
   * exception Python raises (KeyError shows the key's repr, the others are TypeErrors).
   */
  function Subscript(v: Value, k: string): (r: Result<Value>)
    ensures r.Ok? <==> v.Map? && HasKey(v.entries, k)
    ensures r.Ok? ==> Get(v.entries, k) == Some(r.value)
  {
    match v
    case Map(entries) =>
      GetFound(entries, k);
      (match Get(entries, k)
       case Some(x) => Ok(x)
       case None => Err(QuoteText(k)))
    case List(_) => Err("list indices must be integers or slices, not str")
    case Str(_) => Err("string indices must be integers, not 'str'")
    case _ => Err("'" + TypeName(v) + "' object is not subscriptable")
  }

  /** `d[k] = v`: an existing key keeps its place and takes the new value, a new key goes last. */
  function Put(m: Entries, k: string, v: Value): (r: Entries)
    ensures HasKey(m, k) ==> |r| == |m|
    ensures !HasKey(m, k) ==> r == m + [(k, v)]
    ensures Get(r, k) == Some(v)
    ensures forall j :: j != k ==> Get(r, j) == Get(m, j)
  {
    if m == [] then [(k, v)]
    else if m[0].0 == k then [(k, v)] + m[1..]
    else
      var rest := Put(m[1..], k, v);
      assert HasKey(m, k) ==> HasKey(m[1..], k);
      assert !HasKey(m, k) ==> [m[0]] + (m[1..] + [(k, v)]) == m + [(k, v)];
      [m[0]] + rest
  }

  /** `{**a, **b}` starting from `a`: every item of `b` assigned in order. */
  function PutAll(m: Entries, items: Entries): (r: Entries)
    decreases |items|
  {
    if items == [] then m else PutAll(Put(m, items[0].0, items[0].1), items[1..])
  }

  /** `getattr(v, name, None)`: only objects have the attributes the core asks for. */
  function GetAttr(v: Value, name: string): (r: Option<Value>)
    ensures !v.Other? ==> r == None
  {
    if v.Other? then Get(v.attrs, name) else None
  }

  /** `isinstance(v, (dict, list))` is false exactly for hashable values. */
  predicate Hashable(v: Value)
  {
    !v.List? && !v.Map?
  }

  /** `v == n` for an integer `n` (True == 1 and 1.0 == 1 in Python). */
  predicate EqualsInt(v: Value, n: int)
  {
    match v
    case Int(i) => i == n
    case Bool(b) => (if b then 1 else 0) == n
    case Float(r, _) => r == n as real
    case _ => false
  }

  /** The number a value compares as, for `<=` against an integer; None when Python raises TypeError. */
  function Numeric(v: Value): (r: Option<real>)
    ensures r.Some? <==> (v.Int? || v.Bool? || v.Float?)
  {
    match v
    case Int(i) => Some(i as real)
    case Bool(b) => Some(if b then 1.0 else 0.0)
    case Float(r, _) => Some(r)
    case _ => None
  }

  /** `list(v)`: the items iteration yields, or None when `v` is not iterable. */
  function Iterate(v: Value): (r: Option<seq<Value>>)
    ensures v.List? ==> r == Some(v.items)
    ensures r.Some? <==> (v.List? || v.Str? || v.Map?)
  {
    match v
    case List(items) => Some(items)
    case Str(s) => Some(seq(|s|, i requires 0 <= i < |s| => Str([s[i]])))
    case Map(entries) => Some(seq(|entries|, i requires 0 <= i < |entries| => Str(entries[i].0)))
    case _ => None
  }

  /** Python's class name for a value. */
  function TypeName(v: Value): string
  {
    match v
    case Str(_) => "str"
    case Int(_) => "int"
    case Float(_, _) => "float"
    case Bool(_) => "bool"
    case Null => "NoneType"
    case List(_) => "list"
    case Map(_) => "dict"
    case Other(t, _, _) => t
  }

  function QuoteText(s: string): (r: string)
    ensures |r| == |s| + 2
  {
    if '\'' in s && '"' !in s then "\"" + s + "\"" else "'" + s + "'"
  }

  /** `repr(v)` (string escapes are not modelled). */
  function Repr(v: Value): string
    decreases v
  {
    match v
    case Str(s) => QuoteText(s)
    case Int(i) => IntToString(i)
    case Float(_, d) => d
    case Bool(b) => if b then "True" else "False"
    case Null => "None"
    case List(items) => "[" + ReprItems(items) + "]"
    case Map(entries) => "{" + ReprEntries(entries) + "}"
    case Other(_, _, d) => d
  }

  function ReprItems(items: seq<Value>): string
    decreases items
  {
    if items == [] then ""
    else if |items| == 1 then Repr(items[0])
    else Repr(items[0]) + ", " + ReprItems(items[1..])
  }

  function ReprEntries(entries: Entries): string
    decreases entries
  {
    if entries == [] then ""
    else
      var (k, x) := entries[0];
      assert x < entries[0];
      QuoteText(k) + ": " + Repr(x) + (if |entries| == 1 then "" else ", " + ReprEntries(entries[1..]))
  }

  /** `str(v)`: the text itself for a string, `repr` otherwise. */
  function PyStr(v: Value): (r: string)
    ensures v.Str? ==> r == v.s
    ensures v.Other? ==> r == v.display
    ensures v.Null? ==> r == "None"
  {
    if v.Str? then v.s else Repr(v)
  }
}
