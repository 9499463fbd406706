/** The dynamically typed values that flow between the graph driver, the
    JSON files and the pipeline, as one tagged type. */
module Values {
  import opened Wrappers

  /** A Python value as the pipeline meets it.  `Node` stands for the
      driver's node and relationship objects: mapping-like (they have
      `items()`), with their properties in order.  `Object` stands for any
      other object that carries attributes (it has a `__dict__`); its field
      only tells objects apart. */
  datatype Value =
    | Null
    | Bool(b: bool)
    | Int(i: int)
    | Float(r: real)
    | Str(s: string)
    | List(items: seq<Value>)
    | Dict(entries: map<string, Value>)
    | Node(props: seq<(string, Value)>)
    | Object(tag: string)

  /** Python truthiness.  A driver node's length is its number of
      properties, so a node without properties is falsy. */
  predicate Truthy(v: Value) {
    match v
    case Null => false
    case Bool(b) => b
    case Int(i) => i != 0
    case Float(r) => r != 0.0
    case Str(s) => |s| > 0
    case List(xs) => |xs| > 0
    case Dict(m) => |m| > 0
    case Node(ps) => |ps| > 0
    case Object(_) => true
  }

  /** Python's `a or b`: the first operand when it is truthy, else the second. */
  function Or(a: Value, b: Value): (r: Value)
    ensures Truthy(r) <==> Truthy(a) || Truthy(b)
    ensures r == a || r == b
  {
    if Truthy(a) then a else b
  }

  /** Values Python can put in a set: everything but lists and dictionaries. */
  predicate Hashable(v: Value) {
    !v.List? && !v.Dict?
  }

  /** The representative of `v` under Python's `==` and `hash` on hashable
      values: a boolean, and a float with no fractional part, equal the
      integer of the same value; every other value stands for itself. */
  function PyKey(v: Value): (k: Value)
    ensures Truthy(k) <==> Truthy(v)
    ensures Hashable(k) <==> Hashable(v)
    ensures !k.Bool?
    ensures v.Float? && k.Float? ==> k == v && v.r != v.r.Floor as real
    ensures !v.Bool? && !v.Float? ==> k == v
  {
    match v
    case Bool(b) => Int(if b then 1 else 0)
    case Float(r) => if r == r.Floor as real then Int(r.Floor) else v
    case _ => v
  }

  /** Representatives stand for themselves. */
  lemma PyKeyIdempotent(v: Value)
    ensures PyKey(PyKey(v)) == PyKey(v)
  {}

  /** `True == 1 == 1.0`, and generally an integer equals its float and
      booleans equal 0 and 1, in Python's sense. */
  lemma PyKeyNumeric(n: int, b: bool)
    ensures PyKey(Float(n as real)) == PyKey(Int(n))
    ensures PyKey(Bool(b)) == PyKey(Int(if b then 1 else 0))
  {
    assert (n as real).Floor == n;
  }

  /** `dict(items)`: later pairs overwrite earlier ones with the same key. */
  function ToMap(items: seq<(string, Value)>): (m: map<string, Value>)
    decreases |items|
  {
    if |items| == 0 then map[]
    else ToMap(items[..|items| - 1])[items[|items| - 1].0 := items[|items| - 1].1]
  }

  /** `dict(items)` has exactly the keys of the pairs, each bound to the value
      of the last pair with that key. */
  lemma {:induction false} ToMapLastWins(items: seq<(string, Value)>, k: string)
    ensures k in ToMap(items) <==> LastIndexOf(items, k) >= 0
    ensures k in ToMap(items) ==> ToMap(items)[k] == items[LastIndexOf(items, k)].1
    decreases |items|
  {
    if |items| > 0 {
      ToMapLastWins(items[..|items| - 1], k);
    }
  }

  /** The key set of `dict(items)` is the set of keys among the pairs. */
  lemma {:induction false} ToMapKeys(items: seq<(string, Value)>)
    ensures ToMap(items).Keys == set i | 0 <= i < |items| :: items[i].0
    decreases |items|
  {
    if |items| > 0 {
      var init := items[..|items| - 1];
      ToMapKeys(init);
      assert (set i | 0 <= i < |items| :: items[i].0)
          == (set i | 0 <= i < |init| :: init[i].0) + {items[|items| - 1].0};
    }
  }
}
