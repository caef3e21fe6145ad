/**
 * The fragment of PHP's value model that the client touches: scalars and
 * string-keyed arrays, PHP's truthiness, `isset` on an array entry, the
 * truncating remainder operator and `array_walk_recursive`.
 */
module PhpValues {

  datatype Option<+T> = None | Some(value: T)

  /** A value that either carries a result or the message of a thrown exception. */
  datatype Result<+T> = Ok(value: T) | Err(message: string)

  /**
   * A PHP value. Arrays are modelled as maps from string keys; integer keys,
   * floats, objects and the insertion order of array entries are not modelled.
   */
  datatype Value =
    | Null
    | Bool(b: bool)
    | Int(i: int)
    | Str(s: string)
    | Arr(entries: map<string, Value>)

  /** PHP's conversion to bool, as used by `if ($x)` and by `$x ?: $y`. */
  predicate Truthy(v: Value)
  {
    match v
    case Null => false
    case Bool(b) => b
    case Int(i) => i != 0
    case Str(s) => s != "" && s != "0"
    case Arr(m) => |m| != 0
  }

  /** `isset($a[$key])`: the entry exists and is not null. */
  predicate IsSet(a: map<string, Value>, key: string)
  {
    key in a && a[key] != Null
  }

  /** An array holding at least one entry that `isset` sees is truthy. */
  lemma SetEntryMakesTruthy(a: map<string, Value>, key: string)
    requires IsSet(a, key)
    ensures Truthy(Arr(a))
  {
  }

  /**
   * PHP's `%` by a positive modulus: the remainder takes the sign of the
   * dividend (the quotient is truncated toward zero), unlike Dafny's
   * Euclidean `%`.
   */
  function PhpRem(a: int, m: int): (r: int)
    requires m > 0
    ensures a >= 0 ==> 0 <= r < m
    ensures a < 0 ==> -m < r <= 0
    ensures a >= 0 ==> r == a % m
  {
    if a >= 0 then a % m else -((-a) % m)
  }

  /** PHP and Dafny agree on whether a number is even, for every integer. */
  lemma PhpRemParity(a: int)
    ensures (PhpRem(a, 2) == 0) <==> (a % 2 == 0)
  {
  }

  /**
   * `array_walk_recursive` with a by-reference callback `f`: every non-array
   * value, at any depth, is replaced by `f` of it; arrays keep their keys.
   */
  function Walk(v: Value, f: Value -> Value): (w: Value)
    ensures v.Arr? ==> w.Arr? && w.entries.Keys == v.entries.Keys
  {
    match v
    case Arr(m) => Arr(map k | k in m :: Walk(m[k], f))
    case _ => f(v)
  }

  /** A walk whose callback leaves every scalar alone leaves the value alone. */
  lemma {:induction false} WalkIdentity(v: Value, f: Value -> Value)
    requires forall x: Value :: !x.Arr? ==> f(x) == x
    ensures Walk(v, f) == v
  {
    match v
    case Arr(m) =>
      forall k | k in m
        ensures Walk(v, f).entries[k] == m[k]
      {
        WalkIdentity(m[k], f);
      }
      assert Walk(v, f).entries == m;
    case _ =>
  }

  /** The nesting of a value: where its arrays are and which keys each holds. */
  datatype Shape = Leaf | Node(children: map<string, Shape>)

  function ShapeOf(v: Value): Shape
  {
    match v
    case Arr(m) => Node(map k | k in m :: ShapeOf(m[k]))
    case _ => Leaf
  }

  /** `f` and `g` give the same value on every scalar of `v`, at any depth. */
  ghost predicate AgreeOnLeaves(v: Value, f: Value -> Value, g: Value -> Value)
  {
    match v
    case Arr(m) => forall k :: k in m ==> AgreeOnLeaves(m[k], f, g)
    case _ => f(v) == g(v)
  }

  /** What a walk produces depends only on what the callback does to the scalars it meets. */
  lemma {:induction false} WalkDependsOnlyOnLeaves(v: Value, f: Value -> Value, g: Value -> Value)
    requires AgreeOnLeaves(v, f, g)
    ensures Walk(v, f) == Walk(v, g)
  {
    match v
    case Arr(m) =>
      forall k | k in m
        ensures Walk(v, f).entries[k] == Walk(v, g).entries[k]
      {
        WalkDependsOnlyOnLeaves(m[k], f, g);
      }
      assert Walk(v, f).entries == Walk(v, g).entries;
    case _ =>
  }

  /**
   * A callback that maps scalars to scalars keeps the nesting of the whole
   * value: the same arrays at the same places, with the same keys.
   */
  lemma {:induction false} WalkKeepsShape(v: Value, f: Value -> Value)
    requires forall x: Value :: !x.Arr? ==> !f(x).Arr?
    ensures ShapeOf(Walk(v, f)) == ShapeOf(v)
  {
    match v
    case Arr(m) =>
      var w := Walk(v, f);
      forall k | k in m
        ensures ShapeOf(w).children[k] == ShapeOf(v).children[k]
      {
        WalkKeepsShape(m[k], f);
        assert w.entries[k] == Walk(m[k], f);
      }
      assert ShapeOf(w).children == ShapeOf(v).children;
    case _ =>
  }
}
