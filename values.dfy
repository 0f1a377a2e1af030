/** The JavaScript values the scanner's objects hold, and the language rules
    its core relies on: truthiness (`||`, `if (x)`), property reads, the
    coercion of a value to a property key (`frames[frameId]`), object spread
    and `Object.assign`, strict equality (`===`) and the JSON round trip
    `JSON.parse(JSON.stringify(x))`. */
module Values {
  import opened Strings

  datatype Option<T> = None | Some(value: T)

  /** A JavaScript value. Numbers are exact reals; `NaN` and the two
      infinities are kept apart because they behave differently. */
  datatype Value =
    | Undefined
    | Null
    | Bool(b: bool)
    | Num(r: real)
    | NaN
    | Infinity(negative: bool)
    | Str(s: string)
    | Arr(items: seq<Value>)
    | Object(fields: map<string, Value>)

  /** A plain object, by its own enumerable properties. An absent key reads
      as `undefined`; a key holding `Undefined` is present (it shows up in
      `for...in` and is copied by spread) until JSON drops it. */
  type Record = map<string, Value>

  /** `Boolean(v)`. */
  predicate Truthy(v: Value)
  {
    match v
    case Undefined => false
    case Null => false
    case Bool(b) => b
    case Num(r) => r != 0.0
    case NaN => false
    case Infinity(_) => true
    case Str(s) => s != ""
    case Arr(_) => true
    case Object(_) => true
  }

  /** `o.k` on a plain object. */
  function Get(o: Record, k: string): Value
  {
    if k in o then o[k] else Undefined
  }

  /** `a || b`: the first operand when it is truthy, otherwise the second. */
  function Or(a: Value, b: Value): (r: Value)
    ensures Truthy(a) ==> r == a
    ensures !Truthy(a) ==> r == b
  {
    if Truthy(a) then a else b
  }

  /** `v.k` on a value that is neither `null` nor `undefined` (reading a
      property of those throws). Primitives other than objects carry no
      property the core reads. */
  function Prop(v: Value, k: string): Value
    requires !v.Undefined? && !v.Null?
  {
    if v.Object? then Get(v.fields, k) else Undefined
  }

  /** `v.k || {}` on a truthy value. */
  function PropOr(v: Value, k: string): (r: Value)
    requires Truthy(v)
    ensures Truthy(r)
    ensures Truthy(Prop(v, k)) ==> r == Prop(v, k)
    ensures !Truthy(Prop(v, k)) ==> r == Object(map[])
  {
    Or(Prop(v, k), Object(map[]))
  }

  /** An integral number. */
  predicate IsIntegral(r: real)
  {
    r.Floor as real == r
  }

  /** The magnitude from which `String(n)` switches to exponent form. */
  const ExponentFrom: real := 1000000000000000000000.0

  /** The values whose coercion to a property key the model spells out: the
      ids the browser sends are strings, and a missing id is `undefined`;
      integers are written out in full below `ExponentFrom`. */
  predicate KeyLike(v: Value)
  {
    v.Undefined? || v.Null? || v.Bool? || v.Str? || (v.Num? && IsIntegral(v.r) && -ExponentFrom < v.r < ExponentFrom)
  }

  /** The property key `String(v)` that `o[v]` uses. */
  function KeyOf(v: Value): (k: string)
    requires KeyLike(v)
    ensures v.Str? ==> k == v.s
  {
    match v
    case Undefined => "undefined"
    case Null => "null"
    case Bool(b) => if b then "true" else "false"
    case Num(r) => IntToString(r.Floor)
    case Str(s) => s
    case _ => ""
  }

  /** The property key of an array index, as `for...in` yields it. */
  function IndexKey(i: nat): string
  {
    NatToString(i)
  }

  /** `{...v}`: the own enumerable properties of `v` as a fresh object. A
      string spreads into its characters and an array into its elements,
      both keyed by index; other primitives spread into nothing. */
  function Spread(v: Value): (r: Record)
    ensures v.Object? ==> r == v.fields
    ensures v.Str? ==> |r| == |v.s|
    ensures v.Arr? ==> |r| == |v.items|
    ensures !v.Object? && !v.Str? && !v.Arr? ==> r == map[]
  {
    match v
    case Object(f) => f
    case Str(s) => Indexed(seq(|s|, i requires 0 <= i < |s| => Str([s[i]])))
    case Arr(items) => Indexed(items)
    case _ => map[]
  }

  /** The elements of a list keyed by their index. */
  function Indexed(items: seq<Value>): (r: Record)
    ensures |r| == |items|
  {
    IndexKeysInjective();
    var m := map i | 0 <= i < |items| :: IndexKey(i) := items[i];
    IndexMapSize(|items|, m.Keys);
    m
  }

  lemma IndexKeysInjective()
    ensures forall i: nat, j: nat :: IndexKey(i) == IndexKey(j) ==> i == j
  {
    forall i: nat, j: nat | IndexKey(i) == IndexKey(j) ensures i == j {
      NatToStringInjective(i, j);
    }
  }

  /** The keys of the first `n` indexes are `n` distinct strings. */
  lemma {:induction false} IndexMapSize(n: nat, keys: set<string>)
    requires keys == set i | 0 <= i < n :: IndexKey(i)
    ensures |keys| == n
  {
    if n > 0 {
      var smaller := set i | 0 <= i < n - 1 :: IndexKey(i);
      IndexMapSize(n - 1, smaller);
      assert IndexKey(n - 1) !in smaller by {
        if IndexKey(n - 1) in smaller {
          var i :| 0 <= i < n - 1 && IndexKey(i) == IndexKey(n - 1);
          NatToStringInjective(i, n - 1);
        }
      }
      assert keys == smaller + {IndexKey(n - 1)};
    }
  }

  /** `Object.assign(target, source)` and `{...target, ...source}` on plain
      objects: every key of either, the source's value winning. */
  function Assign(target: Record, source: Record): (r: Record)
    ensures r.Keys == target.Keys + source.Keys
    ensures forall k :: k in source ==> r[k] == source[k]
    ensures forall k :: k in target && k !in source ==> r[k] == target[k]
  {
    target + source
  }

  /** `a === b`. `NaN` equals nothing; two object or array values are taken
      to be distinct objects. */
  predicate StrictEquals(a: Value, b: Value)
  {
    match (a, b)
    case (Undefined, Undefined) => true
    case (Null, Null) => true
    case (Bool(x), Bool(y)) => x == y
    case (Num(x), Num(y)) => x == y
    case (Infinity(x), Infinity(y)) => x == y
    case (Str(x), Str(y)) => x == y
    case _ => false
  }

  /** `Number(v)` for the values a divisor can be: `null` and `false` are
      0, `true` is 1, `undefined` is `NaN`, numbers are themselves. Strings,
      arrays and objects are read as `NaN` (the string parse and the
      `toString` call are not modelled). */
  function ToNumber(v: Value): (r: Value)
    ensures r.Num? || r.NaN? || r.Infinity?
    ensures v.Num? || v.NaN? || v.Infinity? ==> r == v
    ensures v.Null? ==> r == Num(0.0)
  {
    match v
    case Null => Num(0.0)
    case Bool(b) => Num(if b then 1.0 else 0.0)
    case Num(_) => v
    case Infinity(_) => v
    case _ => NaN
  }

  /** `n / d` for a finite byte count `n`, after `d` is coerced to a number.
      A finite non-zero divisor gives the quotient, an infinite one 0, a zero
      divisor an infinity of the sign of `n` (or `NaN` for `0 / 0`), and a
      divisor that is not a number `NaN`. */
  function Divide(n: real, d: Value): (r: Value)
    ensures r.Num? <==> (ToNumber(d).Num? && ToNumber(d).r != 0.0) || ToNumber(d).Infinity?
    ensures r.Num? && ToNumber(d).Num? ==> r.r * ToNumber(d).r == n
    ensures ToNumber(d).Infinity? ==> r == Num(0.0)
    ensures ToNumber(d) == Num(0.0) ==> (r.NaN? <==> n == 0.0) && (n != 0.0 ==> r == Infinity(n < 0.0))
    ensures ToNumber(d).NaN? ==> r == NaN
  {
    match ToNumber(d)
    case Num(x) =>
      if x != 0.0 then Num(n / x)
      else if n == 0.0 then NaN
      else Infinity(n < 0.0)
    case Infinity(_) => Num(0.0)
    case _ => NaN
  }

  /** `JSON.parse(JSON.stringify(v))` for a value found inside an object:
      keys holding `undefined` are dropped, and `undefined` array elements,
      `NaN` and the infinities become `null`. */
  function Json(v: Value): (r: Value)
    ensures v.Object? <==> r.Object?
    ensures v.Arr? <==> r.Arr?
  {
    match v
    case Undefined => Null
    case NaN => Null
    case Infinity(_) => Null
    case Arr(items) => Arr(seq(|items|, i requires 0 <= i < |items| => Json(items[i])))
    case Object(f) => Object(map k | k in f && !f[k].Undefined? :: Json(f[k]))
    case _ => v
  }

  /** A value JSON can carry as it is: no `undefined`, `NaN` or infinity anywhere. */
  predicate JsonClean(v: Value)
  {
    match v
    case Undefined => false
    case NaN => false
    case Infinity(_) => false
    case Arr(items) => forall i :: 0 <= i < |items| ==> JsonClean(items[i])
    case Object(f) => forall k :: k in f ==> JsonClean(f[k])
    case _ => true
  }

  /** The JSON round trip leaves no `undefined` placeholder anywhere. */
  lemma {:induction false} JsonIsClean(v: Value)
    ensures JsonClean(Json(v))
  {
    match v
    case Arr(items) =>
      forall i | 0 <= i < |items| ensures JsonClean(Json(items[i])) {
        JsonIsClean(items[i]);
      }
    case Object(f) =>
      forall k | k in f && !f[k].Undefined? ensures JsonClean(Json(f[k])) {
        JsonIsClean(f[k]);
      }
    case _ =>
  }

  /** A clean value survives the round trip unchanged. */
  lemma {:induction false} JsonKeepsClean(v: Value)
    requires JsonClean(v)
    ensures Json(v) == v
  {
    match v
    case Arr(items) =>
      forall i | 0 <= i < |items| ensures Json(items[i]) == items[i] {
        JsonKeepsClean(items[i]);
      }
      assert Json(v).items == items;
    case Object(f) =>
      forall k | k in f ensures Json(f[k]) == f[k] {
        JsonKeepsClean(f[k]);
      }
      assert Json(v).fields == f;
    case _ =>
  }

  /** A second round trip changes nothing. */
  lemma JsonIdempotent(v: Value)
    ensures Json(Json(v)) == Json(v)
  {
    JsonIsClean(v);
    JsonKeepsClean(Json(v));
  }

  /** The round trip keeps exactly the keys that do not hold `undefined`,
      each with its value round-tripped. */
  lemma JsonAt(f: Record, k: string)
    ensures Json(Object(f)).Object?
    ensures k in Json(Object(f)).fields <==> k in f && !f[k].Undefined?
    ensures k in Json(Object(f)).fields ==> Json(Object(f)).fields[k] == Json(f[k])
  {
  }
}
