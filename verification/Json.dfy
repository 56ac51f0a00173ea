/** JSON values as the gateway holds them, and Python's `==` on them.

    A Python number is a boolean, an integer or a float. The three are distinct
    types, but `==` compares them by numeric value. Floats are exact reals here,
    extended with the two infinities and NaN. */
module Json {

  datatype Float = Finite(r: real) | PosInf | NegInf | NaN

  datatype Json =
    | Null
    | Bool(b: bool)
    | Int(i: int)
    | Number(f: Float)
    | Str(s: string)
    | List(items: seq<Json>)
    | Object(fields: map<string, Json>)
  {
    predicate IsNumeric() { Bool? || Int? || Number? }

    predicate IsContainer() { List? || Object? }
  }

  // ----- Python's ordering and equality on numbers -----

  function NumericValue(v: Json): Float
    requires v.IsNumeric()
  {
    match v
    case Bool(b) => Finite(if b then 1.0 else 0.0)
    case Int(i) => Finite(i as real)
    case Number(f) => f
  }

  predicate FloatEqual(x: Float, y: Float) {
    x != NaN && x == y
  }

  predicate FloatAtMost(x: Float, y: Float) {
    match (x, y)
    case (NaN, _) => false
    case (_, NaN) => false
    case (NegInf, _) => true
    case (_, PosInf) => true
    case (Finite(r), Finite(s)) => r <= s
    case (_, _) => false
  }

  // ----- Python's == and the engine's strict equality -----

  /** Python's `a == b`: structural, except that numbers of different types
      compare by value and NaN differs from everything. */
  predicate PyEqual(a: Json, b: Json)
    decreases a
  {
    match (a, b)
    case (Null, Null) => true
    case (Str(s), Str(t)) => s == t
    case (List(x), List(y)) => |x| == |y| && forall i :: 0 <= i < |x| ==> PyEqual(x[i], y[i])
    case (Object(x), Object(y)) => x.Keys == y.Keys && forall k :: k in x.Keys ==> PyEqual(x[k], y[k])
    case (_, _) => a.IsNumeric() && b.IsNumeric() && FloatEqual(NumericValue(a), NumericValue(b))
  }

  /** `type(a) is type(b)`, looking at the outermost constructor only. */
  predicate SameType(a: Json, b: Json) {
    match a
    case Null => b.Null?
    case Bool(_) => b.Bool?
    case Int(_) => b.Int?
    case Number(_) => b.Number?
    case Str(_) => b.Str?
    case List(_) => b.List?
    case Object(_) => b.Object?
  }

  predicate StrictEqual(a: Json, b: Json) {
    SameType(a, b) && PyEqual(a, b)
  }

  predicate StrictIn(value: Json, candidates: seq<Json>) {
    exists i :: 0 <= i < |candidates| && StrictEqual(value, candidates[i])
  }

  /** Numbers compare by value, whatever their types: a boolean counts as 0 or 1,
      infinities equal themselves only, NaN equals nothing. */
  lemma NumbersCompareByValue(i: int, j: int, x: real, y: real, b: bool, v: Json)
    ensures PyEqual(Int(i), Int(j)) <==> i == j
    ensures PyEqual(Number(Finite(x)), Number(Finite(y))) <==> x == y
    ensures (PyEqual(Int(i), Number(Finite(x))) <==> i as real == x)
            && (PyEqual(Number(Finite(x)), Int(i)) <==> i as real == x)
    ensures (PyEqual(Bool(b), Int(i)) <==> i == if b then 1 else 0)
            && (PyEqual(Int(i), Bool(b)) <==> i == if b then 1 else 0)
    ensures PyEqual(Bool(b), Number(Finite(x))) <==> x == if b then 1.0 else 0.0
    ensures (PyEqual(Number(PosInf), v) <==> v == Number(PosInf))
            && (PyEqual(Number(NegInf), v) <==> v == Number(NegInf))
    ensures !PyEqual(Number(NaN), v) && !PyEqual(v, Number(NaN))
  {
  }

  // ----- A reference meaning: canonical forms -----

  ghost predicate NaNFree(v: Json) {
    match v
    case Number(f) => f != NaN
    case List(items) => forall i :: 0 <= i < |items| ==> NaNFree(items[i])
    case Object(fields) => forall k :: k in fields.Keys ==> NaNFree(fields[k])
    case _ => true
  }

  /** Every number, at any depth, written as a float. */
  ghost function Canonical(v: Json): Json {
    match v
    case Null => Null
    case Str(s) => Str(s)
    case List(items) => List(seq(|items|, i requires 0 <= i < |items| => Canonical(items[i])))
    case Object(fields) => Object(map k | k in fields.Keys :: Canonical(fields[k]))
    case _ => Number(NumericValue(v))
  }

  /** Python's `==` is identity of canonical forms among NaN-free values. */
  lemma {:induction false} PyEqualIsCanonicalIdentity(a: Json, b: Json)
    ensures PyEqual(a, b) <==> NaNFree(a) && Canonical(a) == Canonical(b)
    decreases a
  {
    match (a, b)
    case (List(x), List(y)) =>
      forall i | 0 <= i < |x| && i < |y|
        ensures PyEqual(x[i], y[i]) <==> NaNFree(x[i]) && Canonical(x[i]) == Canonical(y[i])
      {
        PyEqualIsCanonicalIdentity(x[i], y[i]);
      }
      var cx, cy := Canonical(a).items, Canonical(b).items;
      assert |cx| == |x| && |cy| == |y|;
      if cx == cy {
        assert forall i :: 0 <= i < |x| ==> cx[i] == Canonical(x[i]) && cy[i] == Canonical(y[i]);
      }
    case (Object(x), Object(y)) =>
      forall k | k in x.Keys && k in y.Keys
        ensures PyEqual(x[k], y[k]) <==> NaNFree(x[k]) && Canonical(x[k]) == Canonical(y[k])
      {
        PyEqualIsCanonicalIdentity(x[k], y[k]);
      }
      var cx, cy := Canonical(a).fields, Canonical(b).fields;
      assert cx.Keys == x.Keys && cy.Keys == y.Keys;
      if cx == cy {
        assert forall k :: k in x.Keys ==> cx[k] == Canonical(x[k]) && cy[k] == Canonical(y[k]);
      }
    case (_, _) =>
  }

  /** NaN-freedom is visible in the canonical form. */
  lemma {:induction false} CanonicalKeepsNaN(v: Json)
    ensures NaNFree(Canonical(v)) <==> NaNFree(v)
  {
    match v
    case List(items) =>
      forall i | 0 <= i < |items| ensures NaNFree(Canonical(items[i])) <==> NaNFree(items[i]) {
        CanonicalKeepsNaN(items[i]);
      }
      var c := Canonical(v).items;
      assert forall i :: 0 <= i < |items| ==> c[i] == Canonical(items[i]);
    case Object(fields) =>
      forall k | k in fields.Keys ensures NaNFree(Canonical(fields[k])) <==> NaNFree(fields[k]) {
        CanonicalKeepsNaN(fields[k]);
      }
      var c := Canonical(v).fields;
      assert forall k :: k in fields.Keys ==> c[k] == Canonical(fields[k]);
    case _ =>
  }

  // ----- Strict equality is an equivalence on NaN-free values -----

  /** A value strictly equals itself exactly when it holds no NaN. */
  lemma {:induction false} StrictEqualReflexiveIffNaNFree(a: Json)
    ensures StrictEqual(a, a) <==> NaNFree(a)
  {
    PyEqualIsCanonicalIdentity(a, a);
  }

  lemma StrictEqualSymmetric(a: Json, b: Json)
    ensures StrictEqual(a, b) <==> StrictEqual(b, a)
  {
    PyEqualIsCanonicalIdentity(a, b);
    PyEqualIsCanonicalIdentity(b, a);
    CanonicalKeepsNaN(a);
    CanonicalKeepsNaN(b);
  }

  lemma StrictEqualTransitive(a: Json, b: Json, c: Json)
    requires StrictEqual(a, b) && StrictEqual(b, c)
    ensures StrictEqual(a, c)
  {
    PyEqualIsCanonicalIdentity(a, b);
    PyEqualIsCanonicalIdentity(b, c);
    PyEqualIsCanonicalIdentity(a, c);
  }

  /** Membership is decided up to strict equality: equal values, and pointwise
      equal candidate lists, get the same answer. */
  lemma StrictInRespectsStrictEqual(v: Json, w: Json, xs: seq<Json>, ys: seq<Json>)
    requires StrictEqual(v, w)
    requires |xs| == |ys| && forall i :: 0 <= i < |xs| ==> StrictEqual(xs[i], ys[i])
    ensures StrictIn(v, xs) <==> StrictIn(w, ys)
  {
    StrictEqualSymmetric(v, w);
    if StrictIn(v, xs) {
      var i :| 0 <= i < |xs| && StrictEqual(v, xs[i]);
      StrictEqualTransitive(w, v, xs[i]);
      StrictEqualTransitive(w, xs[i], ys[i]);
    }
    if StrictIn(w, ys) {
      var i :| 0 <= i < |ys| && StrictEqual(w, ys[i]);
      StrictEqualSymmetric(xs[i], ys[i]);
      StrictEqualTransitive(v, w, ys[i]);
      StrictEqualTransitive(v, ys[i], xs[i]);
    }
  }

  // ----- How far strict equality is from identity of JSON values -----

  /** Every finite float in `v` is one that the machine has. */
  ghost predicate Held(v: Json, isFloat: real -> bool) {
    match v
    case Number(f) => f.Finite? ==> isFloat(f.r)
    case List(items) => forall i :: 0 <= i < |items| ==> Held(items[i], isFloat)
    case Object(fields) => forall k :: k in fields.Keys ==> Held(fields[k], isFloat)
    case _ => true
  }

  /** A number some other JSON type also denotes: a boolean, an integer that is 0 or
      1 or has a float of its value, or a float with an integral value. */
  ghost predicate HasTwin(v: Json, isFloat: real -> bool) {
    match v
    case Bool(_) => true
    case Int(i) => i == 0 || i == 1 || isFloat(i as real)
    case Number(f) => f.Finite? && f.r.Floor as real == f.r
    case List(items) => exists i :: 0 <= i < |items| && HasTwin(items[i], isFloat)
    case Object(fields) => exists k :: k in fields.Keys && HasTwin(fields[k], isFloat)
    case _ => false
  }

  /** The same value with every such number moved to another type. */
  ghost function Twin(v: Json, isFloat: real -> bool): Json {
    match v
    case Bool(b) => Int(if b then 1 else 0)
    case Int(i) =>
      if i == 0 || i == 1 then Bool(i == 1) else if isFloat(i as real) then Number(Finite(i as real)) else v
    case Number(f) => if f.Finite? && f.r.Floor as real == f.r then Int(f.r.Floor) else v
    case List(items) => List(seq(|items|, i requires 0 <= i < |items| => Twin(items[i], isFloat)))
    case Object(fields) => Object(map k | k in fields.Keys :: Twin(fields[k], isFloat))
    case _ => v
  }

  lemma {:induction false} TwinIsHeld(v: Json, isFloat: real -> bool)
    requires Held(v, isFloat)
    ensures Held(Twin(v, isFloat), isFloat)
  {
    match v
    case List(items) =>
      forall i | 0 <= i < |items| ensures Held(Twin(items[i], isFloat), isFloat) {
        TwinIsHeld(items[i], isFloat);
      }
    case Object(fields) =>
      forall k | k in fields.Keys ensures Held(Twin(fields[k], isFloat), isFloat) {
        TwinIsHeld(fields[k], isFloat);
      }
    case _ =>
  }

  lemma {:induction false} TwinIsEqual(v: Json, isFloat: real -> bool)
    ensures Canonical(Twin(v, isFloat)) == Canonical(v)
  {
    match v
    case List(items) =>
      forall i | 0 <= i < |items| ensures Canonical(Twin(items[i], isFloat)) == Canonical(items[i]) {
        TwinIsEqual(items[i], isFloat);
      }
      assert Canonical(Twin(v, isFloat)).items == Canonical(v).items;
    case Object(fields) =>
      forall k | k in fields.Keys ensures Canonical(Twin(fields[k], isFloat)) == Canonical(fields[k]) {
        TwinIsEqual(fields[k], isFloat);
      }
      assert Canonical(Twin(v, isFloat)).fields == Canonical(v).fields;
    case _ =>
  }

  lemma {:induction false} TwinIsDifferent(v: Json, isFloat: real -> bool)
    ensures Twin(v, isFloat) != v <==> HasTwin(v, isFloat)
  {
    match v
    case List(items) =>
      forall i | 0 <= i < |items| ensures Twin(items[i], isFloat) != items[i] <==> HasTwin(items[i], isFloat) {
        TwinIsDifferent(items[i], isFloat);
      }
      var t := Twin(v, isFloat).items;
      assert |t| == |items| && forall i :: 0 <= i < |items| ==> t[i] == Twin(items[i], isFloat);
      if !HasTwin(v, isFloat) { assert t == items; }
    case Object(fields) =>
      forall k | k in fields.Keys ensures Twin(fields[k], isFloat) != fields[k] <==> HasTwin(fields[k], isFloat) {
        TwinIsDifferent(fields[k], isFloat);
      }
      var t := Twin(v, isFloat).fields;
      assert t.Keys == fields.Keys && forall k :: k in fields.Keys ==> t[k] == Twin(fields[k], isFloat);
      if !HasTwin(v, isFloat) { assert t == fields; }
    case _ =>
  }

  /** Without such numbers, equal canonical forms mean equal values. */
  lemma {:induction false} CanonicalInjectiveWithoutTwins(a: Json, b: Json, isFloat: real -> bool)
    requires Canonical(a) == Canonical(b) && !HasTwin(a, isFloat) && Held(b, isFloat)
    ensures a == b
    decreases a
  {
    match a
    case List(x) =>
      assert b.List?;
      var y := b.items;
      assert |Canonical(a).items| == |x| && |Canonical(b).items| == |y|;
      forall i | 0 <= i < |x| ensures x[i] == y[i] {
        assert Canonical(a).items[i] == Canonical(x[i]);
        assert Canonical(b).items[i] == Canonical(y[i]);
        CanonicalInjectiveWithoutTwins(x[i], y[i], isFloat);
      }
      assert x == y;
    case Object(x) =>
      assert b.Object?;
      var y := b.fields;
      assert Canonical(a).fields.Keys == x.Keys && Canonical(b).fields.Keys == y.Keys;
      forall k | k in x.Keys ensures x[k] == y[k] {
        assert Canonical(a).fields[k] == Canonical(x[k]);
        assert Canonical(b).fields[k] == Canonical(y[k]);
        CanonicalInjectiveWithoutTwins(x[k], y[k], isFloat);
      }
      assert x == y;
    case Number(f) =>
      assert Canonical(b) == Number(f);
    case Int(i) =>
      assert Canonical(b) == Number(Finite(i as real));
    case _ =>
  }

  /** The documented promise, "never crosses JSON type boundaries", holds of a
      configured value exactly when it holds NaN, is a scalar, or contains no
      number that another JSON type also denotes. `isFloat` says which reals are
      floats of the machine. */
  lemma {:induction false} NeverCrossesTypesExactly(a: Json, isFloat: real -> bool)
    requires Held(a, isFloat)
    ensures (forall b :: Held(b, isFloat) && StrictEqual(a, b) ==> a == b) <==>
              !NaNFree(a) || !a.IsContainer() || !HasTwin(a, isFloat)
  {
    if NaNFree(a) && a.IsContainer() && HasTwin(a, isFloat) {
      TwinIsHeld(a, isFloat);
      TwinIsEqual(a, isFloat);
      TwinIsDifferent(a, isFloat);
      PyEqualIsCanonicalIdentity(a, Twin(a, isFloat));
      assert Held(Twin(a, isFloat), isFloat) && StrictEqual(a, Twin(a, isFloat)) && a != Twin(a, isFloat);
    } else {
      forall b | Held(b, isFloat) && StrictEqual(a, b) ensures a == b {
        PyEqualIsCanonicalIdentity(a, b);
        if a.IsContainer() && !HasTwin(a, isFloat) {
          CanonicalInjectiveWithoutTwins(a, b, isFloat);
        }
      }
    }
  }

  /** The promise does fail: `[True]` strictly equals `[1]`. */
  lemma NestedNumbersCrossTypes()
    ensures StrictEqual(List([Bool(true)]), List([Int(1)]))
    ensures !StrictEqual(Bool(true), Int(1))
  {
    assert PyEqual(Bool(true), Int(1));
  }
}
