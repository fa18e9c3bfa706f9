/**
 Decoded JSON values, and the asymmetric equality of internal/jsonbody/diff.go: a key that only
 the remote side has is ignored when its value is a deep zero.
 */
module JsonTree {

  /** A number is a real: only equality and being zero matter. */
  datatype Json =
    | Null
    | Bool(b: bool)
    | Num(n: real)
    | Str(s: string)
    | Arr(elems: seq<Json>)
    | Obj(fields: map<string, Json>)

  /** A JSON zero value, or an object that holds only zero values. */
  predicate IsDeepZero(v: Json) {
    match v
    case Null => true
    case Bool(b) => !b
    case Num(n) => n == 0.0
    case Str(s) => s == ""
    case Arr(elems) => |elems| == 0
    case Obj(fields) => forall k | k in fields :: IsDeepZero(fields[k])
  }

  /** The equality the operator compares by: y is x, up to extra keys holding deep zeros. */
  predicate Equal(x: Json, y: Json) {
    match (x, y)
    case (Arr(xs), Arr(ys)) =>
      |xs| == |ys| && forall i | 0 <= i < |xs| :: Equal(xs[i], ys[i])
    case (Obj(xf), Obj(yf)) =>
      && (forall k | k in xf :: k in yf && Equal(xf[k], yf[k]))
      && (forall k | k in yf && k !in xf :: IsDeepZero(yf[k]))
    case _ => x == y
  }

  /** Everything in a value that is not an object itself. */
  function Leaves(v: Json): set<Json> {
    match v
    case Obj(fields) => set k, leaf | k in fields.Keys && leaf in Leaves(fields[k]) :: leaf
    case _ => {v}
  }

  /** The JSON zero values. */
  const ZEROS := {Null, Bool(false), Num(0.0), Str(""), Arr([])}

  /** y without the deep-zero keys that x does not have, at every depth where the two still line up. */
  function Trim(x: Json, y: Json): Json {
    match (x, y)
    case (Arr(xs), Arr(ys)) =>
      if |xs| == |ys| then Arr(seq(|ys|, i requires 0 <= i < |ys| => Trim(xs[i], ys[i]))) else y
    case (Obj(xf), Obj(yf)) =>
      Obj(map k | k in yf && (k in xf || !IsDeepZero(yf[k])) :: if k in xf then Trim(xf[k], yf[k]) else yf[k])
    case _ => y
  }

  /** Equal means exactly that nothing but ignorable keys separates y from x. */
  lemma {:induction false} EqualIffTrimmed(x: Json, y: Json)
    ensures Equal(x, y) <==> Trim(x, y) == x
  {
    match (x, y)
    case (Arr(xs), Arr(ys)) =>
      if |xs| == |ys| {
        forall i | 0 <= i < |xs| ensures Equal(xs[i], ys[i]) <==> Trim(xs[i], ys[i]) == xs[i] {
          EqualIffTrimmed(xs[i], ys[i]);
        }
        var t := Trim(x, y).elems;
        assert |t| == |ys| && forall i | 0 <= i < |t| :: t[i] == Trim(xs[i], ys[i]);
      }
    case (Obj(xf), Obj(yf)) =>
      forall k | k in xf && k in yf ensures Equal(xf[k], yf[k]) <==> Trim(xf[k], yf[k]) == xf[k] {
        EqualIffTrimmed(xf[k], yf[k]);
      }
      var t := Trim(x, y).fields;
      if Equal(x, y) {
        assert t.Keys == xf.Keys;
      } else if t == xf {
        forall k | k in xf ensures k in yf && Equal(xf[k], yf[k]) {
          assert k in t;
        }
        forall k | k in yf && k !in xf ensures IsDeepZero(yf[k]) {
          assert k !in t;
        }
      }
    case _ =>
  }

  lemma {:induction false} EqualIsReflexive(x: Json)
    ensures Equal(x, x)
  {
    match x
    case Arr(xs) => forall i | 0 <= i < |xs| ensures Equal(xs[i], xs[i]) { EqualIsReflexive(xs[i]); }
    case Obj(xf) => forall k | k in xf ensures Equal(xf[k], xf[k]) { EqualIsReflexive(xf[k]); }
    case _ =>
  }

  /** Being a deep zero is kept in both directions by adding ignorable keys. */
  lemma {:induction false} DeepZeroIsClosed(x: Json, y: Json)
    requires Equal(x, y)
    ensures IsDeepZero(x) <==> IsDeepZero(y)
  {
    match (x, y)
    case (Obj(xf), Obj(yf)) =>
      forall k | k in xf ensures IsDeepZero(xf[k]) <==> IsDeepZero(yf[k]) {
        DeepZeroIsClosed(xf[k], yf[k]);
      }
    case _ =>
  }

  /** Deep zeros are the values without a leaf that is not a zero value. */
  lemma {:induction false} DeepZeroIffZeroLeaves(v: Json)
    ensures IsDeepZero(v) <==> Leaves(v) <= ZEROS
  {
    match v
    case Obj(fields) =>
      forall k | k in fields ensures IsDeepZero(fields[k]) <==> Leaves(fields[k]) <= ZEROS {
        DeepZeroIffZeroLeaves(fields[k]);
      }
      if Leaves(v) <= ZEROS {
        forall k | k in fields ensures Leaves(fields[k]) <= ZEROS {
          assert forall leaf | leaf in Leaves(fields[k]) :: leaf in Leaves(v);
        }
      }
    case _ => assert v in Leaves(v);
  }

  /** A key that only the remote has is ignored exactly if everything in its value is a zero value. */
  lemma AbsentKeyIsIgnoredIff(fields: map<string, Json>, key: string, v: Json)
    requires key !in fields
    ensures Equal(Obj(fields), Obj(fields[key := v])) <==> Leaves(v) <= {Null, Bool(false), Num(0.0), Str(""), Arr([])}
    ensures !Equal(Obj(fields[key := v]), Obj(fields))
  {
    DeepZeroIffZeroLeaves(v);
    forall k | k in fields ensures Equal(fields[k], fields[k]) {
      EqualIsReflexive(fields[k]);
    }
    var more := fields[key := v];
    assert key in more && more[key] == v;
  }

  lemma {:induction false} EqualIsTransitive(x: Json, y: Json, z: Json)
    requires Equal(x, y) && Equal(y, z)
    ensures Equal(x, z)
  {
    match (x, y, z)
    case (Arr(xs), Arr(ys), Arr(zs)) =>
      forall i | 0 <= i < |xs| ensures Equal(xs[i], zs[i]) { EqualIsTransitive(xs[i], ys[i], zs[i]); }
    case (Obj(xf), Obj(yf), Obj(zf)) =>
      forall k | k in xf ensures k in zf && Equal(xf[k], zf[k]) { EqualIsTransitive(xf[k], yf[k], zf[k]); }
      forall k | k in zf && k !in xf ensures IsDeepZero(zf[k]) {
        if k in yf { DeepZeroIsClosed(yf[k], zf[k]); }
      }
    case _ =>
  }

  lemma {:induction false} EqualIsAntisymmetric(x: Json, y: Json)
    requires Equal(x, y) && Equal(y, x)
    ensures x == y
  {
    match (x, y)
    case (Arr(xs), Arr(ys)) =>
      forall i | 0 <= i < |xs| ensures xs[i] == ys[i] { EqualIsAntisymmetric(xs[i], ys[i]); }
    case (Obj(xf), Obj(yf)) =>
      assert xf.Keys == yf.Keys;
      forall k | k in xf ensures xf[k] == yf[k] { EqualIsAntisymmetric(xf[k], yf[k]); }
    case _ =>
  }
}
