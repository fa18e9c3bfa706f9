/**
 The differences go-cmp reports between two JSON trees, as dotted paths, and their intersection
 with a kind's field lists (internal/jsonbody/diff.go, and Compare of the generated objects).
 */
module JsonDiff {
  import opened Common
  import opened JsonTree

  datatype Step = Key(key: string) | Index(index: nat)

  type Path = seq<Step>

  /**
   How go-cmp lines two arrays up is its own heuristic, so it is a parameter: an edit script that
   pairs elements or leaves one out on either side.
   */
  datatype Edit = Pair | OnlyX | OnlyY

  type Aligner = (seq<Json>, seq<Json>) -> seq<Edit>

  predicate Covers(edits: seq<Edit>, n: nat, m: nat) {
    if edits == [] then n == 0 && m == 0
    else
      match edits[0]
      case Pair => n > 0 && m > 0 && Covers(edits[1..], n - 1, m - 1)
      case OnlyX => n > 0 && Covers(edits[1..], n - 1, m)
      case OnlyY => m > 0 && Covers(edits[1..], n, m - 1)
  }

  predicate AllPairs(edits: seq<Edit>) {
    forall n | 0 <= n < |edits| :: edits[n].Pair?
  }

  ghost predicate EqualFrom(xs: seq<Json>, ys: seq<Json>, i: nat) {
    |xs| == |ys| && forall k | i <= k < |xs| :: Equal(xs[k], ys[k])
  }

  /** All that is assumed of the alignment: it consumes both arrays, and never splits equal ones. */
  ghost predicate Aligns(align: Aligner) {
    forall xs, ys ::
      && Covers(align(xs, ys), |xs|, |ys|)
      && (EqualFrom(xs, ys, 0) ==> AllPairs(align(xs, ys)))
  }

  /** One alignment there is: pair what can be paired, then list the rest. */
  function Zip(n: nat, m: nat): seq<Edit> {
    if n > 0 && m > 0 then [Pair] + Zip(n - 1, m - 1)
    else if n > 0 then [OnlyX] + Zip(n - 1, m)
    else if m > 0 then [OnlyY] + Zip(n, m - 1)
    else []
  }

  lemma {:induction false} ZipCovers(n: nat, m: nat)
    ensures Covers(Zip(n, m), n, m)
    ensures n == m ==> AllPairs(Zip(n, m))
  {
    if n > 0 && m > 0 {
      ZipCovers(n - 1, m - 1);
    } else if n > 0 {
      ZipCovers(n - 1, m);
    } else if m > 0 {
      ZipCovers(n, m - 1);
    }
  }

  function Zipping(): Aligner {
    (xs: seq<Json>, ys: seq<Json>) => Zip(|xs|, |ys|)
  }

  /** What is assumed of an alignment can be had. */
  lemma ZippingAligns()
    ensures Aligns(Zipping())
  {
    forall xs: seq<Json>, ys: seq<Json>
      ensures Covers(Zipping()(xs, ys), |xs|, |ys|)
      ensures EqualFrom(xs, ys, 0) ==> AllPairs(Zipping()(xs, ys))
    {
      ZipCovers(|xs|, |ys|);
    }
  }

  /** The same paths, one step further down. */
  function Under(step: Step, paths: set<Path>): (under: set<Path>)
    ensures under == {} <==> paths == {}
  {
    var under := set p | p in paths :: [step] + p;
    assert forall p | p in paths :: [step] + p in under;
    under
  }

  /** The value an object holds under a key, if it is an object and has the key. */
  function At(v: Json, key: string): Option<Json> {
    if v.Obj? && key in v.fields then Some(v.fields[key]) else None
  }

  /** Every path at which the comparison of x with y reports a mismatch. */
  function Diff(align: Aligner, x: Json, y: Json): set<Path>
    decreases x, 1, 0
  {
    match (x, y)
    case (Arr(xs), Arr(ys)) => DiffEdits(align, x, y, align(xs, ys), 0, 0)
    case (Obj(xf), Obj(yf)) =>
      set k, p | k in xf.Keys + yf.Keys && p in DiffAt(align, x, y, k) :: [Key(k)] + p
    case _ => if x == y then {} else {[]}
  }

  /** The mismatches at one key, as paths below it. */
  function DiffAt(align: Aligner, x: Json, y: Json, key: string): set<Path>
    decreases x, 0, 0
  {
    match (At(x, key), At(y, key))
    case (Some(xv), Some(yv)) => Diff(align, xv, yv)
    case (Some(_), None) => {[]}
    case (None, Some(yv)) => if IsDeepZero(yv) then {} else {[]}
    case (None, None) => {}
  }

  /** The part of Diff an edit script still has to visit, from element i of x and j of y on. */
  function DiffEdits(align: Aligner, x: Json, y: Json, edits: seq<Edit>, i: nat, j: nat): set<Path>
    requires x.Arr? && y.Arr?
    decreases x, 0, |edits| + 1
  {
    if edits == [] then {}
    else
      DiffEdit(align, x, y, edits[0], i, j) +
      DiffEdits(align, x, y, edits[1..], i + StepX(edits[0]), j + StepY(edits[0]))
  }

  function StepX(edit: Edit): nat {
    if edit.OnlyY? then 0 else 1
  }

  function StepY(edit: Edit): nat {
    if edit.OnlyX? then 0 else 1
  }

  /** The mismatches of one edit; a misaligned element is reported under the index it has. */
  function DiffEdit(align: Aligner, x: Json, y: Json, edit: Edit, i: nat, j: nat): set<Path>
    requires x.Arr? && y.Arr?
    decreases x, 0, 0
  {
    match edit
    case Pair =>
      if i < |x.elems| && j < |y.elems| then Under(Index(i), Diff(align, x.elems[i], y.elems[j])) else {}
    case OnlyX => {[Index(i)]}
    case OnlyY => {[Index(j)]}
  }

  /** The two values under a key agree, an absent key counting as a value of its own. */
  predicate AgreeAt(x: Json, y: Json, key: string) {
    match (At(x, key), At(y, key))
    case (Some(xv), Some(yv)) => Equal(xv, yv)
    case (Some(_), None) => false
    case (None, Some(yv)) => IsDeepZero(yv)
    case (None, None) => true
  }

  /** Nothing is reported exactly when the two are equal. */
  lemma {:induction false} DiffIsEmptyIffEqual(align: Aligner, x: Json, y: Json)
    requires Aligns(align)
    ensures Diff(align, x, y) == {} <==> Equal(x, y)
    decreases x, 1, 0
  {
    match (x, y)
    case (Arr(xs), Arr(ys)) =>
      var edits := align(xs, ys);
      assert Covers(edits, |xs|, |ys|);
      if EqualFrom(xs, ys, 0) {
        PairedEqualElementsReportNothing(align, x, y, edits, 0);
      } else if DiffEdits(align, x, y, edits, 0, 0) == {} {
        SilentEditsPairEqualElements(align, x, y, edits, 0);
      }
    case (Obj(xf), Obj(yf)) =>
      forall k | k in xf.Keys + yf.Keys ensures DiffAt(align, x, y, k) == {} <==> AgreeAt(x, y, k) {
        DiffAtIsEmptyIffAgree(align, x, y, k);
      }
      if Equal(x, y) {
        forall k | k in xf.Keys + yf.Keys ensures DiffAt(align, x, y, k) == {} {
          assert AgreeAt(x, y, k);
        }
      } else {
        var k :| k in xf.Keys + yf.Keys && !AgreeAt(x, y, k);
        var p :| p in DiffAt(align, x, y, k);
        assert [Key(k)] + p in Diff(align, x, y);
      }
    case _ =>
  }

  /** Nothing is reported at a key exactly when the two agree there. */
  lemma {:induction false} DiffAtIsEmptyIffAgree(align: Aligner, x: Json, y: Json, key: string)
    requires Aligns(align)
    ensures DiffAt(align, x, y, key) == {} <==> AgreeAt(x, y, key)
    decreases x, 0, 0
  {
    if x.Obj? && y.Obj? && key in x.fields && key in y.fields {
      DiffIsEmptyIffEqual(align, x.fields[key], y.fields[key]);
    }
  }

  /** A key that only the remote has is not reported exactly if everything in its value is a zero value. */
  lemma AbsentKeyIsSilentIff(align: Aligner, x: Json, y: Json, key: string)
    requires y.Obj? && key in y.fields && At(x, key).None?
    ensures DiffAt(align, x, y, key) == {} <==>
            Leaves(y.fields[key]) <= {Null, Bool(false), Num(0.0), Str(""), Arr([])}
  {
    DeepZeroIffZeroLeaves(y.fields[key]);
  }

  lemma {:induction false} SilentEditsPairEqualElements(align: Aligner, x: Json, y: Json, edits: seq<Edit>, i: nat)
    requires Aligns(align)
    requires x.Arr? && y.Arr? && i <= |x.elems| && i <= |y.elems|
    requires Covers(edits, |x.elems| - i, |y.elems| - i)
    requires DiffEdits(align, x, y, edits, i, i) == {}
    ensures EqualFrom(x.elems, y.elems, i)
    decreases x, 0, |edits| + 1
  {
    if edits != [] {
      SilentEditsStartWithAPair(align, x, y, edits, i);
      DiffIsEmptyIffEqual(align, x.elems[i], y.elems[i]);
      SilentEditsPairEqualElements(align, x, y, edits[1..], i + 1);
      EqualFromHere(x.elems, y.elems, i);
    }
  }

  lemma EqualFromHere(xs: seq<Json>, ys: seq<Json>, i: nat)
    requires i < |xs| && i < |ys| && Equal(xs[i], ys[i]) && EqualFrom(xs, ys, i + 1)
    ensures EqualFrom(xs, ys, i)
  {
  }

  lemma SilentEditsStartWithAPair(align: Aligner, x: Json, y: Json, edits: seq<Edit>, i: nat)
    requires x.Arr? && y.Arr? && i <= |x.elems| && i <= |y.elems|
    requires edits != [] && Covers(edits, |x.elems| - i, |y.elems| - i)
    requires DiffEdits(align, x, y, edits, i, i) == {}
    ensures i < |x.elems| && i < |y.elems| && edits[0].Pair?
    ensures Diff(align, x.elems[i], y.elems[i]) == {} && DiffEdits(align, x, y, edits[1..], i + 1, i + 1) == {}
  {
    var reported := DiffEdits(align, x, y, edits, i, i);
    assert !edits[0].Pair? ==> [Index(i)] in reported;
  }

  lemma {:induction false} PairedEqualElementsReportNothing(align: Aligner, x: Json, y: Json, edits: seq<Edit>, i: nat)
    requires Aligns(align)
    requires x.Arr? && y.Arr? && i <= |x.elems|
    requires EqualFrom(x.elems, y.elems, 0)
    requires AllPairs(edits)
    ensures DiffEdits(align, x, y, edits, i, i) == {}
    decreases x, 0, |edits| + 1
  {
    if edits != [] {
      if i < |x.elems| {
        DiffIsEmptyIffEqual(align, x.elems[i], y.elems[i]);
        PairedEqualElementsReportNothing(align, x, y, edits[1..], i + 1);
      } else {
        PairedEditsPastTheEndReportNothing(align, x, y, edits[1..], i + 1);
      }
    }
  }

  lemma {:induction false} PairedEditsPastTheEndReportNothing(align: Aligner, x: Json, y: Json, edits: seq<Edit>,
                                                              i: nat)
    requires x.Arr? && y.Arr? && i >= |x.elems|
    requires AllPairs(edits)
    ensures DiffEdits(align, x, y, edits, i, i) == {}
  {
    if edits != [] {
      PairedEditsPastTheEndReportNothing(align, x, y, edits[1..], i + 1);
    }
  }
}
