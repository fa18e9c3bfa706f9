/**
 The reporter go-cmp drives while it walks two values (pathReporter in internal/jsonbody/diff.go),
 and that walk: together they report exactly the paths of Diff.
 */
module PathReporting {
  import opened JsonTree
  import opened JsonDiff
  import opened JsonCompare

  class PathReporter {
    var steps: Path
    var paths: seq<string>

    constructor ()
      ensures steps == [] && paths == []
    {
      steps, paths := [], [];
    }

    method PushStep(step: Step)
      modifies this`steps
      ensures steps == old(steps) + [step]
    {
      steps := steps + [step];
    }

    method Report(equal: bool)
      modifies this`paths
      ensures paths == old(paths) + if equal then [] else [FormatPath(steps)]
    {
      if !equal {
        paths := paths + [FormatPath(steps)];
      }
    }

    method PopStep()
      requires steps != []
      modifies this`steps
      ensures steps == old(steps)[..|old(steps)| - 1]
    {
      steps := steps[..|steps| - 1];
    }
  }

  function Strings(paths: seq<string>): set<string> {
    set p | p in paths
  }

  /** The strings reported for paths that continue a given stack of steps. */
  function Located(steps: Path, below: set<Path>): set<string> {
    set p | p in below :: FormatPath(steps + p)
  }

  lemma LocatedUnder(steps: Path, step: Step, below: set<Path>)
    ensures Located(steps, Under(step, below)) == Located(steps + [step], below)
  {
    forall p | p in below ensures steps + ([step] + p) == steps + [step] + p {}
    forall s | s in Located(steps, Under(step, below)) ensures s in Located(steps + [step], below) {
      var q :| q in Under(step, below) && s == FormatPath(steps + q);
      var p :| p in below && q == [step] + p;
    }
    forall s | s in Located(steps + [step], below) ensures s in Located(steps, Under(step, below)) {
      var p :| p in below && s == FormatPath(steps + [step] + p);
      assert [step] + p in Under(step, below);
    }
  }

  lemma LocatedUnion(steps: Path, a: set<Path>, b: set<Path>)
    ensures Located(steps, a + b) == Located(steps, a) + Located(steps, b)
  {
  }

  /** The paths of an object comparison that start at one of the given keys. */
  function DiffAtKeys(align: Aligner, x: Json, y: Json, keys: set<string>): set<Path> {
    set k, p | k in keys && p in DiffAt(align, x, y, k) :: [Key(k)] + p
  }

  lemma DiffAtOneMoreKey(align: Aligner, x: Json, y: Json, keys: set<string>, k: string)
    ensures DiffAtKeys(align, x, y, keys + {k}) ==
            DiffAtKeys(align, x, y, keys) + Under(Key(k), DiffAt(align, x, y, k))
  {
  }

  /** One comparison step at the current path, recursing as go-cmp does. */
  method Walk(align: Aligner, x: Json, y: Json, r: PathReporter)
    modifies r
    ensures r.steps == old(r.steps)
    ensures Strings(r.paths) == Strings(old(r.paths)) + Located(r.steps, Diff(align, x, y))
    decreases x, 2, 0
  {
    if x.Arr? && y.Arr? {
      WalkEdits(align, x, y, align(x.elems, y.elems), 0, 0, r);
    } else if x.Obj? && y.Obj? {
      WalkKeys(align, x, y, r);
    } else {
      r.Report(x == y);
      assert r.steps + [] == r.steps;
    }
  }

  method WalkKeys(align: Aligner, x: Json, y: Json, r: PathReporter)
    requires x.Obj? && y.Obj?
    modifies r
    ensures r.steps == old(r.steps)
    ensures Strings(r.paths) == Strings(old(r.paths)) + Located(r.steps,
                                                                DiffAtKeys(align, x, y, x.fields.Keys + y.fields.Keys))
    decreases x, 1, 0
  {
    var pending := x.fields.Keys + y.fields.Keys;
    ghost var seen := {};
    while pending != {}
      invariant pending + seen == x.fields.Keys + y.fields.Keys
      invariant r.steps == old(r.steps)
      invariant Strings(r.paths) == Strings(old(r.paths)) + Located(r.steps, DiffAtKeys(align, x, y, seen))
      decreases pending
    {
      var k :| k in pending;
      WalkAt(align, x, y, k, r);
      DiffAtOneMoreKey(align, x, y, seen, k);
      LocatedUnion(r.steps, DiffAtKeys(align, x, y, seen), Under(Key(k), DiffAt(align, x, y, k)));
      pending, seen := pending - {k}, seen + {k};
    }
    assert seen == x.fields.Keys + y.fields.Keys;
  }

  /** A map step: a key only one side has is a mismatch, unless only y has it and it is a deep zero. */
  method WalkAt(align: Aligner, x: Json, y: Json, key: string, r: PathReporter)
    requires x.Obj? && y.Obj?
    modifies r
    ensures r.steps == old(r.steps)
    ensures Strings(r.paths) == Strings(old(r.paths)) + Located(r.steps, Under(Key(key), DiffAt(align, x, y, key)))
    decreases x, 0, 0
  {
    r.PushStep(Key(key));
    if key in x.fields && key in y.fields {
      Walk(align, x.fields[key], y.fields[key], r);
    } else {
      var ignored := key !in x.fields && (key !in y.fields || IsDeepZero(y.fields[key]));
      r.Report(ignored);
      assert r.steps + [] == r.steps;
    }
    r.PopStep();
    LocatedUnder(r.steps, Key(key), DiffAt(align, x, y, key));
  }

  method WalkEdits(align: Aligner, x: Json, y: Json, edits: seq<Edit>, i: nat, j: nat, r: PathReporter)
    requires x.Arr? && y.Arr?
    modifies r
    ensures r.steps == old(r.steps)
    ensures Strings(r.paths) == Strings(old(r.paths)) + Located(r.steps, DiffEdits(align, x, y, edits, i, j))
    decreases x, 0, |edits| + 1
  {
    if edits != [] {
      WalkEdit(align, x, y, edits[0], i, j, r);
      WalkEdits(align, x, y, edits[1..], i + StepX(edits[0]), j + StepY(edits[0]), r);
      LocatedUnion(r.steps, DiffEdit(align, x, y, edits[0], i, j),
                   DiffEdits(align, x, y, edits[1..], i + StepX(edits[0]), j + StepY(edits[0])));
    }
  }

  /** A slice step: two paired elements, or one that the other side lacks. */
  method WalkEdit(align: Aligner, x: Json, y: Json, edit: Edit, i: nat, j: nat, r: PathReporter)
    requires x.Arr? && y.Arr?
    modifies r
    ensures r.steps == old(r.steps)
    ensures Strings(r.paths) == Strings(old(r.paths)) + Located(r.steps, DiffEdit(align, x, y, edit, i, j))
    decreases x, 0, 0
  {
    if edit.Pair? {
      if i < |x.elems| && j < |y.elems| {
        r.PushStep(Index(i));
        Walk(align, x.elems[i], y.elems[j], r);
        r.PopStep();
        LocatedUnder(r.steps, Index(i), Diff(align, x.elems[i], y.elems[j]));
      }
    } else {
      r.PushStep(Index(if edit.OnlyX? then i else j));
      r.Report(false);
      r.PopStep();
    }
  }

  /** Compare of a generated object: the walk, then the two intersections. */
  method CompareBodies(align: Aligner, body: Json, remote: Json, updatable: seq<string>, immutable: seq<string>)
    returns (result: CompareResult)
    ensures result == Compare(align, body, remote, updatable, immutable)
  {
    var r := new PathReporter();
    Walk(align, body, remote, r);
    assert Strings(r.paths) == DiffPaths(align, body, remote) by {
      forall p: Path ensures [] + p == p {}
    }
    var u := Intersect(r.paths, updatable);
    var i := Intersect(r.paths, immutable);
    result := CompareResult(u, i);
  }
}
