/**
 Dotted paths, their overlap with field lists, and what Compare of a generated object reports
 (internal/jsonbody/diff.go; Compare in internal/resources/objects/zz_generated_role_object.go).
 */
module JsonCompare {
  import opened JsonTree
  import opened JsonDiff

  function Itoa(n: nat): string {
    if n < 10 then [Digit(n)] else Itoa(n / 10) + [Digit(n % 10)]
  }

  function Digit(n: nat): char
    requires n < 10
  {
    "0123456789"[n]
  }

  function Segment(step: Step): string {
    match step
    case Key(key) => key
    case Index(index) => Itoa(index)
  }

  function FormatPath(p: Path): string {
    if p == [] then ""
    else if |p| == 1 then Segment(p[0])
    else Segment(p[0]) + "." + FormatPath(p[1..])
  }

  function DigitValue(c: char): nat {
    if '0' <= c <= '9' then (c - '0') as nat else 0
  }

  /** The number a string of digits stands for. */
  function Atoi(s: string): nat {
    if s == "" then 0 else Atoi(s[..|s| - 1]) * 10 + DigitValue(s[|s| - 1])
  }

  /** An index is formatted as digits that read back as it, with no zero in front. */
  lemma {:induction false} ItoaReadsBack(n: nat)
    ensures Itoa(n) != "" && Atoi(Itoa(n)) == n
    ensures forall i | 0 <= i < |Itoa(n)| :: '0' <= Itoa(n)[i] <= '9'
    ensures n > 0 ==> Itoa(n)[0] != '0'
  {
    if n >= 10 {
      ItoaReadsBack(n / 10);
      assert Itoa(n)[..|Itoa(n)| - 1] == Itoa(n / 10);
    } else {
      assert Itoa(n)[..0] == "";
    }
  }

  /** A path is its segments joined by dots. */
  lemma {:induction false} FormatPathJoins(p: Path, step: Step)
    ensures FormatPath(p + [step]) ==
            if p == [] then Segment(step) else FormatPath(p) + "." + Segment(step)
  {
    if p == [] {
      assert p + [step] == [step];
    } else {
      assert (p + [step])[1..] == p[1..] + [step];
      FormatPathJoins(p[1..], step);
    }
  }

  function DiffPaths(align: Aligner, x: Json, y: Json): set<string> {
    set p | p in Diff(align, x, y) :: FormatPath(p)
  }

  predicate Overlaps(x: string, y: string) {
    x == y || x == "" || y == "" || y + "." <= x || x + "." <= y
  }

  /** The fields some path overlaps, in the order of the field list. */
  function Overlapping(paths: set<string>, fields: seq<string>): seq<string> {
    if fields == [] then []
    else
      (if exists p | p in paths :: Overlaps(fields[0], p) then [fields[0]] else []) +
      Overlapping(paths, fields[1..])
  }

  lemma {:induction false} OverlappingMembers(paths: set<string>, fields: seq<string>, f: string)
    ensures f in Overlapping(paths, fields) <==> f in fields && exists p | p in paths :: Overlaps(f, p)
  {
    if fields != [] {
      OverlappingMembers(paths, fields[1..], f);
    }
  }

  lemma {:induction false} OverlappingAppends(paths: set<string>, a: seq<string>, f: string)
    ensures Overlapping(paths, a + [f]) ==
            Overlapping(paths, a) + (if exists p | p in paths :: Overlaps(f, p) then [f] else [])
  {
    if a == [] {
      assert a + [f] == [f] && [f][1..] == [];
    } else {
      assert (a + [f])[1..] == a[1..] + [f];
      OverlappingAppends(paths, a[1..], f);
    }
  }

  method Intersect(x: seq<string>, y: seq<string>) returns (intersection: seq<string>)
    ensures intersection == Overlapping((set p | p in x), y)
  {
    intersection := [];
    ghost var paths := set p | p in x;
    for i := 0 to |y|
      invariant intersection == Overlapping(paths, y[..i])
    {
      var candidate := y[i];
      ghost var before := intersection;
      var j := 0;
      while j < |x|
        invariant 0 <= j <= |x| && intersection == before
        invariant forall k | 0 <= k < j :: !Overlaps(candidate, x[k])
      {
        if Overlaps(candidate, x[j]) {
          intersection := intersection + [candidate];
          break;
        }
        j := j + 1;
      }
      assert (exists p | p in paths :: Overlaps(candidate, p)) <==> j < |x| by {
        if j < |x| { assert x[j] in paths; }
      }
      OverlappingAppends(paths, y[..i], candidate);
      assert y[..i + 1] == y[..i] + [candidate];
    }
    assert y[..|y|] == y;
  }

  /** A field name as the generated lists hold them: not empty, and free of dots. */
  predicate PlainField(f: string) {
    f != "" && forall i | 0 <= i < |f| :: f[i] != '.'
  }

  /** Another top-level key whose paths read like paths of field f once they are joined. */
  predicate Aliases(key: string, f: string) {
    key != f && (key == "" || f + "." <= key)
  }

  function Keys(v: Json): set<string> {
    if v.Obj? then v.fields.Keys else {}
  }

  /** Field f is among the reported fields. */
  predicate Reported(align: Aligner, x: Json, y: Json, f: string) {
    exists p | p in DiffPaths(align, x, y) :: Overlaps(f, p)
  }

  lemma PathUnderKey(key: string, p: Path)
    ensures p == [] ==> FormatPath([Key(key)] + p) == key
    ensures p != [] ==> FormatPath([Key(key)] + p) == key + "." + FormatPath(p)
  {
    assert ([Key(key)] + p)[1..] == p;
  }

  /** A path overlaps a plain field only if it lies under that field or under an aliasing key. */
  lemma OverlapNeedsTheField(f: string, key: string, p: Path)
    requires PlainField(f)
    requires Overlaps(f, FormatPath([Key(key)] + p))
    ensures key == f || Aliases(key, f)
  {
    var path := FormatPath([Key(key)] + p);
    PathUnderKey(key, p);
    DottedPrefixIsNotPlain(path, f);
    DottedPrefixIsNotPlain(key, f);
    if p != [] && f + "." <= path {
      TwoPrefixes(f, key, path);
    }
  }

  lemma DottedPrefixIsNotPlain(prefix: string, f: string)
    ensures prefix + "." <= f ==> !PlainField(f)
  {
    if prefix + "." <= f {
      assert f[|prefix|] == '.';
    }
  }

  /** Of two dotted prefixes of one string, the shorter one is a dotted prefix of the longer. */
  lemma TwoPrefixes(a: string, b: string, s: string)
    requires a + "." <= s && b + "." <= s
    ensures a == b || a + "." <= b || b + "." <= a
  {
    if |a| > |b| {
      assert b + "." == s[..|b| + 1] == a[..|b| + 1];
    } else if |a| == |b| {
      assert a == s[..|a|] == b;
    } else {
      assert a + "." == s[..|a| + 1] == b[..|a| + 1];
    }
  }

  /** A path of plain keys, as a field list may name it. */
  predicate PlainPath(p: Path) {
    forall i | 0 <= i < |p| :: p[i].Key? && PlainField(p[i].key)
  }

  lemma OverlapsUnder(key: string, a: string, b: string)
    requires a != "" && b != ""
    ensures Overlaps(key + "." + a, key + "." + b) <==> Overlaps(a, b)
  {
    var x, y, front := key + "." + a, key + "." + b, key + ".";
    assert x[|front|..] == a && y[|front|..] == b;
    assert y + "." == front + (b + ".") && x + "." == front + (a + ".");
    PrefixUnder(front, b + ".", a);
    PrefixUnder(front, a + ".", b);
  }

  lemma PrefixUnder(front: string, a: string, b: string)
    ensures front + a <= front + b <==> a <= b
  {
    if front + a <= front + b {
      assert (front + b)[|front|..|front| + |a|] == b[..|a|];
      assert (front + a)[|front|..] == a;
    }
  }

  lemma PlainPathIsNotEmpty(p: Path)
    requires PlainPath(p) && p != []
    ensures FormatPath(p) != "" && p[0].key <= FormatPath(p)
    ensures |p| > 1 ==> FormatPath(p) == p[0].key + "." + FormatPath(p[1..])
  {
  }

  /** Under different plain keys nothing overlaps. */
  lemma PlainKeysApart(a: string, b: string, x: string, y: string)
    requires PlainField(a) && PlainField(b) && a != b
    requires (x == a || a + "." <= x) && (y == b || b + "." <= y)
    ensures !Overlaps(x, y)
  {
    DottedPrefixIsNotPlain(a, b);
    DottedPrefixIsNotPlain(b, a);
    var longer := if |x| >= |y| then x else y;
    if a + "." <= longer && b + "." <= longer {
      TwoPrefixes(a, b, longer);
    }
  }

  /** Two dotted paths overlap exactly if one of them leads through the other. */
  lemma {:induction false} OverlapsIffOneLeadsThrough(p: Path, q: Path)
    requires PlainPath(p) && PlainPath(q)
    ensures Overlaps(FormatPath(p), FormatPath(q)) <==> p <= q || q <= p
  {
    if p != [] && q != [] {
      PlainPathIsNotEmpty(p);
      PlainPathIsNotEmpty(q);
      if p[0] != q[0] {
        PlainKeysApart(p[0].key, q[0].key, FormatPath(p), FormatPath(q));
      } else if |p| > 1 && |q| > 1 {
        OverlapsIffOneLeadsThrough(p[1..], q[1..]);
        PlainPathIsNotEmpty(p[1..]);
        PlainPathIsNotEmpty(q[1..]);
        OverlapsUnder(p[0].key, FormatPath(p[1..]), FormatPath(q[1..]));
        assert p == [p[0]] + p[1..] && q == [q[0]] + q[1..];
      }
    }
  }

  lemma PathUnderTheFieldOverlaps(f: string, p: Path)
    ensures Overlaps(f, FormatPath([Key(f)] + p))
  {
    PathUnderKey(f, p);
  }

  /** What disagrees is always reported: an aliasing key can only add false reports. */
  lemma UnreportedAgrees(align: Aligner, x: Json, y: Json, f: string)
    requires Aligns(align) && x.Obj? && PlainField(f) && !Reported(align, x, y, f)
    ensures y.Obj? && AgreeAt(x, y, f)
  {
    if !y.Obj? {
      assert [] in Diff(align, x, y);
      assert FormatPath([]) in DiffPaths(align, x, y);
      assert Overlaps(f, "");
    } else if !AgreeAt(x, y, f) {
      DiffAtIsEmptyIffAgree(align, x, y, f);
      var p :| p in DiffAt(align, x, y, f);
      assert f in x.fields.Keys + y.fields.Keys;
      assert [Key(f)] + p in Diff(align, x, y);
      assert FormatPath([Key(f)] + p) in DiffPaths(align, x, y);
      PathUnderTheFieldOverlaps(f, p);
    }
  }

  /**
   For two objects whose top-level keys do not alias a plain field, the field is reported exactly
   when the two values under it, presence included, are not equal up to ignorable keys.
   */
  lemma ReportIsExact(align: Aligner, x: Json, y: Json, f: string)
    requires Aligns(align) && x.Obj? && y.Obj? && PlainField(f)
    requires forall k | k in Keys(x) + Keys(y) :: !Aliases(k, f)
    ensures Reported(align, x, y, f) <==> !AgreeAt(x, y, f)
  {
    DiffAtIsEmptyIffAgree(align, x, y, f);
    if Reported(align, x, y, f) {
      var path :| path in DiffPaths(align, x, y) && Overlaps(f, path);
      var full :| full in Diff(align, x, y) && FormatPath(full) == path;
      var k, p :| k in x.fields.Keys + y.fields.Keys && p in DiffAt(align, x, y, k) && full == [Key(k)] + p;
      OverlapNeedsTheField(f, k, p);
    } else {
      UnreportedAgrees(align, x, y, f);
    }
  }

  /** The report about f is right for every pair of objects over a set of keys. */
  ghost predicate ExactOver(align: Aligner, keys: set<string>, f: string) {
    forall x: Json, y: Json | x.Obj? && y.Obj? && Keys(x) + Keys(y) <= keys ::
      Reported(align, x, y, f) <==> !AgreeAt(x, y, f)
  }

  /** Aliasing keys are the only thing that makes a report about a plain field wrong. */
  lemma ExactIffNothingAliases(align: Aligner, keys: set<string>, f: string)
    requires Aligns(align) && PlainField(f)
    ensures ExactOver(align, keys, f) <==> forall k | k in keys :: !Aliases(k, f)
  {
    if forall k | k in keys :: !Aliases(k, f) {
      forall x: Json, y: Json | x.Obj? && y.Obj? && Keys(x) + Keys(y) <= keys
        ensures Reported(align, x, y, f) <==> !AgreeAt(x, y, f)
      {
        ReportIsExact(align, x, y, f);
      }
    } else {
      var k :| k in keys && Aliases(k, f);
      AliasIsMisreported(align, k, f);
    }
  }

  /** A remote that only has an aliasing key is reported as a change of f, which neither side has. */
  lemma AliasIsMisreported(align: Aligner, key: string, f: string)
    requires Aliases(key, f)
    ensures Reported(align, Obj(map[]), Obj(map[key := Bool(true)]), f)
    ensures AgreeAt(Obj(map[]), Obj(map[key := Bool(true)]), f)
  {
    var x, y := Obj(map[]), Obj(map[key := Bool(true)]);
    assert [] in DiffAt(align, x, y, key);
    assert [Key(key)] + [] in Diff(align, x, y);
    PathUnderKey(key, []);
    assert key in DiffPaths(align, x, y);
    assert Overlaps(f, key);
  }

  datatype CompareResult = CompareResult(updatable: seq<string>, immutable: seq<string>)

  function Compare(align: Aligner, body: Json, remote: Json, updatable: seq<string>,
                   immutable: seq<string>): CompareResult {
    var paths := DiffPaths(align, body, remote);
    CompareResult(Overlapping(paths, updatable), Overlapping(paths, immutable))
  }

  /** Compare lists exactly the fields that disagree; when the remote is no object, all of them. */
  lemma CompareIsExact(align: Aligner, body: Json, remote: Json, updatable: seq<string>, immutable: seq<string>,
                       f: string)
    requires Aligns(align) && body.Obj? && PlainField(f)
    requires forall k | k in Keys(body) + Keys(remote) :: !Aliases(k, f)
    ensures f in Compare(align, body, remote, updatable, immutable).updatable <==>
            f in updatable && (remote.Obj? ==> !AgreeAt(body, remote, f))
    ensures f in Compare(align, body, remote, updatable, immutable).immutable <==>
            f in immutable && (remote.Obj? ==> !AgreeAt(body, remote, f))
  {
    var paths := DiffPaths(align, body, remote);
    OverlappingMembers(paths, updatable, f);
    OverlappingMembers(paths, immutable, f);
    if remote.Obj? {
      ReportIsExact(align, body, remote, f);
    } else {
      assert [] in Diff(align, body, remote);
      assert FormatPath([]) in paths;
      assert Overlaps(f, "");
    }
  }
}
