/**
 The recorded hash need not be the hash of anything SigNoz holds once the body changes under a pass,
 or once there is nothing to send: one run each, keeping to every other assumption.
 */
module HashWitnesses {
  import opened Common
  import opened JsonTree
  import opened Protocol
  import opened Witnesses
  import JsonDiff
  import JsonCompare
  import JsonUpdate
  import RecordedHash
  import T = Transport

  /** A run that ends with a hash in the durable status that no event backs. */
  ghost predicate RecordsAForeignHash(a: Assumptions, labels: seq<Label>) {
    && Start(Kind(), "n", a, Empty()) && Empty().kube.value.status == Status("", "", 0, []) &&
       Run(Kind(), "n", a, Empty(), labels)
    && var now := Exec(Kind(), Empty(), labels);
       && now.kube.Some? && now.kube.value.status.observedHash != ""
       && !RecordedHash.Backed(Kind(), now.log, now.kube.value.status.id, now.kube.value.status.observedHash)
  }

  const EDITED := Spec(Ok(Body("n", "new")), false, false, 0, 0)

  /** The user edits the body after the lookup; the annotation patch then brings the edit into the pass. */
  lemma EditUnderThePass(a: Assumptions) returns (labels: seq<Label>, now: State)
    requires a == ALL.(steady := false)
    ensures Reaches(a, labels, now) && now.remote == Empty().remote && now.log == [Searched(ToAdopt, "n", [], "")]
    ensures var r := Changed(Changed(Fresh().(spec := EDITED, generation := 1)).(attempt := true));
            now.kube == Some(r) && now.pass == Running(r, Fresh().status, "n", "hash", 0, Post)
  {
    var start, r := Initially(a);
    labels, now := Lookup(a, [], start, r, "n", []);
    assert Identity(Kind(), EDITED) == Ok("n");
    labels, now := Environment(a, labels, now, EditSpec(EDITED));
    labels, now := Writes(a, labels, now, Applied);
  }

  /** About to record a hash for the object that a POST of the new body made. */
  predicate SavesTheEdit(now: State, hash: string) {
    && now.log == [Searched(ToAdopt, "n", [], ""), Posted, Named("1", Body("n", "new"))]
    && now.kube.Some? && now.kube.value.finalizer && now.pass.Running? && now.pass.pc.SaveStatus?
    && now.pass.copy == now.kube.value.(status := now.pass.copy.status)
    && now.pass.copy.status.id == "1" && now.pass.copy.status.observedHash == hash
  }

  /** A pass is about to POST the new body. */
  predicate PostsTheEdit(now: State, hash: string) {
    && now.log == [Searched(ToAdopt, "n", [], "")]
    && now.pass.Running? && now.pass.pc.Post? && now.pass.copy.spec == EDITED
    && now.pass.before.id == "" && now.pass.hash == hash
    && now.kube == Some(now.pass.copy) && now.pass.copy.finalizer
  }

  const WIRE := T.Answer(201, T.Readable("1"))

  /** A create by a pass that has saved nothing yet leads to a status write with the pass's own hash. */
  lemma CreateIsSaved(s: State, hash: string)
    requires PostsTheEdit(s, hash)
    ensures SavesTheEdit(PostStep(Kind(), s, WIRE, Lands("1", Null)), hash)
  {
    T.CreatedIffReadableSuccess(None, WIRE, "1");
  }

  /** SigNoz can take that POST, and name an object for it. */
  lemma TakesTheEdit(a: Assumptions) returns (labels: seq<Label>, now: State)
    requires a == ALL.(steady := false)
    ensures Reaches(a, labels, now) && PostsTheEdit(now, "hash")
    ensures CanMeet(Kind(), now, PostFate(WIRE, Lands("1", Null)))
  {
    labels, now := EditUnderThePass(a);
    T.CreatedIffReadableSuccess(None, WIRE, "1");
  }

  /** The create sends the new body, and is about to record the hash of the old one. */
  lemma PostTheEdit(a: Assumptions) returns (labels: seq<Label>, now: State)
    requires a == ALL.(steady := false)
    ensures Reaches(a, labels, now) && SavesTheEdit(now, "hash")
  {
    labels, now := TakesTheEdit(a);
    CreateIsSaved(now, "hash");
    labels, now := Posts(a, labels, now, WIRE, Lands("1", Null));
  }

  lemma TheEditBacksAnotherHash(log: seq<Event>, id: string)
    requires log == [Searched(ToAdopt, "n", [], ""), Posted, Named("1", Body("n", "new"))]
    ensures !RecordedHash.Backed(Kind(), log, id, "hash")
  {
    assert Kind().hashOf(Body("n", "new")) == Ok("new");
  }

  lemma SteadyIsNeeded(a: Assumptions)
    requires a == ALL.(steady := false)
    ensures exists labels :: RecordsAForeignHash(a, labels)
  {
    var labels, now := PostTheEdit(a);
    TheEditBacksAnotherHash(now.log, "1");
    labels, now := Save(a, labels, now);
    assert RecordsAForeignHash(a, labels);
  }

  const BARE := Obj(map["name" := Str("n")])

  /** A body with no updatable field, and a remote object that has one. */
  lemma BareBody(a: Assumptions) returns (labels: seq<Label>, now: State, r: Resource)
    requires a == ALL.(payload := false)
    ensures Reaches(a, labels, now) && now.kube == Some(r) && now.pass.Idle? && now.log == []
    ensures r == Changed(Fresh().(spec := Spec(Ok(BARE), false, false, 0, 0), generation := 1))
    ensures now.remote == Remote(map["1" := Entry("n", Body("n", "remote"), false)], {"1"}, [])
  {
    now, r := Initially(a);
    var bare := Spec(Ok(BARE), false, false, 0, 0);
    assert Identity(Kind(), bare) == Ok("n");
    labels, now := Environment(a, [], now, EditSpec(bare));
    labels, now := Environment(a, labels, now, ForeignPut("1", "n", Body("n", "remote")));
    r := now.kube.value;
  }

  lemma BareBodyDrifts()
    ensures JsonUpdate.Projection(BARE, ["field"]) == map[]
    ensures JsonCompare.Compare(JsonDiff.Zipping(), BARE, Body("n", "remote"), ["field"], []).updatable != []
    ensures JsonCompare.Compare(JsonDiff.Zipping(), BARE, Body("n", "remote"), ["field"], []).immutable == []
  {
    JsonDiff.ZippingAligns();
    var remote := Body("n", "remote");
    assert JsonDiff.At(remote, "field") == Some(Str("remote"));
    assert !JsonDiff.AgreeAt(BARE, remote, "field");
    JsonCompare.ReportIsExact(JsonDiff.Zipping(), BARE, remote, "field");
    JsonCompare.OverlappingMembers(JsonCompare.DiffPaths(JsonDiff.Zipping(), BARE, remote), ["field"], "field");
  }

  function AtBare(r: Resource, pc: PC): (p: Pass)
    ensures p.Running?
  {
    Running(r, Fresh().status, "n", "none", 1, pc)
  }

  /** What the run keeps while it adopts. */
  ghost predicate Adopting(a: Assumptions, labels: seq<Label>, now: State, r: Resource) {
    && Reaches(a, labels, now) && now.kube == Some(r)
    && r.finalizer && !r.deleting && r.pin == "" && r.spec == Spec(Ok(BARE), false, false, 0, 0)
    && r.status == Fresh().status && r.generation == 1
    && now.remote == Remote(map["1" := Entry("n", Body("n", "remote"), false)], {"1"}, [])
  }

  lemma ToBareLookup(a: Assumptions) returns (labels: seq<Label>, now: State, r: Resource)
    requires a == ALL.(payload := false)
    ensures Adopting(a, labels, now, r) && now.log == [] && now.pass == AtBare(r, FindNew)
  {
    labels, now, r := BareBody(a);
    labels, now := Begins(a, labels, now);
    assert now.pass == AtBare(r, Resolve);
    labels := Take(a, labels, now, Effect(ResolveFate(None)));
    now := now.(pass := AtBare(r, FindNew));
  }

  lemma FindBare(a: Assumptions) returns (labels: seq<Label>, now: State, r: Resource)
    requires a == ALL.(payload := false)
    ensures Adopting(a, labels, now, r) && now.log == [Searched(ToAdopt, "n", ["1"], "")] &&
            now.pass == AtBare(r, MarkAdopt("1"))
  {
    labels, now, r := ToBareLookup(a);
    labels := Take(a, labels, now, Effect(ListFate(Ok(["1"]))));
    now := ListStep(Kind(), now, Ok(["1"]));
  }

  lemma MarkBare(a: Assumptions) returns (labels: seq<Label>, now: State, r: Resource)
    requires a == ALL.(payload := false)
    ensures Adopting(a, labels, now, r) && now.log == [Searched(ToAdopt, "n", ["1"], "")]
    ensures now.pass == AtBare(r.(status := r.status.(id := "1")), Read)
  {
    labels, now, r := FindBare(a);
    labels, now := Writes(a, labels, now, Applied);
    r := now.kube.value;
  }

  /** The update sends nothing, and its hash is recorded all the same. */
  lemma ReadBare(a: Assumptions) returns (labels: seq<Label>, now: State)
    requires a == ALL.(payload := false)
    ensures Reaches(a, labels, now) && now.log == [Searched(ToAdopt, "n", ["1"], "")]
    ensures now.kube.Some? && now.kube.value.finalizer && now.pass.Running? && now.pass.pc.SaveStatus?
    ensures now.pass.copy == now.kube.value.(status := now.pass.copy.status)
    ensures now.pass.copy.status.observedHash == "none"
  {
    var r;
    labels, now, r := MarkBare(a);
    BareBodyDrifts();
    labels := Take(a, labels, now, Effect(ReadFate(None)));
    now := ReadStep(Kind(), now, None);
  }

  lemma PayloadIsNeeded(a: Assumptions)
    requires a == ALL.(payload := false)
    ensures exists labels :: RecordsAForeignHash(a, labels)
  {
    var labels, now := ReadBare(a);
    labels, now := Save(a, labels, now);
    assert RecordsAForeignHash(a, labels);
  }
}
