/**
 For each assumption of module Safety, a run that keeps to all the others and ends in a state that one
 of its theorems excludes. Module Hypotheses says which theorem needs which.
 */
module Witnesses {
  import opened Common
  import opened JsonTree
  import opened Protocol
  import opened Safety
  import JsonDiff
  import JsonUpdate
  import E = Errors
  import T = Transport

  /** Everything the theorems of module Safety may assume, and steadiness on top. */
  const ALL := Assumptions(true, true, true, true, true, true, true, true, true)

  function Text(b: Json, field: string): string {
    if b.Obj? && field in b.fields && b.fields[field].Str? then b.fields[field].s else ""
  }

  /** A kind with a name and one updatable field, which is also what it hashes. */
  function Kind(): Operator {
    Operator((b: Json) => Text(b, "name"), (b: Json) => Ok(if Text(b, "field") == "" then "none" else Text(b, "field")),
             ["field"], [], JsonDiff.Zipping(), 1, 1)
  }

  function Body(name: string, field: string): (b: Json)
    requires field != ""
    ensures Kind().identityOf(b) == name && Kind().hashOf(b) == Ok(field)
    ensures JsonUpdate.Projection(b, Kind().updatable) != map[]
  {
    var b := Obj(map["name" := Str(name), "field" := Str(field)]);
    assert "field" in JsonUpdate.Projection(b, ["field"]);
    b
  }

  function Named(name: string): Spec {
    Spec(Ok(Body(name, "hash")), false, false, 0, 0)
  }

  function Fresh(): Resource {
    Resource(0, 0, true, false, false, "", false, Named("n"), Status("", "", 0, []))
  }

  function Empty(): State {
    State(Some(Fresh()), Remote(map[], {}, []), Idle(DONE), [])
  }

  ghost predicate Reaches(a: Assumptions, labels: seq<Label>, now: State) {
    && Start(Kind(), "n", a, Empty())
    && Run(Kind(), "n", a, Empty(), labels) && Exec(Kind(), Empty(), labels) == now
  }

  /** One more label on a run. */
  lemma Take(a: Assumptions, labels: seq<Label>, now: State, l: Label) returns (labels': seq<Label>)
    requires Reaches(a, labels, now)
    requires Possible(Kind(), now, l) && Assumed(Kind(), "n", a, now, l)
    ensures Reaches(a, labels', Step(Kind(), now, l))
  {
    labels' := labels + [l];
    assert labels'[..|labels'| - 1] == labels;
  }

  lemma Environment(a: Assumptions, labels: seq<Label>, now: State, l: Label) returns (labels': seq<Label>, now': State)
    requires Reaches(a, labels, now) && !l.BeginPass? && !l.Effect?
    requires Possible(Kind(), now, l) && Assumed(Kind(), "n", a, now, l)
    ensures now' == EnvironmentStep(now, l) && Reaches(a, labels', now')
  {
    labels' := Take(a, labels, now, l);
    now' := EnvironmentStep(now, l);
  }

  lemma Begins(a: Assumptions, labels: seq<Label>, now: State) returns (labels': seq<Label>, now': State)
    requires Reaches(a, labels, now) && now.kube.Some? && now.pass.Idle?
    ensures now' == now.(pass := Begin(Kind(), now.kube.value)) && Reaches(a, labels', now')
  {
    labels' := Take(a, labels, now, BeginPass);
    now' := now.(pass := Begin(Kind(), now.kube.value));
  }

  lemma Writes(a: Assumptions, labels: seq<Label>, now: State, write: Write) returns (labels': seq<Label>, now': State)
    requires Reaches(a, labels, now) && now.pass.Running? && CanMeet(Kind(), now, WriteFate(write))
    requires FateAssumed(Kind(), a, now, WriteFate(write))
    ensures now' == WriteStep(Kind(), now, write) && Reaches(a, labels', now')
  {
    labels' := Take(a, labels, now, Effect(WriteFate(write)));
    now' := WriteStep(Kind(), now, write);
  }

  lemma Posts(a: Assumptions, labels: seq<Label>, now: State, wire: T.Wire, landing: Landing)
      returns (labels': seq<Label>, now': State)
    requires Reaches(a, labels, now) && now.pass.Running? && CanMeet(Kind(), now, PostFate(wire, landing))
    requires a.cleanRefusal && T.Refused(wire) ==> landing.Never?
    ensures now' == PostStep(Kind(), now, wire, landing) && Reaches(a, labels', now')
  {
    labels' := Take(a, labels, now, Effect(PostFate(wire, landing)));
    now' := PostStep(Kind(), now, wire, landing);
  }

  /** A resource with no recorded id, ready for a pass. */
  predicate Ready(s: State, r: Resource, name: string) {
    && s.kube == Some(r) && s.pass.Idle?
    && r.finalizer && !r.deleting && r.spec == Named(name) && name != "" && r.status == Status("", "", 0, [])
  }

  function At(r: Resource, name: string, pc: PC): (p: Pass)
    ensures p.Running?
  {
    Running(r, r.status, name, "hash", r.generation, pc)
  }

  function Marked(r: Resource, name: string): (p: Pass)
    ensures p.Running?
  {
    Running(Changed(r.(attempt := true)), r.status, name, "hash", r.generation, Post)
  }

  /** A pass up to its lookup. */
  lemma ToLookup(a: Assumptions, labels: seq<Label>, now: State, r: Resource, name: string)
      returns (labels': seq<Label>)
    requires Reaches(a, labels, now) && Ready(now, r, name)
    ensures Reaches(a, labels', now.(pass := At(r, name, FindNew)))
  {
    labels' := Take(a, labels, now, BeginPass);
    labels' := Take(a, labels', now.(pass := At(r, name, Resolve)), Effect(ResolveFate(None)));
  }

  /** The lookup, with what it leads to. */
  lemma Lookup(a: Assumptions, labels: seq<Label>, now: State, r: Resource, name: string, ids: seq<string>)
    returns (labels': seq<Label>, now': State)
    requires Reaches(a, labels, now) && Ready(now, r, name) && "" !in ids
    requires a.visible ==> now.remote.inflight == [] && ListsAll(now.remote, name, ids)
    ensures Reaches(a, labels', now')
    ensures now'.kube == now.kube && now'.remote == now.remote
    ensures now'.pass == OnNewObject(Kind(), At(r, name, FindNew), ids)
    ensures now'.log == now.log + [Searched(ToAdopt, name, ids, r.pin)]
  {
    labels' := ToLookup(a, labels, now, r, name);
    var at := now.(pass := At(r, name, FindNew));
    labels' := Take(a, labels', at, Effect(ListFate(Ok(ids))));
    now' := ListStep(Kind(), at, Ok(ids));
  }

  /** The annotation before the POST. */
  lemma Mark(a: Assumptions, labels: seq<Label>, now: State, r: Resource, name: string) returns (labels': seq<Label>)
    requires Reaches(a, labels, now) && now.kube == Some(r) && !(r.deleting && !r.held && !r.finalizer)
    requires now.pass == At(r, name, MarkCreate)
    ensures var r' := Changed(r.(attempt := true));
            Reaches(a, labels', now.(kube := Some(r'), pass := Marked(r, name)))
  {
    labels' := Take(a, labels, now, Effect(WriteFate(Applied)));
  }

  /** From an empty lookup through the POST. */
  lemma Create(a: Assumptions, labels: seq<Label>, now: State, r: Resource, name: string, wire: T.Wire,
               landing: Landing)
    returns (labels': seq<Label>, now': State)
    requires Reaches(a, labels, now) && now.kube == Some(r) && r.spec == Named(name) && r.finalizer
    requires now.pass == At(r, name, MarkCreate)
    requires T.Create(None, wire).Ok? ==> landing.Lands? && landing.id == T.Create(None, wire).value
    requires !wire.NotSent? && (landing.Lands? ==> FreshId(now.remote, landing.id))
    requires a.cleanRefusal && T.Refused(wire) ==> landing.Never?
    ensures Reaches(a, labels', now')
    ensures now'.kube == Some(Changed(r.(attempt := true)))
    ensures now'.remote == AfterPost(Kind(), now.remote, Body(name, "hash"), landing)
    ensures now'.pass == OnCreated(Kind(), Marked(r, name), T.Create(None, wire))
  {
    labels' := Mark(a, labels, now, r, name);
    var r' := Changed(r.(attempt := true));
    var at := now.(kube := Some(r'), pass := Marked(r, name));
    labels', now' := Posts(a, labels', at, wire, landing);
  }

  lemma Initially(a: Assumptions) returns (now: State, r: Resource)
    ensures now == Empty() && r == Fresh() && Reaches(a, [], now) && Ready(now, r, "n") && r.pin == ""
    ensures now.remote.inflight == [] && ListsAll(now.remote, "n", [])
    ensures forall id :: id != "" ==> FreshId(now.remote, id)
  {
    now, r := Empty(), Fresh();
    NamedIsAssumed(a, "n");
    assert Start(Kind(), "n", a, now);
  }

  lemma NamedIsAssumed(a: Assumptions, name: string)
    requires name != ""
    ensures SpecAssumed(Kind(), name, a, Named(name))
  {
    assert Identity(Kind(), Named(name)) == Ok(name);
  }

  /** The first pass of a resource through its POST. */
  lemma FirstPost(a: Assumptions, wire: T.Wire, landing: Landing) returns (labels: seq<Label>, now: State)
    requires T.Create(None, wire).Ok? ==> landing.Lands? && landing.id == T.Create(None, wire).value
    requires !wire.NotSent? && (landing.Lands? ==> landing.id != "")
    requires a.cleanRefusal && T.Refused(wire) ==> landing.Never?
    ensures Reaches(a, labels, now)
    ensures now.kube == Some(Changed(Fresh().(attempt := true)))
    ensures now.remote == AfterPost(Kind(), Empty().remote, Body("n", "hash"), landing)
    ensures now.pass == OnCreated(Kind(), Marked(Fresh(), "n"), T.Create(None, wire))
  {
    var start, r := Initially(a);
    labels, now := Lookup(a, [], start, r, "n", []);
    labels, now := Create(a, labels, now, r, "n", wire, landing);
  }

  /** A POST that lands while its reply is lost, and an operator that dies on it. */
  lemma LoseReply(a: Assumptions, labels: seq<Label>, now: State, r: Resource, name: string, id: string)
    returns (labels': seq<Label>, now': State)
    requires Reaches(a, labels, now) && Ready(now, r, name) && r.pin == ""
    requires a.visible ==> now.remote.inflight == [] && ListsAll(now.remote, name, [])
    requires FreshId(now.remote, id)
    ensures Reaches(a, labels', now')
    ensures now'.kube == Some(Changed(r.(attempt := true))) && now'.pass.Idle?
    ensures now'.remote == Store(now.remote, id, Entry(name, Null, true))
  {
    labels', now' := Lookup(a, labels, now, r, name, []);
    labels', now' := Create(a, labels', now', r, name, T.NoAnswer(""), Lands(id, Null));
    if now'.pass.Running? {
      labels', now' := Environment(a, labels', now', Crash);
    }
  }

  lemma LoseFirstReply(a: Assumptions) returns (labels: seq<Label>, now: State)
    ensures Reaches(a, labels, now) && now.pass.Idle?
    ensures now.kube == Some(Changed(Fresh().(attempt := true)))
    ensures now.remote == Remote(map["1" := Entry("n", Null, true)], {"1"}, [])
  {
    var start, r := Initially(a);
    labels, now := LoseReply(a, [], start, r, "n", "1");
  }

  lemma VisibilityIsNeeded(a: Assumptions)
    requires a == ALL.(visible := false)
    ensures Start(Kind(), "n", a, Empty())
    ensures exists labels ::
              Run(Kind(), "n", a, Empty(), labels) && !AtMostOneOurs(Exec(Kind(), Empty(), labels).remote)
  {
    var labels, now := LoseFirstReply(a);
    labels, now := LoseReply(a, labels, now, now.kube.value, "n", "2");
    assert "1" in now.remote.live && "2" in now.remote.live;
    assert Run(Kind(), "n", a, Empty(), labels);
  }

  lemma FixedIdentityIsNeeded(a: Assumptions)
    requires a == ALL.(fixedIdentity := false)
    ensures Start(Kind(), "n", a, Empty())
    ensures exists labels ::
              Run(Kind(), "n", a, Empty(), labels) && !AtMostOneOurs(Exec(Kind(), Empty(), labels).remote)
  {
    var labels, now := LoseFirstReply(a);
    labels, now := Environment(a, labels, now, EditSpec(Named("m")));
    labels, now := LoseReply(a, labels, now, now.kube.value, "m", "2");
    assert "1" in now.remote.live && "2" in now.remote.live;
    assert Run(Kind(), "n", a, Empty(), labels);
  }

  lemma NoRenameIsNeeded(a: Assumptions)
    requires a == ALL.(noRename := false)
    ensures Start(Kind(), "n", a, Empty())
    ensures exists labels ::
              Run(Kind(), "n", a, Empty(), labels) && !AtMostOneOurs(Exec(Kind(), Empty(), labels).remote)
  {
    var labels, now := LoseFirstReply(a);
    labels, now := Environment(a, labels, now, ForeignPut("1", "m", Null));
    labels, now := LoseReply(a, labels, now, now.kube.value, "n", "2");
    assert "1" in now.remote.live && "2" in now.remote.live;
    assert Run(Kind(), "n", a, Empty(), labels);
  }

  /** A refused create that created something loses its announcement. */
  lemma CleanRefusalIsNeeded(a: Assumptions)
    requires a == ALL.(cleanRefusal := false)
    ensures Start(Kind(), "n", a, Empty())
    ensures exists labels :: Run(Kind(), "n", a, Empty(), labels) && !WrittenAhead(Exec(Kind(), Empty(), labels))
  {
    var labels, now := FirstPost(a, T.Answer(400, T.Empty), Lands("1", Null));
    labels, now := TakeBack(a, labels, now);
    assert "1" in now.remote.live && now.remote.live["1"].ours;
    assert Run(Kind(), "n", a, Empty(), labels);
  }

  /** The annotation is taken back, though the reply to that write is lost. */
  lemma TakeBack(a: Assumptions, labels: seq<Label>, now: State) returns (labels': seq<Label>, now': State)
    requires Reaches(a, labels, now) && now.kube.Some? && now.pass.Running? && now.pass.pc.ClearRejected?
    requires now.kube.value.finalizer
    ensures Reaches(a, labels', now') && now'.remote == now.remote
    ensures now'.kube == Some(Changed(now.kube.value.(attempt := false)))
  {
    labels', now' := Writes(a, labels, now, Unacknowledged);
  }

  /** Policy Orphan leaves the object behind, as it is meant to. */
  lemma DeletePolicyIsNeeded(a: Assumptions)
    requires a == ALL.(deletePolicy := false)
    ensures Start(Kind(), "n", a, Empty())
    ensures exists labels :: Run(Kind(), "n", a, Empty(), labels) &&
              Exec(Kind(), Empty(), labels).kube.None? && !NoneOurs(Exec(Kind(), Empty(), labels).remote)
  {
    var labels, now := LoseFirstReply(a);
    labels, now := OrphanAndDelete(a, labels, now);
    labels, now := DropOrphan(a, labels, now);
    assert "1" in now.remote.live && now.remote.live["1"].ours;
    assert Run(Kind(), "n", a, Empty(), labels);
  }

  lemma OrphansAreDropped(a: Assumptions, s: State, r: Resource)
    requires s.kube == Some(r) && r.deleting && r.finalizer && r.spec.orphan && !r.held && s.pass == Begin(Kind(), r)
    ensures s.pass.Running? && CanMeet(Kind(), s, WriteFate(Applied)) && FateAssumed(Kind(), a, s, WriteFate(Applied))
    ensures WriteStep(Kind(), s, Applied).kube.None? && WriteStep(Kind(), s, Applied).remote == s.remote
  {
  }

  lemma DropOrphan(a: Assumptions, labels: seq<Label>, now: State) returns (labels': seq<Label>, now': State)
    requires Reaches(a, labels, now) && now.kube.Some? && now.pass.Idle?
    requires var r := now.kube.value; r.deleting && r.finalizer && r.spec.orphan && !r.held
    ensures Reaches(a, labels', now') && now'.remote == now.remote && now'.kube.None?
  {
    labels', now' := Begins(a, labels, now);
    OrphansAreDropped(a, now', now.kube.value);
    labels', now' := Writes(a, labels', now', Applied);
  }

  lemma OrphanAndDelete(a: Assumptions, labels: seq<Label>, now: State) returns (labels': seq<Label>, now': State)
    requires a == ALL.(deletePolicy := false)
    requires Reaches(a, labels, now) && now.kube.Some? && !now.kube.value.deleting && now.kube.value.finalizer &&
             !now.kube.value.held && now.pass.Idle?
    ensures Reaches(a, labels', now') && now'.remote == now.remote && now'.pass.Idle? && now'.kube.Some?
    ensures var r := now'.kube.value; r.deleting && r.finalizer && r.spec.orphan && !r.held
  {
    var orphan := EditSpec(Named("n").(orphan := true));
    labels', now' := Environment(a, labels, now, orphan);
    labels', now' := Environment(a, labels', now', RequestDeletion);
  }

  /** A pass that is about to save a status, saving it. */
  lemma Save(a: Assumptions, labels: seq<Label>, now: State) returns (labels': seq<Label>, now': State)
    requires Reaches(a, labels, now) && now.kube.Some? && now.pass.Running? && now.pass.pc.SaveStatus?
    requires now.kube.value.finalizer && now.pass.copy.version == now.kube.value.version
    requires now.pass.copy.spec.body == now.kube.value.spec.body
    ensures Reaches(a, labels', now') && now'.remote == now.remote && now'.pass.Idle? && now'.log == now.log
    ensures now'.kube == Some(Changed(now.kube.value.(status := now.pass.copy.status)))
  {
    labels', now' := Writes(a, labels, now, Applied);
  }

  /** A read that fails, with the status it leaves to be saved. */
  lemma FailRead(a: Assumptions, labels: seq<Label>, now: State, err: E.Error)
      returns (labels': seq<Label>, now': State)
    requires Reaches(a, labels, now) && now.pass.Running? && now.pass.pc.Read?
    requires a.honest404 ==> !E.ReasonForError(err).NotFound?
    ensures Reaches(a, labels', now') && now'.kube == now.kube && now'.remote == now.remote
    ensures now'.pass == OnRead(Kind(), now.pass, Err(err))
  {
    labels' := Take(a, labels, now, Effect(ReadFate(Some(err))));
    now' := ReadStep(Kind(), now, Some(err));
  }

  lemma CreatedIsSaved()
    ensures var p := OnCreated(Kind(), Marked(Fresh(), "n"), T.Create(None, T.Answer(201, T.Readable("1"))));
            p.Running? && p.pc.SaveStatus? && p.copy == Marked(Fresh(), "n").copy.(status := p.copy.status) &&
                p.copy.status.id == "1"
  {
    assert T.Create(None, T.Answer(201, T.Readable("1"))) == Ok("1");
  }

  /** The first pass of a resource, all the way: its object is created and recorded. */
  lemma CreateAndRecord(a: Assumptions) returns (labels: seq<Label>, now: State)
    ensures Reaches(a, labels, now) && now.pass.Idle?
    ensures now.remote == Store(Empty().remote, "1", Entry("n", Null, true))
    ensures now.kube.Some?
    ensures var r := now.kube.value;
            r.finalizer && !r.deleting && !r.held && r.attempt && r.spec == Named("n") && r.status.id == "1"
  {
    var wire := T.Answer(201, T.Readable("1"));
    labels, now := FirstPost(a, wire, Lands("1", Null));
    CreatedIsSaved();
    labels, now := Save(a, labels, now);
  }

  /** A pass over a recorded object up to its read: it takes the annotation back on the way. */
  lemma ToRead(a: Assumptions, labels: seq<Label>, now: State, r: Resource) returns (labels': seq<Label>, now': State)
    requires Reaches(a, labels, now) && now.kube == Some(r) && now.pass.Idle?
    requires r.finalizer && !r.deleting && r.attempt && r.spec == Named("n") && r.status.id != ""
    ensures Reaches(a, labels', now') && now'.remote == now.remote
    ensures var r' := Changed(r.(attempt := false));
            now'.kube == Some(r') && now'.pass == Running(r', r.status, "n", "hash", r.generation, Read)
  {
    labels', now' := Begins(a, labels, now);
    labels' := Take(a, labels', now', Effect(ResolveFate(None)));
    now' := now.(pass := At(r, "n", ClearAttempt));
    labels', now' := Writes(a, labels', now', Applied);
  }

  /** A live object reported as not found is forgotten by status and annotation alike. */
  lemma Honest404IsNeeded(a: Assumptions)
    requires a == ALL.(honest404 := false)
    ensures Start(Kind(), "n", a, Empty())
    ensures exists labels :: Run(Kind(), "n", a, Empty(), labels) && !WrittenAhead(Exec(Kind(), Empty(), labels))
  {
    var labels, now := CreateAndRecord(a);
    labels, now := ToRead(a, labels, now, now.kube.value);
    labels, now := FailRead(a, labels, now, E.Base(E.NotFound, "", None));
    labels, now := Save(a, labels, now);
    assert "1" in now.remote.live && now.remote.live["1"].ours;
    assert Run(Kind(), "n", a, Empty(), labels);
  }

  /** A pass that adopts, up to the saved status: the read after it fails. */
  lemma Adopt(a: Assumptions, labels: seq<Label>, now: State, r: Resource, id: string)
      returns (labels': seq<Label>, now': State)
    requires Reaches(a, labels, now) && now.kube == Some(r) && r.finalizer && r.spec == Named("n") && r.status.id == ""
    requires now.pass == At(r, "n", MarkAdopt(id)) && id != ""
    ensures Reaches(a, labels', now') && now'.remote == now.remote && now'.pass.Idle? && now'.kube.Some?
    ensures now'.kube == Some(Changed(Changed(r.(attempt := true))).(status := now'.kube.value.status))
    ensures now'.kube.value.status.id == id
  {
    labels', now' := MarkAdoption(a, labels, now, r, id);
    labels', now' := FailRead(a, labels', now', E.Plain(""));
    labels', now' := Save(a, labels', now');
  }

  lemma MarkAdoption(a: Assumptions, labels: seq<Label>, now: State, r: Resource, id: string)
      returns (labels': seq<Label>, now': State)
    requires Reaches(a, labels, now) && now.kube == Some(r) && r.finalizer && r.spec == Named("n") && r.status.id == ""
    requires now.pass == At(r, "n", MarkAdopt(id)) && id != ""
    ensures Reaches(a, labels', now') && now'.remote == now.remote
    ensures var r' := Changed(r.(attempt := true));
            && now'.kube == Some(r')
            && now'.pass == Running(r'.(status := r.status.(id := id)), r.status, "n", "hash", r.generation, Read)
  {
    labels', now' := Writes(a, labels, now, Applied);
  }

  /** A pin may choose another object than the one a lost create left behind. */
  lemma NoPinIsNeeded(a: Assumptions)
    requires a == ALL.(noPin := false)
    ensures Start(Kind(), "n", a, Empty())
    ensures exists labels :: Run(Kind(), "n", a, Empty(), labels) && !WrittenAhead(Exec(Kind(), Empty(), labels))
  {
    var labels, now := TwoMatchesAndAPin(a);
    labels, now := Lookup(a, labels, now, now.kube.value, "n", ["1", "2"]);
    labels, now := Adopt(a, labels, now, now.kube.value, "2");
    assert "1" in now.remote.live && now.remote.live["1"].ours;
    assert Run(Kind(), "n", a, Empty(), labels);
  }

  lemma TwoMatchesAndAPin(a: Assumptions) returns (labels: seq<Label>, now: State)
    requires a == ALL.(noPin := false)
    ensures Reaches(a, labels, now) && now.kube.Some? && Ready(now, now.kube.value, "n") && now.kube.value.pin == "2"
    ensures !now.kube.value.held
    ensures now.remote == Remote(map["1" := Entry("n", Null, true), "2" := Entry("n", Null, false)], {"1", "2"}, [])
  {
    labels, now := LoseFirstReply(a);
    labels, now := Environment(a, labels, now, ForeignPut("2", "n", Null));
    labels, now := Environment(a, labels, now, EditPin("2"));
  }
}
