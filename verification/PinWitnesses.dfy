/**
 A pin is not honoured everywhere: two runs in which a lookup misses the pin and a write follows, one
 for a reclaim and one after a conflict. Module History shows that there are no others.
 */
module PinWitnesses {
  import opened Common
  import opened JsonTree
  import opened Protocol
  import opened Witnesses
  import W = Witnesses
  import JsonDiff
  import JsonCompare
  import JsonUpdate
  import H = History
  import E = Errors
  import T = Transport

  /** A run in which a write directly follows a lookup of that purpose that missed the pin. */
  ghost predicate ActsAroundThePin(a: Assumptions, labels: seq<Label>, purpose: Purpose) {
    && Start(Kind(), "n", a, Empty()) && Run(Kind(), "n", a, Empty(), labels)
    && var log := Exec(Kind(), Empty(), labels).log;
       exists i | 0 <= i < |log| - 1 :: log[i].Searched? && log[i].purpose == purpose && H.MissesThePin(log[i]) &&
           H.IsWrite(log[i + 1])
  }

  lemma Shows(a: Assumptions, labels: seq<Label>, now: State, log: seq<Event>, e: Event, write: Event)
    requires Reaches(a, labels, now) && now.log == log + [e] + [write]
    requires H.MissesThePin(e) && H.IsWrite(write)
    ensures ActsAroundThePin(a, labels, e.purpose)
  {
    assert now.log[|log|] == e && now.log[|log| + 1] == write;
  }

  /******* A reclaim *******/

  /** A lost create, then a pin to something else, then a deletion. */
  lemma PinAndDelete(a: Assumptions) returns (labels: seq<Label>, now: State, r: Resource)
    requires a == ALL.(noPin := false)
    ensures Reaches(a, labels, now) && now.kube == Some(r) && now.pass.Idle?
    ensures r.deleting && r.finalizer && r.attempt && r.pin == "x" && r.spec == W.Named("n") && r.status.id == ""
    ensures now.remote == Remote(map["1" := Entry("n", Null, true)], {"1"}, [])
  {
    labels, now := LoseFirstReply(a);
    labels, now := Environment(a, labels, now, EditPin("x"));
    labels, now := Environment(a, labels, now, RequestDeletion);
    r := now.kube.value;
  }

  lemma ToReclaimLookup(a: Assumptions) returns (labels: seq<Label>, now: State, r: Resource)
    requires a == ALL.(noPin := false)
    ensures Reaches(a, labels, now) && now.kube == Some(r) && r.pin == "x" && r.spec == W.Named("n")
    ensures now.remote == Remote(map["1" := Entry("n", Null, true)], {"1"}, [])
    ensures now.pass == Running(r, r.status, "", "", r.generation, FinalFind)
  {
    labels, now, r := PinAndDelete(a);
    labels, now := Begins(a, labels, now);
    labels := Take(a, labels, now, Effect(ResolveFate(None)));
    now := now.(pass := Running(r, r.status, "", "", r.generation, FinalFind));
  }

  lemma FindsOne(a: Assumptions, now: State, r: Resource)
    requires now.pass == Running(r, r.status, "", "", r.generation, FinalFind) && r.spec == W.Named("n") && r.pin == "x"
    requires now.remote == Remote(map["1" := Entry("n", Null, true)], {"1"}, [])
    ensures CanMeet(Kind(), now, ListFate(Ok(["1"]))) && FateAssumed(Kind(), a, now, ListFate(Ok(["1"])))
    ensures var next := ListStep(Kind(), now, Ok(["1"]));
            next.log == now.log + [Searched(ToReclaim, "n", ["1"], "x")] &&
                next.pass == now.pass.(pc := FinalDelete("1"))
  {
  }

  lemma FindsToReclaim(a: Assumptions) returns (labels: seq<Label>, now: State, log: seq<Event>)
    requires a == ALL.(noPin := false)
    ensures Reaches(a, labels, now) && now.log == log + [Searched(ToReclaim, "n", ["1"], "x")]
    ensures now.pass.Running? && now.pass.pc == FinalDelete("1")
  {
    var r;
    labels, now, r := ToReclaimLookup(a);
    log := now.log;
    FindsOne(a, now, r);
    labels := Take(a, labels, now, Effect(ListFate(Ok(["1"]))));
    now := ListStep(Kind(), now, Ok(["1"]));
  }

  lemma DeletesIt(now: State)
    requires now.pass.Running? && now.pass.pc == FinalDelete("1")
    ensures CanMeet(Kind(), now, DeleteFate(None, true))
    ensures EffectStep(Kind(), now, DeleteFate(None, true)).log == now.log + [DeleteSent("1")]
  {
  }

  /** The reclaim deletes the only match, although the pin names another object. */
  lemma ReclaimsAroundThePin(a: Assumptions)
    requires a == ALL.(noPin := false)
    ensures exists labels :: ActsAroundThePin(a, labels, ToReclaim)
  {
    var labels, now, log := FindsToReclaim(a);
    DeletesIt(now);
    labels := Take(a, labels, now, Effect(DeleteFate(None, true)));
    now := EffectStep(Kind(), now, DeleteFate(None, true));
    Shows(a, labels, now, log, Searched(ToReclaim, "n", ["1"], "x"), DeleteSent("1"));
  }

  /******* A conflict *******/

  const OTHER := Body("n", "other")

  lemma OtherIsDrift()
    ensures var c := JsonCompare.Compare(JsonDiff.Zipping(), Body("n", "hash"), OTHER, ["field"], []);
            c.immutable == [] && c.updatable != []
  {
    JsonDiff.ZippingAligns();
    var body := Body("n", "hash");
    assert JsonCompare.PlainField("field");
    assert !JsonDiff.AgreeAt(body, OTHER, "field");
    JsonUpdate.CleanIffFieldsAgree(JsonDiff.Zipping(), body, OTHER, ["field"]);
  }

  lemma SomethingIsSent()
    ensures JsonUpdate.Projection(Body("n", "hash"), ["field"]) != map[]
  {
    assert "field" in JsonUpdate.Projection(Body("n", "hash"), ["field"]);
  }

  /** A pass whose resource has been pinned since its empty lookup. */
  ghost predicate Pinned(a: Assumptions, labels: seq<Label>, now: State, r: Resource, pc: PC) {
    && Reaches(a, labels, now) && now.kube == Some(r) && r.pin == "x" && r.spec == W.Named("n")
    && r.finalizer && r.status == Fresh().status && r.generation == 0
    && now.pass == Running(r, r.status, "n", "hash", 0, pc)
  }

  lemma PinUnderThePass(a: Assumptions) returns (labels: seq<Label>, now: State, r: Resource)
    requires a == ALL.(noPin := false)
    ensures Pinned(a, labels, now, r, Post) && now.remote == Empty().remote
  {
    var start, bare := Initially(a);
    labels, now := Lookup(a, [], start, bare, "n", []);
    labels, now := Environment(a, labels, now, EditPin("x"));
    labels, now := Writes(a, labels, now, Applied);
    r := now.kube.value;
  }

  lemma ConflictIsLookedUp(p: Pass)
    requires p.Running?
    ensures var created := T.Create(None, T.Answer(409, T.Empty));
            created.Err? && OnCreated(Kind(), p, created) == p.(pc := FindConflict)
  {
    assert T.Create(None, T.Answer(409, T.Empty)) == Err(E.Base(E.AlreadyExists, "", None));
  }

  /** Somebody else creates the object, and the POST conflicts with it. */
  lemma Conflicts(a: Assumptions) returns (labels: seq<Label>, now: State, r: Resource)
    requires a == ALL.(noPin := false)
    ensures Pinned(a, labels, now, r, FindConflict)
    ensures now.remote == Remote(map["1" := Entry("n", OTHER, false)], {"1"}, [])
  {
    labels, now, r := PinUnderThePass(a);
    labels, now := Environment(a, labels, now, ForeignPut("1", "n", OTHER));
    ConflictIsLookedUp(now.pass);
    labels, now := Posts(a, labels, now, T.Answer(409, T.Empty), Never);
  }

  /** The lookup after the conflict, and the adoption it leads to. */
  lemma AdoptsTheOther(a: Assumptions) returns (labels: seq<Label>, now: State, r: Resource, log: seq<Event>)
    requires a == ALL.(noPin := false)
    ensures Pinned(a, labels, now, r, MarkAdopt("1")) && now.log == log + [Searched(ToResolveConflict, "n", ["1"], "x")]
    ensures now.remote == Remote(map["1" := Entry("n", OTHER, false)], {"1"}, [])
  {
    labels, now, r := Conflicts(a);
    log := now.log;
    labels := Take(a, labels, now, Effect(ListFate(Ok(["1"]))));
    now := ListStep(Kind(), now, Ok(["1"]));
  }

  lemma ReadsTheOther(a: Assumptions) returns (labels: seq<Label>, now: State, log: seq<Event>)
    requires a == ALL.(noPin := false)
    ensures Reaches(a, labels, now) && now.log == log + [Searched(ToResolveConflict, "n", ["1"], "x")]
    ensures now.remote == Remote(map["1" := Entry("n", OTHER, false)], {"1"}, [])
    ensures now.pass.Running? && now.pass.pc.Read? && now.pass.copy.status == Status("1", "", 0, []) &&
            now.pass.copy.spec == W.Named("n")
  {
    var r;
    labels, now, r, log := AdoptsTheOther(a);
    labels, now := Writes(a, labels, now, Applied);
  }

  lemma UpdatesTheOther(a: Assumptions) returns (labels: seq<Label>, now: State, log: seq<Event>)
    requires a == ALL.(noPin := false)
    ensures Reaches(a, labels, now) && now.log == log + [Searched(ToResolveConflict, "n", ["1"], "x")]
    ensures now.pass.Running? && now.pass.pc.PutBody? && now.pass.copy.status.id == "1"
  {
    labels, now, log := ReadsTheOther(a);
    OtherIsDrift();
    SomethingIsSent();
    labels := Take(a, labels, now, Effect(ReadFate(None)));
    now := ReadStep(Kind(), now, None);
  }

  lemma PutsIt(now: State, fate: Fate)
    requires now.pass.Running? && now.pass.pc.PutBody? && now.pass.copy.status.id == "1" &&
             fate == PutFate(Some(E.Plain("")), None)
    ensures CanMeet(Kind(), now, fate) && EffectStep(Kind(), now, fate).log == now.log + [PutSent("1")]
  {
  }

  /** After a conflict the only match is adopted and written to, although the pin names another object. */
  lemma AdoptsAroundThePin(a: Assumptions)
    requires a == ALL.(noPin := false)
    ensures exists labels :: ActsAroundThePin(a, labels, ToResolveConflict)
  {
    var labels, now, log := UpdatesTheOther(a);
    var fate := PutFate(Some(E.Plain("")), None);
    PutsIt(now, fate);
    labels := Take(a, labels, now, Effect(fate));
    now := EffectStep(Kind(), now, fate);
    Shows(a, labels, now, log, Searched(ToResolveConflict, "n", ["1"], "x"), PutSent("1"));
  }
}
