/**
 The hypotheses of module Safety are exact: each theorem holds for every run under a choice of
 assumptions, if and only if the choice includes the ones the theorem names.
 */
module Hypotheses {
  import opened Common
  import opened JsonTree
  import opened Protocol
  import opened Safety
  import opened Witnesses
  import E = Errors
  import T = Transport

  ghost predicate AlwaysOne(a: Assumptions) {
    forall op, identity, s, labels | Start(op, identity, a, s) && Run(op, identity, a, s, labels) ::
      AtMostOneOurs(Exec(op, s, labels).remote)
  }

  ghost predicate AlwaysWrittenAhead(a: Assumptions) {
    forall op, identity, s, labels | Start(op, identity, a, s) && Run(op, identity, a, s, labels) ::
      WrittenAhead(Exec(op, s, labels))
  }

  ghost predicate NeverLeaks(a: Assumptions) {
    forall op, identity, s, labels | Start(op, identity, a, s) && Run(op, identity, a, s, labels) ::
      Reclaimed(Exec(op, s, labels))
  }

  /******* Fewer assumptions, more runs *******/

  /** Whatever b assumes, a assumes too. */
  predicate Includes(a: Assumptions, b: Assumptions) {
    && (b.visible ==> a.visible) && (b.honest404 ==> a.honest404) && (b.cleanRefusal ==> a.cleanRefusal)
    && (b.noPin ==> a.noPin) && (b.fixedIdentity ==> a.fixedIdentity) && (b.noRename ==> a.noRename)
    && (b.deletePolicy ==> a.deletePolicy) && (b.steady ==> a.steady) && (b.payload ==> a.payload)
  }

  lemma {:induction false} RunsStayRuns(op: Operator, identity: string, a: Assumptions, b: Assumptions, s: State,
                                        labels: seq<Label>)
    requires Includes(a, b) && Run(op, identity, a, s, labels)
    ensures Run(op, identity, b, s, labels)
  {
    if labels != [] {
      RunsStayRuns(op, identity, a, b, s, labels[..|labels| - 1]);
    }
  }

  /** A run of the witnesses is one under fewer assumptions. */
  lemma ReachesWithLess(a: Assumptions, b: Assumptions, labels: seq<Label>, now: State)
    requires Includes(a, b) && Reaches(a, labels, now)
    ensures Reaches(b, labels, now)
  {
    RunsStayRuns(Kind(), "n", a, b, Empty(), labels);
  }

  /******* Objects out of sight *******/

  /** Object 1 is ours and live, but the resource names another one, or neither names nor announces any. */
  ghost predicate OutOfSight(a: Assumptions, labels: seq<Label>, now: State) {
    && Reaches(a, labels, now) && now.pass.Idle? && now.kube.Some?
    && "1" in now.remote.live && now.remote.live["1"].ours
    && var r := now.kube.value;
       && r.finalizer && !r.held && !r.deleting && !r.spec.orphan
       && (if r.status.id == "" then !r.attempt else r.status.id == "2" && "2" in now.remote.live)
  }

  lemma OutOfSightIsNotWrittenAhead(a: Assumptions, labels: seq<Label>, now: State)
    requires OutOfSight(a, labels, now)
    ensures !WrittenAhead(now)
  {
  }

  /** What a pass finalizing such a resource does. */
  lemma FinalizesTheOther(now: State, r: Resource)
    requires now.kube == Some(r) && r.deleting && r.finalizer && !r.spec.orphan && now.pass == Begin(Kind(), r)
    requires if r.status.id == "" then !r.attempt else true
    ensures now.pass == Running(r, r.status, "", "", r.generation, if r.status.id == "" then DropFinalizer
                                else FinalResolve)
  {
  }

  lemma DroppingEndsIt(a: Assumptions, now: State, r: Resource)
    requires now.kube == Some(r) && r.deleting && !r.held
    requires now.pass == Running(r, r.status, "", "", r.generation, DropFinalizer)
    ensures CanMeet(Kind(), now, WriteFate(Applied)) && FateAssumed(Kind(), a, now, WriteFate(Applied))
    ensures WriteStep(Kind(), now, Applied).kube.None? && WriteStep(Kind(), now, Applied).remote == now.remote
  {
  }

  lemma DropsTheFinalizer(a: Assumptions, labels: seq<Label>, now: State, r: Resource)
      returns (labels': seq<Label>, now': State)
    requires Reaches(a, labels, now) && now.kube == Some(r) && r.deleting && !r.held
    requires now.pass == Running(r, r.status, "", "", r.generation, DropFinalizer)
    ensures Reaches(a, labels', now') && now'.kube.None? && now'.remote == now.remote
  {
    DroppingEndsIt(a, now, r);
    labels', now' := Writes(a, labels, now, Applied);
  }

  lemma DeletesTheRecorded(a: Assumptions, labels: seq<Label>, now: State, r: Resource)
    returns (labels': seq<Label>, now': State)
    requires Reaches(a, labels, now) && now.kube == Some(r) && r.status.id == "2" && "2" in now.remote.live
    requires now.pass == Running(r, r.status, "", "", r.generation, FinalResolve)
    ensures Reaches(a, labels', now') && now'.kube == now.kube && now'.remote.live == now.remote.live - {"2"}
    ensures now'.pass == Running(r, r.status, "", "", r.generation, DropFinalizer)
  {
    labels' := Take(a, labels, now, Effect(ResolveFate(None)));
    now' := now.(pass := Running(r, r.status, "", "", r.generation, FinalDelete("2")));
    labels' := Take(a, labels', now', Effect(DeleteFate(None, true)));
    now' := DeleteStep(Kind(), now', None, true);
  }

  /** Deleting such a resource leaves object 1 behind. */
  lemma OutOfSightLeaks(a: Assumptions, labels: seq<Label>, now: State) returns (labels': seq<Label>, now': State)
    requires OutOfSight(a, labels, now)
    ensures Reaches(a, labels', now') && !Reclaimed(now')
  {
    labels', now' := Environment(a, labels, now, RequestDeletion);
    var r := now'.kube.value;
    labels', now' := Begins(a, labels', now');
    FinalizesTheOther(now', r);
    if r.status.id != "" {
      labels', now' := DeletesTheRecorded(a, labels', now', r);
    }
    labels', now' := DropsTheFinalizer(a, labels', now', r);
    assert "1" in now'.remote.live && now'.remote.live["1"].ours;
  }

  /******* One for each assumption *******/

  lemma CreatedTwo(r: Resource, name: string)
    requires r.status.id == ""
    ensures var p := OnCreated(Kind(), Marked(r, name), T.Create(None, T.Answer(201, T.Readable("2"))));
            p.Running? && p.pc.SaveStatus? && p.copy == Marked(r, name).copy.(status := p.copy.status) &&
                p.copy.status.id == "2"
  {
    T.CreatedIffReadableSuccess(None, T.Answer(201, T.Readable("2")), "2");
  }

  /** Object 1 is ours, and a second create is about to be made. */
  ghost predicate MayCreateSecond(a: Assumptions, labels: seq<Label>, now: State, r: Resource, name: string) {
    && Reaches(a, labels, now) && Ready(now, r, name) && r.pin == "" && !r.held
    && "1" in now.remote.live && now.remote.live["1"].ours && FreshId(now.remote, "2")
    && (a.visible ==> now.remote.inflight == [] && ListsAll(now.remote, name, []))
  }

  lemma CreateSecond(a: Assumptions, labels: seq<Label>, now: State, r: Resource, name: string)
    returns (labels': seq<Label>, now': State)
    requires MayCreateSecond(a, labels, now, r, name)
    ensures Reaches(a, labels', now') && now'.kube == Some(Changed(r.(attempt := true)))
    ensures now'.remote == Store(now.remote, "2", Entry(name, Null, true))
    ensures now'.pass == OnCreated(Kind(), Marked(r, name), T.Create(None, T.Answer(201, T.Readable("2"))))
  {
    labels', now' := Lookup(a, labels, now, r, name, []);
    T.CreatedIffReadableSuccess(None, T.Answer(201, T.Readable("2")), "2");
    labels', now' := Create(a, labels', now', r, name, T.Answer(201, T.Readable("2")), Lands("2", Null));
  }

  /** A second create, this time with its reply, is recorded. */
  lemma RecordSecond(a: Assumptions, labels: seq<Label>, now: State, r: Resource, name: string)
    returns (labels': seq<Label>, now': State)
    requires MayCreateSecond(a, labels, now, r, name)
    ensures OutOfSight(a, labels', now') && !AtMostOneOurs(now'.remote)
  {
    labels', now' := CreateSecond(a, labels, now, r, name);
    CreatedTwo(r, name);
    labels', now' := Save(a, labels', now');
    assert now'.remote.live["2"].ours;
  }

  lemma UnseenIsOutOfSight(a: Assumptions) returns (labels: seq<Label>, now: State)
    requires a == ALL.(visible := false)
    ensures OutOfSight(a, labels, now) && !AtMostOneOurs(now.remote)
  {
    labels, now := LoseFirstReply(a);
    labels, now := RecordSecond(a, labels, now, now.kube.value, "n");
  }

  lemma ReidentifiedIsOutOfSight(a: Assumptions) returns (labels: seq<Label>, now: State)
    requires a == ALL.(fixedIdentity := false)
    ensures OutOfSight(a, labels, now) && !AtMostOneOurs(now.remote)
  {
    labels, now := LoseFirstReply(a);
    labels, now := Environment(a, labels, now, EditSpec(Witnesses.Named("m")));
    labels, now := RecordSecond(a, labels, now, now.kube.value, "m");
  }

  lemma RenamedIsOutOfSight(a: Assumptions) returns (labels: seq<Label>, now: State)
    requires a == ALL.(noRename := false)
    ensures OutOfSight(a, labels, now) && !AtMostOneOurs(now.remote)
  {
    labels, now := LoseFirstReply(a);
    labels, now := Environment(a, labels, now, ForeignPut("1", "m", Null));
    labels, now := RecordSecond(a, labels, now, now.kube.value, "n");
  }

  lemma RefusedIsOutOfSight(a: Assumptions) returns (labels: seq<Label>, now: State)
    requires a == ALL.(cleanRefusal := false)
    ensures OutOfSight(a, labels, now)
  {
    labels, now := FirstPost(a, T.Answer(400, T.Empty), Lands("1", Null));
    labels, now := TakeBack(a, labels, now);
    if now.pass.Running? {
      labels, now := Environment(a, labels, now, Crash);
    }
  }

  lemma NotFoundIsForgotten(p: Pass)
    requires p.Running? && p.pc.Read? && p.before == p.copy.status && p.before.id != ""
    ensures var next := OnRead(Kind(), p, Err(E.Base(E.NotFound, "", None)));
            && next.Running? && next.pc.SaveStatus? && next.copy.status.id == ""
            && next.copy == p.copy.(status := next.copy.status)
  {
  }

  lemma ForgottenIsOutOfSight(a: Assumptions) returns (labels: seq<Label>, now: State)
    requires a == ALL.(honest404 := false)
    ensures OutOfSight(a, labels, now)
  {
    labels, now := CreateAndRecord(a);
    labels, now := ToRead(a, labels, now, now.kube.value);
    NotFoundIsForgotten(now.pass);
    labels, now := FailRead(a, labels, now, E.Base(E.NotFound, "", None));
    labels, now := Save(a, labels, now);
  }

  lemma PinIsChosen(p: Pass)
    requires p.Running? && p.copy.pin == "2"
    ensures OnNewObject(Kind(), p, ["1", "2"]) == p.(pc := MarkAdopt("2"))
  {
    assert ["1", "2"][1] == "2";
  }

  lemma PinnedAwayIsOutOfSight(a: Assumptions) returns (labels: seq<Label>, now: State)
    requires a == ALL.(noPin := false)
    ensures OutOfSight(a, labels, now)
  {
    labels, now := TwoMatchesAndAPin(a);
    var r := now.kube.value;
    labels, now := Lookup(a, labels, now, r, "n", ["1", "2"]);
    PinIsChosen(At(r, "n", FindNew));
    labels, now := Adopt(a, labels, now, r, "2");
  }

  /******* The exact hypotheses *******/

  /** Unless a is trusted, some run under it loses sight of an object of ours. */
  lemma SomeOutOfSight(a: Assumptions) returns (labels: seq<Label>, now: State)
    requires !Trusted(a)
    ensures OutOfSight(a, labels, now) && (!KeepsOne(a) ==> !AtMostOneOurs(now.remote))
  {
    var b: Assumptions;
    if !a.visible {
      b := ALL.(visible := false);
      labels, now := UnseenIsOutOfSight(b);
    } else if !a.fixedIdentity {
      b := ALL.(fixedIdentity := false);
      labels, now := ReidentifiedIsOutOfSight(b);
    } else if !a.noRename {
      b := ALL.(noRename := false);
      labels, now := RenamedIsOutOfSight(b);
    } else if !a.cleanRefusal {
      b := ALL.(cleanRefusal := false);
      labels, now := RefusedIsOutOfSight(b);
    } else if !a.honest404 {
      b := ALL.(honest404 := false);
      labels, now := ForgottenIsOutOfSight(b);
    } else {
      b := ALL.(noPin := false);
      labels, now := PinnedAwayIsOutOfSight(b);
    }
    ReachesWithLess(b, a, labels, now);
  }

  lemma AtMostOneIffKeepsOne(a: Assumptions)
    ensures AlwaysOne(a) <==> KeepsOne(a)
  {
    if KeepsOne(a) {
      forall op, identity, s, labels | Start(op, identity, a, s) && Run(op, identity, a, s, labels)
        ensures AtMostOneOurs(Exec(op, s, labels).remote)
      {
        AtMostOneCreated(op, identity, a, s, labels);
      }
    } else {
      var labels, now := SomeOutOfSight(a);
      assert Run(Kind(), "n", a, Empty(), labels);
    }
  }

  lemma WrittenAheadIffTrusted(a: Assumptions)
    ensures AlwaysWrittenAhead(a) <==> Trusted(a)
  {
    if Trusted(a) {
      forall op, identity, s, labels | Start(op, identity, a, s) && Run(op, identity, a, s, labels)
        ensures WrittenAhead(Exec(op, s, labels))
      {
        WriteAhead(op, identity, a, s, labels);
      }
    } else {
      var labels, now := SomeOutOfSight(a);
      OutOfSightIsNotWrittenAhead(a, labels, now);
      assert Run(Kind(), "n", a, Empty(), labels);
    }
  }

  lemma OrphanLeaks(a: Assumptions) returns (labels: seq<Label>, now: State)
    requires !a.deletePolicy
    ensures Reaches(a, labels, now) && !Reclaimed(now)
  {
    var b := ALL.(deletePolicy := false);
    labels, now := LoseFirstReply(b);
    labels, now := OrphanAndDelete(b, labels, now);
    labels, now := DropOrphan(b, labels, now);
    assert "1" in now.remote.live && now.remote.live["1"].ours;
    ReachesWithLess(b, a, labels, now);
  }

  lemma NeverLeaksIffTrustedDelete(a: Assumptions)
    ensures NeverLeaks(a) <==> Trusted(a) && a.deletePolicy
  {
    if Trusted(a) && a.deletePolicy {
      forall op, identity, s, labels | Start(op, identity, a, s) && Run(op, identity, a, s, labels)
        ensures Reclaimed(Exec(op, s, labels))
      {
        NothingOutlivesTheFinalizer(op, identity, a, s, labels);
      }
    } else {
      var labels, now;
      if Trusted(a) {
        labels, now := OrphanLeaks(a);
      } else {
        labels, now := SomeOutOfSight(a);
        labels, now := OutOfSightLeaks(a, labels, now);
      }
      assert Run(Kind(), "n", a, Empty(), labels);
    }
  }
}
