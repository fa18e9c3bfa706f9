/**
 With everyone else quiet, one pass finishes a deletion: under policy Delete the object that the
 resource names, or announces and finds as its only match, is gone, and so is the finalizer. The one
 exception is an announced object among several matches: then nothing happens at all.
 */
module Deletion {
  import opened Common
  import opened Protocol
  import opened Convergence

  /** What finalizing has to remove from SigNoz. */
  function Doomed(op: Operator, r: Resource, remote: Remote): set<string> {
    if r.spec.orphan then {}
    else if r.status.id != "" then {r.status.id}
    else if LooksUp(op, r) then Matches(remote, Identity(op, r.spec).value)
    else {}
  }

  /** Finalizing looks the object up: it is announced, but not named. */
  predicate LooksUp(op: Operator, r: Resource) {
    !r.spec.orphan && r.status.id == "" && r.attempt && Identity(op, r.spec).Ok?
  }

  /** And there are several that it could be. */
  ghost predicate Ambiguous(op: Operator, r: Resource, remote: Remote) {
    LooksUp(op, r) && !AtMostOneMatch(op, r, remote)
  }

  /** The user has deleted the resource, and no pass is under way. */
  predicate Deleting(s: State) {
    s.kube.Some? && s.pass.Idle? && s.kube.value.deleting && s.kube.value.finalizer
  }

  ghost predicate Deletable(op: Operator, s: State) {
    Deleting(s) && !Ambiguous(op, s.kube.value, s.remote)
  }

  ghost predicate Removed(op: Operator, r: Resource, remote: Remote, now: Remote) {
    now.live == remote.live - Doomed(op, r, remote)
  }

  /** The finalizer is gone, and what was doomed; nothing else is. */
  ghost predicate Deleted(op: Operator, r: Resource, remote: Remote, s: State) {
    s.kube == Collected(Changed(r.(finalizer := false))) && Removed(op, r, remote, s.remote)
  }

  /** Where a deletion is that started with this resource and remote. */
  ghost predicate DelInv(op: Operator, r: Resource, remote: Remote, begun: bool, s: State) {
    match s.pass
    case Idle(_) => if begun then Deleted(op, r, remote, s) else s.kube == Some(r) && s.remote == remote
    case Running(copy, _, _, _, _, pc) =>
      && begun && s.kube == Some(r) && copy == r
      && match pc
         case FinalResolve => s.remote == remote && !r.spec.orphan && (r.status.id != "" || r.attempt)
         case FinalFind => s.remote == remote && !r.spec.orphan && r.status.id == "" && r.attempt &&
           Identity(op, r.spec).Ok?
         case FinalDelete(id) => s.remote == remote && Doomed(op, r, remote) == {id}
         case DropFinalizer => Removed(op, r, remote, s.remote)
         case _ => false
  }

  /** The resource and the remote side a deletion starts from. */
  ghost predicate Subject(op: Operator, r: Resource, remote: Remote) {
    && r.deleting && r.finalizer
    && !Ambiguous(op, r, remote)
  }

  lemma BeginDeletes(op: Operator, r: Resource, remote: Remote, begun: bool, s: State)
    requires Subject(op, r, remote) && DelInv(op, r, remote, begun, s) && s.pass.Idle? && s.kube.Some?
    ensures DelInv(op, r, remote, true, s.(pass := Begin(op, s.kube.value)))
  {
  }

  lemma ListedAreTheMatches(op: Operator, r: Resource, remote: Remote, ids: seq<string>)
    requires Identity(op, r.spec).Ok? && AtMostOneMatch(op, r, remote) &&
             ListsAll(remote, Identity(op, r.spec).value, ids)
    ensures |ids| <= 1
    ensures Matches(remote, Identity(op, r.spec).value) == if ids == [] then {} else {ids[0]}
  {
    ListShowsTheChoice(op, r, remote, ids);
    var name := Identity(op, r.spec).value;
    forall id ensures id in Matches(remote, name) <==> id in ids {
    }
  }

  lemma EffectDeletes(op: Operator, faithful: bool, r: Resource, remote: Remote, s: State, fate: Fate)
    requires Subject(op, r, remote) && DelInv(op, r, remote, true, s) && s.pass.Running?
    requires CanMeet(op, s, fate) && Quiet(op, faithful, s, fate)
    ensures DelInv(op, r, remote, true, EffectStep(op, s, fate))
    ensures FinalRank(EffectStep(op, s, fate).pass) < FinalRank(s.pass)
  {
    match fate
    case ListFate(found) => ListedAreTheMatches(op, r, remote, found.value);
    case _ =>
  }

  function FinalRank(pass: Pass): nat {
    if pass.Idle? then 0
    else
      match pass.pc
      case FinalResolve => 4
      case FinalFind => 3
      case FinalDelete(_) => 2
      case _ => 1
  }

  lemma StepDeletes(op: Operator, faithful: bool, r: Resource, remote: Remote, begun: bool, s: State, l: Label)
    requires Subject(op, r, remote) && DelInv(op, r, remote, begun, s) && Undisturbed(op, faithful, s, l)
    ensures DelInv(op, r, remote, begun || l.BeginPass?, Step(op, s, l))
  {
    if l.BeginPass? {
      BeginDeletes(op, r, remote, begun, s);
      assert Step(op, s, l) == s.(pass := Begin(op, s.kube.value));
    } else {
      EffectDeletes(op, faithful, r, remote, s, l.fate);
      assert Step(op, s, l) == EffectStep(op, s, l.fate);
    }
  }

  lemma {:induction false} RunDeletes(op: Operator, faithful: bool, s: State, labels: seq<Label>)
    requires Deletable(op, s) && QuietRun(op, faithful, s, labels)
    ensures DelInv(op, s.kube.value, s.remote, Passes(labels) > 0, Exec(op, s, labels))
  {
    if labels != [] {
      var last := |labels| - 1;
      var begun, now := Passes(labels[..last]) > 0, Exec(op, s, labels[..last]);
      RunDeletes(op, faithful, s, labels[..last]);
      StepDeletes(op, faithful, s.kube.value, s.remote, begun, now, labels[last]);
      assert Exec(op, s, labels) == Step(op, now, labels[last]);
    }
  }

  /** After one undisturbed pass, or more, the deletion is done: exactly what was doomed is gone. */
  lemma OnePassDeletes(op: Operator, faithful: bool, s: State, labels: seq<Label>)
    requires Deletable(op, s) && QuietRun(op, faithful, s, labels)
    requires Passes(labels) >= 1 && Exec(op, s, labels).pass.Idle?
    ensures Deleted(op, s.kube.value, s.remote, Exec(op, s, labels))
  {
    RunDeletes(op, faithful, s, labels);
  }

  /******* It can be completed *******/

  lemma DeletionGoesOn(op: Operator, faithful: bool, r: Resource, remote: Remote, s: State) returns (fate: Fate)
    requires Subject(op, r, remote) && DelInv(op, r, remote, true, s) && s.pass.Running? && "" !in remote.live
    ensures CanMeet(op, s, fate) && Quiet(op, faithful, s, fate)
  {
    match s.pass.pc {
      case FinalResolve => fate := ResolveFate(None);
      case FinalFind =>
        var ids := TheMatches(op, r, remote);
        fate := ListFate(Ok(ids));
      case FinalDelete(_) => fate := DeleteFate(None, true);
      case _ => fate := WriteFate(Applied);
    }
  }

  lemma DeletionStep(op: Operator, faithful: bool, r: Resource, remote: Remote, s: State) returns (l: Label)
    requires Subject(op, r, remote) && DelInv(op, r, remote, true, s) && s.pass.Running? && "" !in remote.live
    ensures l.Effect? && Undisturbed(op, faithful, s, l)
    ensures DelInv(op, r, remote, true, Step(op, s, l)) && FinalRank(Step(op, s, l).pass) < FinalRank(s.pass)
  {
    var fate := DeletionGoesOn(op, faithful, r, remote, s);
    EffectDeletes(op, faithful, r, remote, s, fate);
    l := Effect(fate);
    assert Undisturbed(op, faithful, s, l) && Step(op, s, l) == EffectStep(op, s, fate);
  }

  lemma DeletionBegins(op: Operator, faithful: bool, s: State)
    requires Deletable(op, s)
    ensures QuietRun(op, faithful, s, [BeginPass]) && Passes([BeginPass]) == 1
    ensures DelInv(op, s.kube.value, s.remote, true, Exec(op, s, [BeginPass])) &&
            FinalRank(Exec(op, s, [BeginPass]).pass) <= 4
  {
    OneLabelMore(op, faithful, s, [], BeginPass);
    assert [] + [BeginPass] == [BeginPass];
    BeginDeletes(op, s.kube.value, s.remote, false, s);
    assert Exec(op, s, [BeginPass]) == s.(pass := Begin(op, s.kube.value));
  }

  /** Some undisturbed pass of at most four effects does it. */
  lemma DeletionCompletes(op: Operator, faithful: bool, s: State) returns (labels: seq<Label>)
    requires Deletable(op, s) && "" !in s.remote.live
    ensures QuietRun(op, faithful, s, labels) && Passes(labels) == 1 && |labels| <= 5
    ensures Exec(op, s, labels).pass.Idle? && Deleted(op, s.kube.value, s.remote, Exec(op, s, labels))
  {
    DeletionBegins(op, faithful, s);
    labels := [BeginPass];
    var now := Exec(op, s, labels);
    while now.pass.Running?
      invariant now == Exec(op, s, labels) && QuietRun(op, faithful, s, labels) && Passes(labels) == 1
      invariant DelInv(op, s.kube.value, s.remote, true, now) && |labels| + FinalRank(now.pass) <= 5
      decreases FinalRank(now.pass)
    {
      var l := DeletionStep(op, faithful, s.kube.value, s.remote, now);
      OneLabelMore(op, faithful, s, labels, l);
      labels, now := labels + [l], Step(op, now, l);
    }
  }

  /******* The exception *******/

  /** Nothing has changed, and nothing but a lookup is under way. */
  predicate Waits(r: Resource, remote: Remote, s: State) {
    && s.kube == Some(r) && s.remote == remote
    && (s.pass.Running? ==> s.pass.copy == r && (s.pass.pc.FinalResolve? || s.pass.pc.FinalFind?))
  }

  lemma BeginWaits(op: Operator, r: Resource, remote: Remote, s: State)
    requires r.deleting && r.finalizer && LooksUp(op, r) && Waits(r, remote, s) && s.pass.Idle?
    ensures Waits(r, remote, s.(pass := Begin(op, r))) && Begin(op, r).Running?
  {
  }

  lemma EffectWaits(op: Operator, faithful: bool, r: Resource, remote: Remote, s: State, fate: Fate)
    requires Ambiguous(op, r, remote) && Waits(r, remote, s) && s.pass.Running?
    requires CanMeet(op, s, fate) && Quiet(op, faithful, s, fate)
    ensures Waits(r, remote, EffectStep(op, s, fate)) && FinalRank(EffectStep(op, s, fate).pass) < FinalRank(s.pass)
  {
    if fate.ListFate? {
      ListShowsTheChoice(op, r, remote, fate.found.value);
    }
  }

  lemma StepWaits(op: Operator, faithful: bool, r: Resource, remote: Remote, s: State, l: Label)
    requires r.deleting && r.finalizer && Ambiguous(op, r, remote) && Waits(r, remote, s) &&
             Undisturbed(op, faithful, s, l)
    ensures Waits(r, remote, Step(op, s, l))
  {
    if l.BeginPass? {
      BeginWaits(op, r, remote, s);
      assert Step(op, s, l) == s.(pass := Begin(op, r));
    } else {
      EffectWaits(op, faithful, r, remote, s, l.fate);
      assert Step(op, s, l) == EffectStep(op, s, l.fate);
    }
  }

  /** With several matches for an announced object no undisturbed run changes either side. */
  lemma {:induction false} AmbiguousDeletionWaits(op: Operator, faithful: bool, s: State, labels: seq<Label>)
    requires Deleting(s) && Ambiguous(op, s.kube.value, s.remote) && QuietRun(op, faithful, s, labels)
    ensures Exec(op, s, labels).kube == s.kube && Exec(op, s, labels).remote == s.remote
    ensures Waits(s.kube.value, s.remote, Exec(op, s, labels))
  {
    if labels != [] {
      var last := |labels| - 1;
      AmbiguousDeletionWaits(op, faithful, s, labels[..last]);
      StepWaits(op, faithful, s.kube.value, s.remote, Exec(op, s, labels[..last]), labels[last]);
      assert Exec(op, s, labels) == Step(op, Exec(op, s, labels[..last]), labels[last]);
    }
  }

  lemma WaitGoesOn(op: Operator, faithful: bool, r: Resource, remote: Remote, s: State) returns (l: Label)
    requires Ambiguous(op, r, remote) && "" !in remote.live && Waits(r, remote, s) && s.pass.Running?
    ensures l.Effect? && Undisturbed(op, faithful, s, l)
    ensures Waits(r, remote, Step(op, s, l)) && FinalRank(Step(op, s, l).pass) < FinalRank(s.pass)
  {
    var ids := TheMatches(op, r, remote);
    var fate := if s.pass.pc.FinalResolve? then ResolveFate(None) else ListFate(Ok(ids));
    assert CanMeet(op, s, fate) && Quiet(op, faithful, s, fate);
    EffectWaits(op, faithful, r, remote, s, fate);
    l := Effect(fate);
    assert Undisturbed(op, faithful, s, l) && Step(op, s, l) == EffectStep(op, s, fate);
  }

  lemma WaitCompletes(op: Operator, faithful: bool, s: State) returns (labels: seq<Label>)
    requires Deleting(s) && Ambiguous(op, s.kube.value, s.remote) && "" !in s.remote.live
    ensures QuietRun(op, faithful, s, labels) && Passes(labels) == 1 && Exec(op, s, labels).pass.Idle?
  {
    OneLabelMore(op, faithful, s, [], BeginPass);
    assert [] + [BeginPass] == [BeginPass];
    labels := [BeginPass];
    var now := Exec(op, s, labels);
    AmbiguousDeletionWaits(op, faithful, s, labels);
    while now.pass.Running?
      invariant now == Exec(op, s, labels) && QuietRun(op, faithful, s, labels) && Passes(labels) == 1
      invariant Waits(s.kube.value, s.remote, now)
      decreases FinalRank(now.pass)
    {
      var l := WaitGoesOn(op, faithful, s.kube.value, s.remote, now);
      OneLabelMore(op, faithful, s, labels, l);
      labels, now := labels + [l], Step(op, now, l);
    }
  }

  /** Every undisturbed run of a pass or more finishes the deletion. */
  ghost predicate DeletesInOnePass(op: Operator, faithful: bool, s: State)
    requires s.kube.Some?
  {
    forall labels | QuietRun(op, faithful, s, labels) && Passes(labels) >= 1 && Exec(op, s, labels).pass.Idle? ::
      Deleted(op, s.kube.value, s.remote, Exec(op, s, labels))
  }

  /** One pass deletes, if and only if nothing announced is ambiguous. */
  lemma DeletesIffNotAmbiguous(op: Operator, faithful: bool, s: State)
    requires Deleting(s) && "" !in s.remote.live
    ensures DeletesInOnePass(op, faithful, s) <==> !Ambiguous(op, s.kube.value, s.remote)
  {
    if Ambiguous(op, s.kube.value, s.remote) {
      var labels := WaitCompletes(op, faithful, s);
      AmbiguousDeletionWaits(op, faithful, s, labels);
      assert !Deleted(op, s.kube.value, s.remote, Exec(op, s, labels));
    } else {
      forall labels | QuietRun(op, faithful, s, labels) && Passes(labels) >= 1 && Exec(op, s, labels).pass.Idle?
        ensures Deleted(op, s.kube.value, s.remote, Exec(op, s, labels))
      {
        OnePassDeletes(op, faithful, s, labels);
      }
    }
  }
}
