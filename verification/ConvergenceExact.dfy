/**
 The distances of module Convergence are exact: a start that is not within n passes of settling has an
 undisturbed run of n passes that does not settle it. So what the start shows decides, before any
 pass, how many are needed.
 */
module ConvergenceExact {
  import opened Common
  import opened Protocol
  import opened Convergence
  import opened Stalemate
  import E = Errors
  import T = Transport
  import C = Conditions

  /** What a pass keeps that started farther than n from settled, and is going to end farther than n - 1. */
  ghost predicate Away(op: Operator, faithful: bool, n: nat, r: Resource, remote: Remote, p: Pass)
    requires p.Running? && Mirrored(op, r)
  {
    && 1 <= n <= 3
    && match p.pc
       case AddFinalizer => !WithinPasses(op, faithful, n, r, remote)
       case Resolve => !WithinPasses(op, faithful, n, r, remote)
       case ClearAttempt => !WithinPasses(op, faithful, n, r, remote)
       case FindNew => !WithinPasses(op, faithful, n, r, remote)
       case MarkCreate => n <= 2 && !WithinPasses(op, faithful, n, r, remote)
       case Post => n <= 2 && r.attempt && !WithinPasses(op, faithful, n, r, remote)
       case MarkAdopt(_) => n == 1
       case Read =>
         if p.copy == r then !WithinPasses(op, faithful, n, r, remote)
         else n == 1 && r.attempt && r.status.id == ""
       case PutBody(_) => n == 1
       case SaveStatus(_) => Mirrored(op, p.copy) && !WithinPasses(op, faithful, n - 1, p.copy, remote)
       case _ => false
  }

  /** Under way to end farther than n - 1, or so ended. */
  ghost predicate AwayFrom(op: Operator, faithful: bool, n: nat, s: State) {
    && SettlingInv(op, faithful, 4, s) && "" !in s.remote.live && 1 <= n <= 3
    && match s.pass
       case Idle(_) => !WithinPasses(op, faithful, n - 1, s.kube.value, s.remote)
       case Running(_, _, _, _, _, _) => Away(op, faithful, n, s.kube.value, s.remote, s.pass)
  }

  /** The one fate that has to be chosen: a POST that stores something to be updated. */
  predicate Spoils(op: Operator, n: nat, s: State, fate: Fate)
    requires s.pass.Running?
  {
    n == 2 && fate.PostFate? && s.pass.copy.spec.body.Ok? ==>
      fate.landing.Lands? && Drifts(op, s.pass.copy.spec, fate.landing.stored)
  }

  ghost predicate Goes(op: Operator, faithful: bool, n: nat, s: State, fate: Fate) {
    && AwayFrom(op, faithful, n, s) && SettlingMeets(op, faithful, 4, s, fate) && Spoils(op, n, s, fate)
  }

  /******* One effect *******/

  lemma ShowsCause(status: Status, generation: int, outcome: C.Outcome, cause: C.Cause, message: C.Message)
    ensures var ready := C.Lookup(Say(status, generation, outcome, cause, message).conditions, C.ReadyType);
            ready.Some? && ready.value.cause == cause
  {
    C.RecordSays(status.conditions, generation, outcome, cause, message);
  }

  /** A status that says Updated is not what a pass would say that has nothing to update. */
  lemma UpdatedIsNotSettled(op: Operator, r: Resource, remote: Remote, status: Status)
    requires Mirrored(op, r) && r.status.id in remote.live
    requires r.status == Say(status, r.generation, C.Synced, C.Updated, C.Fixed)
    requires var c := Compared(op, r.spec, remote.live[r.status.id].body);
             c.immutable != [] || (c.updatable == [] && HashFits(op, r.spec, r.status))
    ensures !Settled(op, r, remote)
  {
    var c, hash := Compared(op, r.spec, remote.live[r.status.id].body), Hash(op, r.spec).value;
    ShowsCause(status, r.generation, C.Synced, C.Updated, C.Fixed);
    ShowsCause(r.status, r.generation, C.Terminal, C.ImmutableFieldChanged,
               C.ImmutableChanged(c.immutable, op.immutable));
    ShowsCause(r.status.(observedHash := hash), r.generation, C.Synced, C.SyncedCause, C.Fixed);
  }

  lemma BeginsAway(op: Operator, faithful: bool, n: nat, r: Resource, remote: Remote)
    requires Mirrored(op, r) && 1 <= n <= 3 && !WithinPasses(op, faithful, n, r, remote)
    ensures Begin(op, r).Running? && Away(op, faithful, n, r, remote, Begin(op, r))
  {
  }

  lemma WritesAway(op: Operator, faithful: bool, n: nat, r: Resource, remote: Remote, p: Pass)
    requires p.Running? && SettlingPassInv(op, faithful, 4, r, remote, p) && Away(op, faithful, n, r, remote, p)
    requires IsPatch(p.pc) || p.pc.AddFinalizer?
    ensures var next := AfterWrite(op, p, Some(Stored(p, r)));
            Mirrored(op, Stored(p, r)) && next.Running? && Away(op, faithful, n, Stored(p, r), remote, next)
  {
  }

  lemma SavesAway(op: Operator, faithful: bool, n: nat, r: Resource, remote: Remote, p: Pass)
    requires p.Running? && SettlingPassInv(op, faithful, 4, r, remote, p) && Away(op, faithful, n, r, remote, p) &&
             p.pc.SaveStatus?
    ensures Mirrored(op, Stored(p, r)) && !WithinPasses(op, faithful, n - 1, Stored(p, r), remote)
  {
  }

  lemma WriteGoesAway(op: Operator, faithful: bool, n: nat, s: State)
    requires Goes(op, faithful, n, s, WriteFate(Applied))
    ensures AwayFrom(op, faithful, n, WriteStep(op, s, Applied))
  {
    var r := s.kube.value;
    WriteStays(op, faithful, 4, s);
    if s.pass.pc.SaveStatus? {
      SavesAway(op, faithful, n, r, s.remote, s.pass);
    } else {
      WritesAway(op, faithful, n, r, s.remote, s.pass);
    }
  }

  lemma ResolveGoesAway(op: Operator, faithful: bool, n: nat, s: State)
    requires Goes(op, faithful, n, s, ResolveFate(None))
    ensures AwayFrom(op, faithful, n, ResolveStep(op, s, None))
  {
    ResolveStays(op, faithful, 4, s);
  }

  lemma FindGoesAway(op: Operator, faithful: bool, n: nat, s: State, ids: seq<string>)
    requires Goes(op, faithful, n, s, ListFate(Ok(ids)))
    ensures AwayFrom(op, faithful, n, ListStep(op, s, Ok(ids)))
  {
    FoundStays(op, faithful, 4, s, ids);
    ListShowsTheChoice(op, s.kube.value, s.remote, ids);
  }

  /** After a create the annotation is still there; and what was stored has to be updated, if so chosen. */
  lemma CreatedIsAway(op: Operator, faithful: bool, n: nat, r: Resource, after: Remote, id: string, status: Status)
    requires Mirrored(op, r) && r.attempt && 1 <= n <= 2 && id in after.live && status.id == id
    requires n == 2 ==> Sent(op, r.spec) != map[] && Drifts(op, r.spec, after.live[id].body)
    ensures !WithinPasses(op, faithful, n - 1, r.(status := status), after)
  {
  }

  lemma PostGoesAway(op: Operator, faithful: bool, n: nat, s: State, wire: T.Wire, landing: Landing)
    requires Goes(op, faithful, n, s, PostFate(wire, landing))
    ensures AwayFrom(op, faithful, n, PostStep(op, s, wire, landing))
  {
    var p, r := s.pass, s.kube.value;
    PostStays(op, faithful, 4, s, wire, landing);
    var status := Say(p.copy.status.(id := landing.id, observedHash := p.hash), p.generation, C.Synced, C.Created,
                      C.Fixed);
    CreatedIsAway(op, faithful, n, r, AfterPost(op, s.remote, r.spec.body.value, landing), landing.id, status);
  }

  lemma DroppedIsAway(op: Operator, faithful: bool, n: nat, r: Resource, remote: Remote, status: Status)
    requires Mirrored(op, r) && 1 <= n <= 3 && r.status.id != "" && r.status.id !in remote.live && status.id == ""
    requires !Stuck(op, r, remote) && !WithinPasses(op, faithful, n, r, remote)
    ensures !WithinPasses(op, faithful, n - 1, r.(status := status), remote)
  {
  }

  /** A body is read and nothing is sent, though the pass started farther than a pass away. */
  lemma ToldIsAway(op: Operator, faithful: bool, n: nat, r: Resource, remote: Remote, p: Pass)
    requires p.Running? && p.pc.Read? && SettlingPassInv(op, faithful, 4, r, remote, p) &&
             Away(op, faithful, n, r, remote, p)
    requires p.copy.status.id in remote.live
    requires var body := remote.live[p.copy.status.id].body;
             Rests(op, r.spec, p.copy.status, body) || Sent(op, r.spec) == map[]
    ensures n == 1
    ensures !Settled(op, r.(status := Told(op, r, p.copy.status, remote.live[p.copy.status.id].body)), remote)
  {
    var body, hash := remote.live[p.copy.status.id].body, Hash(op, r.spec).value;
    if p.copy == r {
      UpdatedIsNotSettled(op, r.(status := Told(op, r, r.status, body)), remote, r.status.(observedHash := hash));
    }
  }

  lemma ComparedGoesAway(op: Operator, faithful: bool, n: nat, r: Resource, remote: Remote, p: Pass)
    requires p.Running? && p.pc.Read? && SettlingPassInv(op, faithful, 4, r, remote, p) &&
             Away(op, faithful, n, r, remote, p)
    requires p.copy.status.id in remote.live
    ensures var body := remote.live[p.copy.status.id].body;
            var pass := OnCompared(op, p, r.spec.body.value, Compared(op, r.spec, body));
            if pass.Idle? then !WithinPasses(op, faithful, n - 1, r, remote) else Away(op, faithful, n, r, remote, pass)
  {
    var body := remote.live[p.copy.status.id].body;
    ComparedTells(op, r, p, body);
    if Rests(op, r.spec, p.copy.status, body) || Sent(op, r.spec) == map[] {
      ToldIsAway(op, faithful, n, r, remote, p);
    }
  }

  lemma ReadGoesAway(op: Operator, faithful: bool, n: nat, s: State, err: Option<E.Error>)
    requires Goes(op, faithful, n, s, ReadFate(err))
    ensures AwayFrom(op, faithful, n, ReadStep(op, s, err))
  {
    var p, r := s.pass, s.kube.value;
    ReadStays(op, faithful, 4, s, err);
    if err.None? {
      ComparedGoesAway(op, faithful, n, r, s.remote, p);
    } else {
      var status := Say(p.copy.status.(id := "", observedHash := ""), p.copy.generation, C.Pending, C.PendingCause,
                        C.Fixed);
      DroppedIsAway(op, faithful, n, r, s.remote, status);
    }
  }

  lemma PutGoesAway(op: Operator, faithful: bool, n: nat, s: State, after: Option<Entry>)
    requires Goes(op, faithful, n, s, PutFate(None, after))
    ensures AwayFrom(op, faithful, n, PutStep(op, s, None, after))
  {
    var p, r := s.pass, s.kube.value;
    PutStays(op, faithful, 4, s, after);
    var hashed := p.copy.status.(observedHash := p.hash);
    var status := Say(hashed, r.generation, C.Synced, C.Updated, C.Fixed);
    UpdateRests(op, r, status, after.value.body);
    UpdatedIsNotSettled(op, r.(status := status), Store(s.remote, p.copy.status.id, after.value), hashed);
  }

  lemma EffectGoesAway(op: Operator, faithful: bool, n: nat, s: State, fate: Fate)
    requires Goes(op, faithful, n, s, fate)
    ensures AwayFrom(op, faithful, n, EffectStep(op, s, fate))
  {
    match fate
    case WriteFate(_) => WriteGoesAway(op, faithful, n, s);
    case ResolveFate(_) => ResolveGoesAway(op, faithful, n, s);
    case ListFate(found) => FindGoesAway(op, faithful, n, s, found.value);
    case PostFate(wire, landing) => PostGoesAway(op, faithful, n, s, wire, landing);
    case ReadFate(err) => ReadGoesAway(op, faithful, n, s, err);
    case PutFate(_, after) => PutGoesAway(op, faithful, n, s, after);
    case _ =>
  }

  /******* Runs that take as long as they can *******/

  /** A POST that is answered, and stores something to be updated. */
  lemma SpoiledPost(op: Operator, faithful: bool, s: State) returns (fate: Fate)
    requires AwayFrom(op, faithful, 2, s) && s.pass.Running? && s.pass.pc.Post?
    ensures CanMeet(op, s, fate) && Quiet(op, faithful, s, fate) && Spoils(op, 2, s, fate)
  {
    var id := SomeFreshId(s.remote);
    var stored :| Drifts(op, s.kube.value.spec, stored);
    T.CreatedIffReadableSuccess(None, T.Answer(201, T.Readable(id)), id);
    fate := PostFate(T.Answer(201, T.Readable(id)), Lands(id, stored));
  }

  lemma AwayGoesOn(op: Operator, faithful: bool, n: nat, s: State) returns (fate: Fate)
    requires AwayFrom(op, faithful, n, s) && s.pass.Running?
    ensures CanMeet(op, s, fate) && Quiet(op, faithful, s, fate) && Spoils(op, n, s, fate)
  {
    if n == 2 && s.pass.pc.Post? {
      fate := SpoiledPost(op, faithful, s);
    } else {
      APassCanGoOn(op, faithful, 4, s);
      fate :| CanMeet(op, s, fate) && Quiet(op, faithful, s, fate);
    }
  }

  lemma AwayStep(op: Operator, faithful: bool, n: nat, s: State) returns (l: Label)
    requires AwayFrom(op, faithful, n, s) && s.pass.Running?
    ensures l.Effect? && Undisturbed(op, faithful, s, l)
    ensures AwayFrom(op, faithful, n, Step(op, s, l)) && Rank(Step(op, s, l).pass) < Rank(s.pass)
  {
    var fate := AwayGoesOn(op, faithful, n, s);
    l := Effect(fate);
    assert Undisturbed(op, faithful, s, l);
    StepDescends(op, faithful, 4, s, l);
    EffectGoesAway(op, faithful, n, s, fate);
  }

  lemma CompleteAway(op: Operator, faithful: bool, n: nat, s: State, labels: seq<Label>) returns (more: seq<Label>)
    requires QuietRun(op, faithful, s, labels) && AwayFrom(op, faithful, n, Exec(op, s, labels))
    ensures QuietRun(op, faithful, s, more) && Passes(more) == Passes(labels)
    ensures Exec(op, s, more).pass.Idle? && AwayFrom(op, faithful, n, Exec(op, s, more))
  {
    more := labels;
    var now := Exec(op, s, more);
    while now.pass.Running?
      invariant now == Exec(op, s, more) && QuietRun(op, faithful, s, more) && Passes(more) == Passes(labels)
      invariant AwayFrom(op, faithful, n, now)
      decreases Rank(now.pass)
    {
      var l := AwayStep(op, faithful, n, now);
      OneLabelMore(op, faithful, s, more, l);
      more, now := more + [l], Step(op, now, l);
    }
  }

  /** Between passes, farther than n from settled. */
  ghost predicate Far(op: Operator, faithful: bool, n: nat, s: State) {
    Before(op, s) && "" !in s.remote.live && !WithinPasses(op, faithful, n, s.kube.value, s.remote)
  }

  lemma BeginsFar(op: Operator, faithful: bool, n: nat, s: State)
    requires Far(op, faithful, n, s) && 1 <= n <= 3
    ensures Undisturbed(op, faithful, s, BeginPass) && AwayFrom(op, faithful, n, Step(op, s, BeginPass))
  {
    BeginsWithin(op, faithful, 4, s.kube.value, s.remote);
    BeginsAway(op, faithful, n, s.kube.value, s.remote);
    assert Step(op, s, BeginPass) == s.(pass := Begin(op, s.kube.value));
  }

  lemma EndsFar(op: Operator, faithful: bool, n: nat, s: State)
    requires AwayFrom(op, faithful, n, s) && s.pass.Idle?
    ensures Far(op, faithful, n - 1, s)
  {
  }

  /** One pass that brings the resource no nearer than it must. */
  lemma OneFarPass(op: Operator, faithful: bool, n: nat, s: State, labels: seq<Label>) returns (more: seq<Label>)
    requires QuietRun(op, faithful, s, labels) && Far(op, faithful, n, Exec(op, s, labels)) && 1 <= n <= 3
    ensures QuietRun(op, faithful, s, more) && Passes(more) == Passes(labels) + 1
    ensures Far(op, faithful, n - 1, Exec(op, s, more))
  {
    BeginsFar(op, faithful, n, Exec(op, s, labels));
    OneLabelMore(op, faithful, s, labels, BeginPass);
    more := CompleteAway(op, faithful, n, s, labels + [BeginPass]);
    EndsFar(op, faithful, n, Exec(op, s, more));
  }

  lemma {:induction false} FarPasses(op: Operator, faithful: bool, n: nat, s: State, labels: seq<Label>)
      returns (more: seq<Label>)
    requires QuietRun(op, faithful, s, labels) && Far(op, faithful, n, Exec(op, s, labels)) && n <= 3
    ensures QuietRun(op, faithful, s, more) && Passes(more) == Passes(labels) + n
    ensures Far(op, faithful, 0, Exec(op, s, more))
  {
    more := labels;
    if n > 0 {
      more := OneFarPass(op, faithful, n, s, labels);
      more := FarPasses(op, faithful, n - 1, s, more);
    }
  }

  /******* How many passes a start needs *******/

  ghost predicate IsSettled(op: Operator, s: State) {
    s.kube.Some? && Mirrored(op, s.kube.value) && Settled(op, s.kube.value, s.remote)
  }

  /** Every undisturbed run of so many passes settles the resource. */
  ghost predicate SettlesIn(op: Operator, faithful: bool, n: nat, s: State) {
    forall labels | QuietRun(op, faithful, s, labels) && Passes(labels) >= n && Exec(op, s, labels).pass.Idle? ::
      IsSettled(op, Exec(op, s, labels))
  }

  /** Any resource the operator can mirror, before a pass. */
  ghost predicate Startable(op: Operator, s: State) {
    s.kube.Some? && s.pass.Idle? && Mirrored(op, s.kube.value) && "" !in s.remote.live
  }

  /**
   The distance that a start shows is the number of passes that settles it for sure, whatever SigNoz
   stores; and a start that shows none is never settled.
   */
  lemma SettlesInIffWithin(op: Operator, faithful: bool, n: nat, s: State)
    requires Startable(op, s)
    ensures SettlesIn(op, faithful, n, s) <==> WithinPasses(op, faithful, n, s.kube.value, s.remote)
  {
    if WithinPasses(op, faithful, n, s.kube.value, s.remote) {
      forall labels | QuietRun(op, faithful, s, labels) && Passes(labels) >= n && Exec(op, s, labels).pass.Idle?
        ensures IsSettled(op, Exec(op, s, labels))
      {
        SettlesWithin(op, faithful, n, s, labels);
      }
    } else if Before(op, s) {
      var labels := FarPasses(op, faithful, n, s, []);
      assert !IsSettled(op, Exec(op, s, labels));
    } else {
      var labels := StalePasses(op, faithful, s, n);
      assert !IsSettled(op, Exec(op, s, labels));
    }
  }

  /** It settles at all if and only if its object is there or a lookup leaves the user no choice to make. */
  lemma SettlesAtAllIff(op: Operator, faithful: bool, s: State)
    requires Startable(op, s)
    ensures (exists n :: SettlesIn(op, faithful, n, s)) <==>
            There(s.kube.value, s.remote) || !Stuck(op, s.kube.value, s.remote)
  {
    SettlesInIffWithin(op, faithful, 4, s);
    if n :| SettlesIn(op, faithful, n, s) {
      SettlesInIffWithin(op, faithful, n, s);
    }
  }

  /**
   Three passes do not settle every run if and only if the recorded object is gone, nothing matches,
   there is something to send, and SigNoz could store something that it would have to be sent for.
   */
  lemma ThreePassesSettleIff(op: Operator, s: State)
    requires Startable(op, s) && Before(op, s)
    ensures var r := s.kube.value;
            SettlesIn(op, false, 3, s) <==>
            !(&& r.status.id != "" && r.status.id !in s.remote.live && Creatable(op, r, s.remote)
              && Sent(op, r.spec) != map[] && Driftable(op, r.spec))
  {
    SettlesInIffWithin(op, false, 3, s);
  }
}
