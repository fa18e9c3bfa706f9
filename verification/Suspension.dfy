/**
 A suspended resource is left alone: while it stays suspended and is not deleted, no pass of any run
 sends SigNoz anything, and its status settles on Suspended.
 */
module Suspension {
  import opened Common
  import opened Protocol
  import C = Conditions

  /** The user keeps the resource suspended, and does not delete it. */
  predicate StaysSuspended(l: Label) {
    match l
    case EditSpec(spec) => spec.suspend
    case RequestDeletion => false
    case _ => true
  }

  predicate AllStaySuspended(labels: seq<Label>) {
    forall i | 0 <= i < |labels| :: StaysSuspended(labels[i])
  }

  predicate SaysSuspended(status: Status) {
    C.OutcomeOf(status.conditions).Suspended?
  }

  /** A pass over a suspended resource adds the finalizer, and saves that it is suspended. */
  predicate SuspendedInv(s: State) {
    && (s.kube.Some? ==> s.kube.value.spec.suspend && !s.kube.value.deleting)
    && match s.pass
       case Idle(_) => true
       case Running(copy, _, _, _, _, pc) =>
         && copy.spec.suspend && !copy.deleting
         && (pc.AddFinalizer? || (pc == SaveStatus(DONE) && SaysSuspended(copy.status)))
  }

  lemma ReconcileSuspends(op: Operator, r: Resource)
    requires r.spec.suspend
    ensures match Reconcile(op, r)
            case Idle(end) => end == DONE && SaysSuspended(r.status)
            case Running(copy, _, _, _, _, pc) =>
              && copy.spec == r.spec && copy.deleting == r.deleting
              && pc == SaveStatus(DONE) && SaysSuspended(copy.status)
  {
    C.OutcomeReadsBack(r.status.conditions, r.generation, C.Suspended, C.SuspendedCause, C.Fixed);
  }

  /** The state after a step, none of which SigNoz has seen. */
  predicate Suspends(s: State, next: State) {
    && SuspendedInv(next) && next.log == s.log && next.remote == s.remote
    && (next.pass == Idle(DONE) && next.kube.Some? ==> SaysSuspended(next.kube.value.status))
  }

  lemma WriteKeeps(op: Operator, s: State, write: Write)
    requires SuspendedInv(s) && s.pass.Running? && CanMeet(op, s, WriteFate(write))
    ensures Suspends(s, WriteStep(op, s, write))
  {
    if s.kube.Some? {
      ReconcileSuspends(op, Stored(s.pass, s.kube.value));
    }
  }

  lemma StepKeeps(op: Operator, s: State, l: Label)
    requires SuspendedInv(s) && Possible(op, s, l) && StaysSuspended(l)
    ensures SuspendedInv(Step(op, s, l)) && Step(op, s, l).log == s.log
    ensures l.BeginPass? || l.Effect? ==> Suspends(s, Step(op, s, l))
  {
    match l
    case BeginPass => ReconcileSuspends(op, s.kube.value);
    case Effect(fate) => if fate.WriteFate? { WriteKeeps(op, s, fate.write); }
    case _ =>
  }

  /** Nothing is asked of SigNoz, let alone written, in any run that keeps the resource suspended. */
  lemma {:induction false} SuspendedIsLeftAlone(op: Operator, identity: string, a: Assumptions, s: State,
                                                labels: seq<Label>)
    requires s.kube.Some? && s.pass.Idle? && s.kube.value.spec.suspend && !s.kube.value.deleting
    requires Run(op, identity, a, s, labels) && AllStaySuspended(labels)
    ensures Exec(op, s, labels).log == s.log && SuspendedInv(Exec(op, s, labels))
  {
    if labels != [] {
      var last := |labels| - 1;
      SuspendedIsLeftAlone(op, identity, a, s, labels[..last]);
      StepKeeps(op, Exec(op, s, labels[..last]), labels[last]);
    }
  }
}
