/**
 Nobody is stranded: over every run, how a pass ends agrees with the outcome the durable conditions
 then stand for, and a pass only ends without another one in sight where the design wants it to.
 */
module Requeue {
  import opened Common
  import opened JsonTree
  import opened Protocol
  import JsonCompare
  import E = Errors
  import T = Transport
  import C = Conditions

  /** The requeue each outcome asks for. */
  function RequeueFor(op: Operator, spec: Spec, outcome: C.Outcome): int {
    match outcome
    case Synced => Interval(op, spec)
    case Recoverable => RetryInterval(op, spec)
    case Pending => ON_NOT_FOUND
    case Terminal => 0
    case Suspended => 0
  }

  /** The end of a pass fits the conditions it leaves. */
  predicate Fits(op: Operator, spec: Spec, status: Status, end: Ended) {
    end.failed || end.requeueAfter == RequeueFor(op, spec, C.OutcomeOf(status.conditions))
  }

  /** The first duration that is set, or the last resort. */
  function FirstSet(durations: seq<int>, last: int): int {
    if durations == [] then last
    else if durations[0] > 0 then durations[0]
    else FirstSet(durations[1..], last)
  }

  /** Both intervals fall back in the order the API documents, and never to less than a positive default. */
  lemma IntervalsFallBack(op: Operator, spec: Spec)
    ensures Interval(op, spec) == FirstSet([spec.interval], op.defaultInterval)
    ensures RetryInterval(op, spec) == FirstSet([spec.retryInterval, spec.interval, op.defaultRetryInterval],
                                                op.defaultInterval)
    ensures op.defaultInterval > 0 ==> Interval(op, spec) > 0 && RetryInterval(op, spec) > 0
  {
    var retry := [spec.retryInterval, spec.interval, op.defaultRetryInterval];
    assert retry[1..] == [spec.interval, op.defaultRetryInterval] && retry[1..][1..] == [op.defaultRetryInterval];
    assert FirstSet(retry[1..][1..][1..], op.defaultInterval) == op.defaultInterval;
    assert FirstSet(retry[1..][1..], op.defaultInterval) ==
           if op.defaultRetryInterval > 0 then op.defaultRetryInterval else op.defaultInterval;
  }

  /** What a running pass keeps about the durable resource and about the end it is heading for. */
  predicate RequeueInv(op: Operator, kube: Option<Resource>, pass: Pass) {
    pass.Running? ==>
      && (pass.pc.SaveStatus? ==> Fits(op, pass.copy.spec, pass.copy.status, pass.pc.end))
      && (kube.Some? ==>
            if pass.pc.AddFinalizer? then kube.value.version == pass.copy.version ==> kube.value == pass.copy
            else if IsFinal(pass.pc) then kube.value.deleting
            else kube.value.status == pass.before)
      && (kube.Some? ==> pass.copy.version <= kube.value.version)
  }

  /** How a pass may end, given the resource it leaves and the specs it may have acted on. */
  ghost predicate Answers(op: Operator, specs: set<Spec>, kube: Option<Resource>, end: Ended) {
    || end.failed
    || kube.None?
    || (kube.value.deleting && !kube.value.finalizer)
    || (kube.value.deleting && exists spec | spec in specs :: end.requeueAfter == RetryInterval(op, spec))
    || (exists spec | spec in specs :: Fits(op, spec, kube.value.status, end))
  }

  /** The pass after a step: under way as RequeueInv wants it, or ended as it may. */
  ghost predicate Proceeds(op: Operator, specs: set<Spec>, kube: Option<Resource>, pass: Pass) {
    RequeueInv(op, kube, pass) && (pass.Idle? ==> Answers(op, specs, kube, pass.end))
  }

  lemma FinishProceeds(op: Operator, specs: set<Spec>, kube: Option<Resource>, p: Pass,
                       status: Status, generation: int, outcome: C.Outcome, cause: C.Cause, message: C.Message,
                           end: Ended)
    requires p.Running? && p.copy.spec in specs
    requires kube.Some? ==> kube.value.status == p.before && p.copy.version <= kube.value.version
    requires end.failed || end.requeueAfter == RequeueFor(op, p.copy.spec, outcome)
    ensures Proceeds(op, specs, kube, Finish(p, Say(status, generation, outcome, cause, message), end))
  {
    C.OutcomeReadsBack(status.conditions, generation, outcome, cause, message);
  }

  /** A pass beyond its start, and not finalizing. */
  predicate RequeueMidPass(specs: set<Spec>, kube: Option<Resource>, p: Pass) {
    p.Running? && p.copy.spec in specs &&
        (kube.Some? ==> kube.value.status == p.before && p.copy.version <= kube.value.version)
  }

  lemma ErrorProceeds(op: Operator, specs: set<Spec>, kube: Option<Resource>, p: Pass, err: E.Error)
    requires RequeueMidPass(specs, kube, p)
    ensures Proceeds(op, specs, kube, AdapterError(op, p, err))
  {
    var (outcome, cause) := C.VerdictOn(err);
    C.TerminalIffReasonSays(err);
    FinishProceeds(op, specs, kube, p, p.copy.status, p.copy.generation, outcome, cause, C.Quoting(err),
                   if outcome.Recoverable? then Ended(RetryInterval(op, p.copy.spec), false) else DONE);
  }

  lemma ReconcileProceeds(op: Operator, specs: set<Spec>, r: Resource)
    requires r.spec in specs
    ensures Proceeds(op, specs, Some(r), Reconcile(op, r))
  {
    var p := Running(r, r.status, "", "", r.generation, Resolve);
    if r.spec.suspend {
      FinishProceeds(op, specs, Some(r), p, r.status, r.generation, C.Suspended, C.SuspendedCause, C.Fixed, DONE);
    } else if Identity(op, r.spec).Err? {
      FinishProceeds(op, specs, Some(r), p, r.status, r.generation, C.Terminal, C.InvalidSpec,
                     C.NoIdentity(Identity(op, r.spec).error), DONE);
    } else if Hash(op, r.spec).Err? {
      FinishProceeds(op, specs, Some(r), p, r.status, r.generation, C.Terminal, C.InvalidSpec,
                     C.NoHash(Hash(op, r.spec).error), DONE);
    }
  }

  lemma BeginProceeds(op: Operator, specs: set<Spec>, r: Resource)
    requires r.spec in specs
    ensures Proceeds(op, specs, Some(r), Begin(op, r))
  {
    if !r.deleting && r.finalizer {
      ReconcileProceeds(op, specs, r);
    }
  }

  lemma UpdatedProceeds(op: Operator, specs: set<Spec>, kube: Option<Resource>, p: Pass)
    requires RequeueMidPass(specs, kube, p)
    ensures Proceeds(op, specs, kube, OnUpdated(op, p))
  {
    FinishProceeds(op, specs, kube, p, p.copy.status.(observedHash := p.hash), p.copy.generation, C.Synced, C.Updated,
                   C.Fixed,
                   Ended(Interval(op, p.copy.spec), false));
  }

  lemma ComparedProceeds(op: Operator, specs: set<Spec>, kube: Option<Resource>, p: Pass, body: Json,
                         compared: JsonCompare.CompareResult)
    requires RequeueMidPass(specs, kube, p)
    ensures Proceeds(op, specs, kube, OnCompared(op, p, body, compared))
  {
    UpdatedProceeds(op, specs, kube, p);
    if compared.immutable != [] {
      FinishProceeds(op, specs, kube, p, p.copy.status, p.copy.generation, C.Terminal, C.ImmutableFieldChanged,
                     C.ImmutableChanged(compared.immutable, op.immutable), DONE);
    } else if compared.updatable == [] {
      FinishProceeds(op, specs, kube, p, p.copy.status.(observedHash := p.hash), p.copy.generation, C.Synced,
                     C.SyncedCause, C.Fixed,
                     Ended(Interval(op, p.copy.spec), false));
    }
  }

  lemma ReadProceeds(op: Operator, specs: set<Spec>, kube: Option<Resource>, p: Pass, got: Result<Json, E.Error>)
    requires RequeueMidPass(specs, kube, p)
    ensures Proceeds(op, specs, kube, OnRead(op, p, got))
  {
    if got.Ok? {
      match p.copy.spec.body
      case Ok(body) => ComparedProceeds(op, specs, kube, p, body,
                                        JsonCompare.Compare(op.align, body, got.value, op.updatable, op.immutable));
      case Err(err) =>
        FinishProceeds(op, specs, kube, p, p.copy.status, p.copy.generation, C.Terminal, C.CompareFailed,
                       C.Quoting(err), DONE);
    } else if E.ReasonForError(got.error).NotFound? {
      FinishProceeds(op, specs, kube, p, p.copy.status.(id := "", observedHash := ""), p.copy.generation, C.Pending,
                     C.PendingCause, C.Fixed,
                     Ended(ON_NOT_FOUND, false));
    } else {
      ErrorProceeds(op, specs, kube, p, got.error);
    }
  }

  lemma FoundProceeds(op: Operator, specs: set<Spec>, kube: Option<Resource>, p: Pass, ids: seq<string>)
    requires RequeueMidPass(specs, kube, p)
    ensures Proceeds(op, specs, kube, OnNewObject(op, p, ids))
    ensures Proceeds(op, specs, kube, OnConflict(op, p, ids))
  {
    FinishProceeds(op, specs, kube, p, p.copy.status, p.copy.generation, C.Terminal, C.IdMismatch,
                   C.NoMatchForPin(p.copy.pin, p.identity, ids), DONE);
    FinishProceeds(op, specs, kube, p, p.copy.status, p.copy.generation, C.Terminal, C.AmbiguousCause,
                   C.Ambiguous(p.identity, ids), DONE);
    FinishProceeds(op, specs, kube, p, p.copy.status, p.copy.generation, C.Recoverable, C.BackendError,
                   C.Conflict(p.identity),
                   Ended(RetryInterval(op, p.copy.spec), false));
  }

  lemma CreatedProceeds(op: Operator, specs: set<Spec>, kube: Option<Resource>, p: Pass,
                        created: Result<string, E.Error>)
    requires RequeueMidPass(specs, kube, p)
    ensures Proceeds(op, specs, kube, OnCreated(op, p, created))
  {
    match created
    case Ok(id) =>
      FinishProceeds(op, specs, kube, p, p.copy.status.(id := id, observedHash := p.hash), p.generation, C.Synced,
                     C.Created, C.Fixed,
                     Ended(Interval(op, p.copy.spec), false));
    case Err(err) => ErrorProceeds(op, specs, kube, p, err);
  }

  lemma ResolveProceeds(op: Operator, specs: set<Spec>, kube: Option<Resource>, p: Pass, err: Option<E.Error>)
    requires RequeueMidPass(specs, kube, p)
    ensures Proceeds(op, specs, kube, AfterResolve(op, p, err))
  {
    if err.Some? {
      FinishProceeds(op, specs, kube, p, p.copy.status, p.copy.generation, C.Recoverable, C.ProviderConfigNotReady,
                     C.Quoting(err.value),
                     Ended(RetryInterval(op, p.copy.spec), false));
    }
  }

  /** The specs a step may act on: the one in memory, and the durable one that a reply brings. */
  function Specs(s: State): set<Spec> {
    (if s.pass.Running? then {s.pass.copy.spec} else {}) + (if s.kube.Some? then {s.kube.value.spec} else {})
  }

  lemma WriteProceeds(op: Operator, s: State, write: Write)
    requires s.pass.Running? && CanMeet(op, s, WriteFate(write)) && RequeueInv(op, s.kube, s.pass)
    ensures var next := WriteStep(op, s, write); Proceeds(op, Specs(s), next.kube, next.pass)
  {
    var p, next := s.pass, WriteStep(op, s, write);
    var specs := Specs(s);
    if write.Applied? {
      var r := Stored(p, s.kube.value);
      assert r.spec == s.kube.value.spec;
      if p.pc.AddFinalizer? {
        ReconcileProceeds(op, specs, r);
      } else if p.pc.ClearRejected? {
        ErrorProceeds(op, specs, next.kube, p.(copy := r), p.pc.err);
      }
    }
  }

  lemma EffectProceeds(op: Operator, s: State, fate: Fate)
    requires s.pass.Running? && CanMeet(op, s, fate) && RequeueInv(op, s.kube, s.pass)
    ensures var next := EffectStep(op, s, fate); Proceeds(op, Specs(s), next.kube, next.pass)
  {
    var p, next := s.pass, EffectStep(op, s, fate);
    var specs := Specs(s);
    assert !IsFinal(p.pc) && !p.pc.AddFinalizer? ==> RequeueMidPass(specs, s.kube, p);
    match fate
    case WriteFate(write) => WriteProceeds(op, s, write);
    case ResolveFate(err) => if p.pc.Resolve? { ResolveProceeds(op, specs, s.kube, p, err); }
    case ListFate(found) =>
      if !p.pc.FinalFind? {
        if found.Err? { ErrorProceeds(op, specs, s.kube, p, found.error); }
            else { FoundProceeds(op, specs, s.kube, p, found.value); }
      }
    case PostFate(wire, landing) => CreatedProceeds(op, specs, s.kube, p, T.Create(RenderError(p.copy.spec), wire));
    case ReadFate(err) =>
      ReadProceeds(op, specs, s.kube, p, if err.Some? then Err(err.value)
                   else Ok(s.remote.live[p.copy.status.id].body));
    case PutFate(err, _) =>
      if err.Some? { ErrorProceeds(op, specs, s.kube, p, err.value); } else { UpdatedProceeds(op, specs, s.kube, p); }
    case DeleteFate(_, _) =>
  }

  lemma StepProceeds(op: Operator, s: State, l: Label)
    requires Possible(op, s, l) && RequeueInv(op, s.kube, s.pass)
    ensures var next := Step(op, s, l);
            && RequeueInv(op, next.kube, next.pass)
            && (l.BeginPass? || l.Effect? ==> Proceeds(op, Specs(s), next.kube, next.pass))
  {
    match l
    case Effect(fate) => EffectProceeds(op, s, fate);
    case BeginPass => BeginProceeds(op, Specs(s), s.kube.value);
    case _ =>
  }

  lemma {:induction false} RunProceeds(op: Operator, identity: string, a: Assumptions, s: State, labels: seq<Label>)
    requires s.pass.Idle? && Run(op, identity, a, s, labels)
    ensures RequeueInv(op, Exec(op, s, labels).kube, Exec(op, s, labels).pass)
  {
    if labels != [] {
      var last := |labels| - 1;
      RunProceeds(op, identity, a, s, labels[..last]);
      StepProceeds(op, Exec(op, s, labels[..last]), labels[last]);
    }
  }

  /**
   Every pass of every run ends in an error, with nothing left to mirror, waiting to reclaim, or with
   the requeue its durable conditions ask for.
   */
  lemma EndsAsItsConditionsSay(op: Operator, identity: string, a: Assumptions, s: State, labels: seq<Label>, l: Label)
    requires s.pass.Idle? && Run(op, identity, a, s, labels)
    requires var now := Exec(op, s, labels);
             Possible(op, now, l) && (l.BeginPass? || l.Effect?) && Step(op, now, l).pass.Idle?
    ensures var now := Exec(op, s, labels);
            var next := Step(op, now, l);
            Answers(op, Specs(now), next.kube, next.pass.end)
  {
    RunProceeds(op, identity, a, s, labels);
    StepProceeds(op, Exec(op, s, labels), l);
  }

  /** Another pass follows by itself, or the conditions tell the user that none will. */
  predicate Attended(kube: Option<Resource>, end: Ended) {
    || end.failed || end.requeueAfter > 0
    || kube.None? || (kube.value.deleting && !kube.value.finalizer)
    || C.OutcomeOf(kube.value.status.conditions) in {C.Terminal, C.Suspended}
  }

  lemma NobodyIsStranded(op: Operator, identity: string, a: Assumptions, s: State, labels: seq<Label>, l: Label)
    requires op.defaultInterval > 0
    requires s.pass.Idle? && Run(op, identity, a, s, labels)
    requires var now := Exec(op, s, labels);
             Possible(op, now, l) && (l.BeginPass? || l.Effect?) && Step(op, now, l).pass.Idle?
    ensures Attended(Step(op, Exec(op, s, labels), l).kube, Step(op, Exec(op, s, labels), l).pass.end)
  {
    EndsAsItsConditionsSay(op, identity, a, s, labels, l);
  }
}
