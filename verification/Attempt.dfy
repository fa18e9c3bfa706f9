/**
 The create-attempt annotation over whole runs, under none of the named assumptions: it is only ever
 taken back when an id is durable, or when the create it announced surely made nothing.
 */
module Attempt {
  import opened Common
  import opened JsonTree
  import opened Protocol
  import R = Requeue
  import E = Errors
  import T = Transport

  ghost predicate AttemptAtInv(p: Pass)
    requires p.Running?
  {
    && (p.pc.Resolve? || p.pc.AddFinalizer? ==> p.copy.status == p.before)
    && (p.pc.ClearAttempt? ==> p.before.id != "")
    && (p.pc.Post? ==> p.copy.attempt)
  }

  /** Under way as AttemptAtInv wants it, and not on its way to take the annotation back. */
  ghost predicate Keeps(pass: Pass) {
    pass.Running? ==> AttemptAtInv(pass) && !pass.pc.ClearRejected?
  }

  /** The effect the operator performed last. */
  function LastEffect(labels: seq<Label>): Option<Fate> {
    if labels == [] then None
    else if labels[|labels| - 1].Effect? then Some(labels[|labels| - 1].fate)
    else LastEffect(labels[..|labels| - 1])
  }

  /**
   A create that made nothing: its body could not be rendered, its request was not sent, or a usable
   400, 401 or 403 came back. When such a refusal can be trusted, nothing was created indeed.
   */
  predicate SurelyNothing(a: Assumptions, spec: Spec, fate: Fate) {
    && fate.PostFate?
    && (spec.body.Err? || fate.wire.NotSent? || (T.Refused(fate.wire) && T.Usable(fate.wire.body)))
    && (a.cleanRefusal ==> fate.landing.Never?)
  }

  /** The pass takes the annotation back because of the create that was its last effect. */
  predicate Answers(a: Assumptions, labels: seq<Label>, p: Pass)
    requires p.Running?
  {
    p.pc.ClearRejected? ==> LastEffect(labels).Some? && SurelyNothing(a, p.copy.spec, LastEffect(labels).value)
  }

  ghost predicate AttemptInv(op: Operator, a: Assumptions, labels: seq<Label>, s: State) {
    R.RequeueInv(op, s.kube, s.pass) && (s.pass.Running? ==> AttemptAtInv(s.pass) && Answers(a, labels, s.pass))
  }

  lemma ErrorKeeps(op: Operator, p: Pass, err: E.Error)
    requires p.Running?
    ensures Keeps(AdapterError(op, p, err))
  {
  }

  lemma BeginKeeps(op: Operator, r: Resource)
    ensures Keeps(Reconcile(op, r))
    ensures Keeps(Begin(op, r))
  {
  }

  lemma WriteKeeps(op: Operator, p: Pass, stored: Option<Resource>)
    requires p.Running? && AttemptAtInv(p)
    requires p.pc.MarkCreate? && stored.Some? ==> stored.value.attempt
    ensures Keeps(AfterWrite(op, p, stored))
  {
    if stored.Some? {
      BeginKeeps(op, stored.value);
      if p.pc.ClearRejected? {
        ErrorKeeps(op, p.(copy := stored.value), p.pc.err);
      }
    }
  }

  lemma FoundKeeps(op: Operator, p: Pass, found: Result<seq<string>, E.Error>)
    requires p.Running?
    ensures Keeps(AfterFind(op, p, found))
    ensures Keeps(AfterFinalFind(op, p, found))
  {
    if found.Err? {
      ErrorKeeps(op, p, found.error);
    }
  }

  lemma CreatedKeeps(op: Operator, p: Pass, created: Result<string, E.Error>)
    requires p.Running?
    ensures var next := OnCreated(op, p, created);
            && (next.Running? ==> AttemptAtInv(next))
            && (next.Running? && next.pc.ClearRejected? ==> T.ClearsAttempt(created) && next.copy == p.copy)
  {
    if created.Err? {
      ErrorKeeps(op, p, created.error);
    }
  }

  lemma PostKeeps(op: Operator, a: Assumptions, s: State, wire: T.Wire, landing: Landing)
    requires s.pass.Running? && CanMeet(op, s, PostFate(wire, landing)) &&
             FateAssumed(op, a, s, PostFate(wire, landing))
    ensures var next := PostStep(op, s, wire, landing).pass;
            next.Running? ==>
              AttemptAtInv(next) &&
                  (next.pc.ClearRejected? ==> SurelyNothing(a, next.copy.spec, PostFate(wire, landing)))
  {
    var spec := s.pass.copy.spec;
    CreatedKeeps(op, s.pass, T.Create(RenderError(spec), wire));
    T.AttemptClearedIffSurelyNothingCreated(RenderError(spec), wire);
  }

  lemma UpdatedKeeps(op: Operator, p: Pass)
    requires p.Running?
    ensures Keeps(OnUpdated(op, p))
  {
  }

  lemma ReadKeeps(op: Operator, p: Pass, got: Result<Json, E.Error>)
    requires p.Running?
    ensures Keeps(OnRead(op, p, got))
  {
    UpdatedKeeps(op, p);
    if got.Err? {
      ErrorKeeps(op, p, got.error);
    }
  }

  lemma EffectKeeps(op: Operator, a: Assumptions, s: State, fate: Fate)
    requires s.pass.Running? && AttemptAtInv(s.pass) && CanMeet(op, s, fate) && FateAssumed(op, a, s, fate)
    ensures var next := EffectStep(op, s, fate).pass;
            next.Running? ==> AttemptAtInv(next) && (next.pc.ClearRejected? ==> SurelyNothing(a, next.copy.spec, fate))
  {
    var p := s.pass;
    match fate
    case WriteFate(write) => WriteKeeps(op, p, if write.Applied? then Some(Stored(p, s.kube.value)) else None);
    case ListFate(found) => FoundKeeps(op, p, found);
    case PostFate(wire, landing) => PostKeeps(op, a, s, wire, landing);
    case ReadFate(err) => ReadKeeps(op, p, if err.Some? then Err(err.value)
                                    else Ok(s.remote.live[p.copy.status.id].body));
    case PutFate(err, _) =>
      UpdatedKeeps(op, p);
      if err.Some? { ErrorKeeps(op, p, err.value); }
    case _ =>
  }

  lemma StepKeeps(op: Operator, identity: string, a: Assumptions, labels: seq<Label>, s: State, l: Label)
    requires AttemptInv(op, a, labels, s) && Possible(op, s, l) && Assumed(op, identity, a, s, l)
    ensures AttemptInv(op, a, labels + [l], Step(op, s, l))
  {
    assert (labels + [l])[..|labels|] == labels;
    R.StepProceeds(op, s, l);
    match l
    case Effect(fate) => EffectKeeps(op, a, s, fate);
    case BeginPass => BeginKeeps(op, s.kube.value);
    case _ =>
  }

  lemma {:induction false} RunKeeps(op: Operator, identity: string, a: Assumptions, s: State, labels: seq<Label>)
    requires s.pass.Idle? && Run(op, identity, a, s, labels)
    ensures AttemptInv(op, a, labels, Exec(op, s, labels))
  {
    if labels != [] {
      var last := |labels| - 1;
      RunKeeps(op, identity, a, s, labels[..last]);
      StepKeeps(op, identity, a, labels[..last], Exec(op, s, labels[..last]), labels[last]);
      assert labels[..last] + [labels[last]] == labels;
    }
  }

  predicate Announced(s: State) {
    s.kube.Some? && s.kube.value.attempt
  }

  lemma ClearingStep(op: Operator, a: Assumptions, labels: seq<Label>, s: State, l: Label)
    requires AttemptInv(op, a, labels, s) && Possible(op, s, l)
    requires Announced(s) && Step(op, s, l).kube.Some? && !Announced(Step(op, s, l))
    ensures s.kube.value.status.id != "" ||
            (s.pass.Running? && LastEffect(labels).Some? &&
             SurelyNothing(a, s.pass.copy.spec, LastEffect(labels).value))
  {
  }

  /**
   The step that takes the annotation back finds an id durable, or its pass has just had a create
   that surely made nothing.
   */
  lemma ClearedOnlyWhenSettled(op: Operator, identity: string, a: Assumptions, s: State, labels: seq<Label>, l: Label)
    requires s.pass.Idle? && Run(op, identity, a, s, labels) && Possible(op, Exec(op, s, labels), l)
    requires var now := Exec(op, s, labels);
             Announced(now) && Step(op, now, l).kube.Some? && !Announced(Step(op, now, l))
    ensures var now := Exec(op, s, labels);
            now.kube.value.status.id != "" ||
            (now.pass.Running? && LastEffect(labels).Some? &&
             SurelyNothing(a, now.pass.copy.spec, LastEffect(labels).value))
  {
    RunKeeps(op, identity, a, s, labels);
    ClearingStep(op, a, labels, Exec(op, s, labels), l);
  }

  /******* The converse *******/

  /** The create had a body that could not be rendered for a reason of its own, was not sent, or was refused. */
  predicate MadeNothing(spec: Spec, wire: T.Wire) {
    match spec.body
    case Err(err) => E.ReasonForError(err) in {E.InvalidInput, E.Unauthorized, E.Forbidden}
    case Ok(_) =>
      wire.NotSent? ||
      (wire.Answer? && wire.status in {400, 401, 403} && !wire.body.Oversized? && !wire.body.CutShort?)
  }

  /** A create that has announced itself goes on to take the announcement back exactly if it made nothing. */
  lemma TakesBackIffMadeNothing(op: Operator, s: State, wire: T.Wire, landing: Landing)
    requires s.pass.Running? && s.pass.pc.Post? && s.pass.copy.attempt && CanMeet(op, s, PostFate(wire, landing))
    ensures var next := EffectStep(op, s, PostFate(wire, landing)).pass;
            next.Running? && next.pc.ClearRejected? <==> MadeNothing(s.pass.copy.spec, wire)
  {
    var spec := s.pass.copy.spec;
    var created := T.Create(RenderError(spec), wire);
    T.AttemptClearedIffSurelyNothingCreated(RenderError(spec), wire);
    CreatedKeeps(op, s.pass, created);
  }

  predicate IsEnvironment(l: Label) {
    !l.BeginPass? && !l.Effect? && !l.Crash?
  }

  /** Whatever others do in the meantime, the pass waits. */
  lemma {:induction false} OthersKeepThePass(op: Operator, s: State, others: seq<Label>)
    requires forall i | 0 <= i < |others| :: IsEnvironment(others[i])
    ensures Exec(op, s, others).pass == s.pass
  {
    if others != [] {
      OthersKeepThePass(op, s, others[..|others| - 1]);
    }
  }

  lemma ClearingClears(op: Operator, s: State)
    requires s.pass.Running? && s.pass.pc.ClearRejected? && s.kube.Some?
    ensures CanMeet(op, s, WriteFate(Applied)) && !Announced(WriteStep(op, s, Applied))
  {
  }

  /**
   In every run: after a create that made nothing, whatever others do then, the operator's next write,
   if it is applied, leaves no durable annotation; and after any other create the pass goes elsewhere.
   */
  lemma TakenBackIffMadeNothing(op: Operator, identity: string, a: Assumptions, s: State, labels: seq<Label>,
                                wire: T.Wire, landing: Landing, others: seq<Label>)
    requires s.pass.Idle? && Run(op, identity, a, s, labels)
    requires var now := Exec(op, s, labels);
             now.pass.Running? && now.pass.pc.Post? && CanMeet(op, now, PostFate(wire, landing))
    requires forall i | 0 <= i < |others| :: IsEnvironment(others[i])
    ensures var now := Exec(op, s, labels);
            var later := Exec(op, EffectStep(op, now, PostFate(wire, landing)), others);
            && (later.pass.Running? && later.pass.pc.ClearRejected? <==> MadeNothing(now.pass.copy.spec, wire))
            && (MadeNothing(now.pass.copy.spec, wire) && later.kube.Some? ==>
                  CanMeet(op, later, WriteFate(Applied)) && !Announced(EffectStep(op, later, WriteFate(Applied))))
  {
    var now := Exec(op, s, labels);
    RunKeeps(op, identity, a, s, labels);
    TakesBackIffMadeNothing(op, now, wire, landing);
    var posted := EffectStep(op, now, PostFate(wire, landing));
    OthersKeepThePass(op, posted, others);
    if MadeNothing(now.pass.copy.spec, wire) && Exec(op, posted, others).kube.Some? {
      ClearingClears(op, Exec(op, posted, others));
    }
  }
}
