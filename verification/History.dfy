/**
 What the operator did to SigNoz over a whole run, whatever the other parties do: which ids it may
 write to, when it may create, and what a lookup leads to.
 */
module History {
  import opened Common
  import opened JsonTree
  import opened Protocol
  import JsonCompare
  import JsonUpdate
  import E = Errors
  import T = Transport
  import C = Conditions

  type Log = seq<Event>

  /**
   The id a lookup settles on: the pinned match if it was made to adopt and a pin is set, else the only
   match. Lookups after a conflict and for a reclaim take no notice of the pin.
   */
  function Chosen(e: Event): Option<string> {
    if !e.Searched? then None
    else if e.purpose.ToAdopt? && e.pin != "" then if e.pin in e.ids then Some(e.pin) else None
    else if |e.ids| == 1 then Some(e.ids[0])
    else None
  }

  /** The reply to a create named the id, or a lookup settled on it. */
  predicate Grants(e: Event, id: string) {
    match e
    case Named(named, _) => named == id
    case Searched(_, _, _, _) => Chosen(e) == Some(id)
    case _ => false
  }

  ghost predicate Granted(log: Log, id: string) {
    exists i | 0 <= i < |log| :: Grants(log[i], id)
  }

  /** An earlier event grants the id, or the resource already recorded it at the start. */
  ghost predicate MayTouch(first: Status, log: Log, id: string) {
    Granted(log, id) || (id != "" && id == first.id)
  }

  /** A status that holds no hash without an id. */
  predicate Orderly(status: Status) {
    status.observedHash != "" ==> status.id != ""
  }

  /** A lookup to adopt that found nothing, without a pin. */
  predicate FoundNothing(e: Event) {
    e.Searched? && e.purpose.ToAdopt? && e.ids == [] && e.pin == ""
  }

  /** A lookup that settles on nothing, nor on that there is nothing to adopt. */
  predicate Inconclusive(e: Event) {
    e.Searched? && Chosen(e).None? && !FoundNothing(e)
  }

  /** What may follow a log. */
  ghost predicate MayFollow(first: Status, log: Log, e: Event) {
    && (e.PutSent? || e.DeleteSent? ==> MayTouch(first, log, e.id))
    && (e.Posted? ==> log != [] && FoundNothing(log[|log| - 1]))
    && (log != [] && Inconclusive(log[|log| - 1]) ==> e.Searched?)
  }

  ghost predicate LogInv(first: Status, log: Log) {
    forall i | 0 <= i < |log| :: MayFollow(first, log[..i], log[i])
  }

  lemma LogInvAppend(first: Status, log: Log, e: Event)
    requires LogInv(first, log) && MayFollow(first, log, e)
    ensures LogInv(first, log + [e])
  {
    var more := log + [e];
    forall i | 0 <= i < |more| ensures MayFollow(first, more[..i], more[i]) {
      if i < |log| {
        assert more[..i] == log[..i];
      } else {
        assert more[..i] == log;
      }
    }
  }

  /** Longer logs grant all that shorter ones do. */
  lemma GrowthKeeps(log: Log, more: Log)
    ensures forall id :: Granted(log, id) ==> Granted(log + more, id)
    ensures forall i, id | 0 <= i < |more| && Grants(more[i], id) :: Granted(log + more, id)
  {
    var all := log + more;
    forall id | Granted(log, id) ensures Granted(all, id) {
      var i :| 0 <= i < |log| && Grants(log[i], id);
      assert Grants(all[i], id);
    }
    forall i, id | 0 <= i < |more| && Grants(more[i], id) ensures Granted(all, id) {
      assert all[|log| + i] == more[i];
    }
  }

  /** Where a recorded id comes from, and that a hash never comes without one. */
  ghost predicate StatusInv(first: Status, log: Log, status: Status) {
    && (status.id != "" ==> MayTouch(first, log, status.id))
    && (Orderly(first) ==> Orderly(status))
  }

  predicate AfterInconclusive(log: Log) {
    log != [] && Inconclusive(log[|log| - 1])
  }

  ghost predicate HistoryAtInv(first: Status, log: Log, p: Pass)
    requires p.Running?
  {
    match p.pc
    case AddFinalizer => true
    case Resolve => p.copy.status == p.before
    case ClearAttempt => p.copy.status == p.before && p.before.id != ""
    case FindNew => p.copy.status == p.before && p.before.id == ""
    case MarkCreate => p.copy.status == p.before && p.before.id == "" && log != [] && FoundNothing(log[|log| - 1])
    case Post => p.copy.status == p.before && p.before.id == "" && log != [] && FoundNothing(log[|log| - 1])
    case ClearRejected(_) => p.copy.status == p.before && p.before.id == ""
    case FindConflict => p.copy.status == p.before && p.before.id == ""
    case MarkAdopt(id) => p.copy.status == p.before && p.before.id == "" && id != "" && Granted(log, id) &&
      !AfterInconclusive(log)
    case Read => p.copy.status.id != "" && (Orderly(first) && p.before.id == "" ==> p.copy.status.observedHash == "")
    case PutBody(_) => p.copy.status.id != "" &&
      (Orderly(first) && p.before.id == "" ==> p.copy.status.observedHash == "")
    case SaveStatus(_) => true
    case FinalResolve => true
    case FinalFind => p.copy.status.id == ""
    case FinalDelete(id) => MayTouch(first, log, id) && !AfterInconclusive(log)
    case DropFinalizer => true
  }

  ghost predicate HistoryPassInv(op: Operator, identity: string, a: Assumptions, first: Status, kube: Option<Resource>,
                                 log: Log, pass: Pass) {
    match pass
    case Idle(_) => true
    case Running(copy, before, _, _, _, pc) =>
      && SpecAssumed(op, identity, a, copy.spec)
      && StatusInv(first, log, copy.status)
      && HistoryAtInv(first, log, pass)
      && (AfterInconclusive(log) ==> copy.status.id == "")
      && (kube.None? ==> pc.AddFinalizer?)
      && (kube.Some? ==> Tied(kube.value, pass))
  }

  /** The durable side only changes under a pass in ways that leave it what it took from there. */
  predicate Tied(r: Resource, p: Pass)
    requires p.Running?
  {
    && p.copy.version <= r.version
    && (if p.pc.AddFinalizer? then r.version == p.copy.version ==> r == p.copy
        else r.finalizer && r.status == if IsFinal(p.pc) then p.copy.status else p.before)
  }

  ghost predicate HistoryKubeInv(op: Operator, identity: string, a: Assumptions, first: Status, kube: Option<Resource>,
                                 log: Log) {
    kube.Some? ==>
      && SpecAssumed(op, identity, a, kube.value.spec)
      && StatusInv(first, log, kube.value.status)
      && (AfterInconclusive(log) ==> kube.value.status.id == "")
  }

  ghost predicate HistoryInv(op: Operator, identity: string, a: Assumptions, first: Status, s: State) {
    && LogInv(first, s.log)
    && HistoryKubeInv(op, identity, a, first, s.kube, s.log)
    && HistoryPassInv(op, identity, a, first, s.kube, s.log, s.pass)
  }

  /******* The passes *******/

  ghost predicate HistoryMidPass(op: Operator, identity: string, a: Assumptions, r: Resource, p: Pass) {
    p.Running? && SpecAssumed(op, identity, a, p.copy.spec) && p.copy.version <= r.version && r.finalizer &&
        r.status == p.before
  }

  lemma FinishKeeps(op: Operator, identity: string, a: Assumptions, first: Status, r: Resource, log: Log, p: Pass,
                    status: Status, end: Ended)
    requires HistoryMidPass(op, identity, a, r, p) && StatusInv(first, log, status)
    requires AfterInconclusive(log) ==> status.id == ""
    ensures HistoryPassInv(op, identity, a, first, Some(r), log, Finish(p, status, end))
  {
  }

  lemma AdapterErrorKeeps(op: Operator, identity: string, a: Assumptions, first: Status, r: Resource, log: Log, p: Pass,
                          err: E.Error)
    requires HistoryMidPass(op, identity, a, r, p) && StatusInv(first, log, p.copy.status)
    requires AfterInconclusive(log) ==> p.copy.status.id == ""
    ensures HistoryPassInv(op, identity, a, first, Some(r), log, AdapterError(op, p, err))
  {
    var (outcome, cause) := C.VerdictOn(err);
    FinishKeeps(op, identity, a, first, r, log, p,
                Say(p.copy.status, p.copy.generation, outcome, cause, C.Quoting(err)),
                if outcome.Recoverable? then Ended(RetryInterval(op, p.copy.spec), false) else DONE);
  }

  lemma ReconcileKeeps(op: Operator, identity: string, a: Assumptions, first: Status, r: Resource, log: Log)
    requires HistoryKubeInv(op, identity, a, first, Some(r), log) && r.finalizer
    ensures HistoryPassInv(op, identity, a, first, Some(r), log, Reconcile(op, r))
  {
    var p := Running(r, r.status, "", "", r.generation, Resolve);
    if r.spec.suspend {
      FinishKeeps(op, identity, a, first, r, log, p,
                  Say(r.status, r.generation, C.Suspended, C.SuspendedCause, C.Fixed), DONE);
    } else if Identity(op, r.spec).Err? {
      FinishKeeps(op, identity, a, first, r, log, p,
                  Say(r.status, r.generation, C.Terminal, C.InvalidSpec, C.NoIdentity(Identity(op, r.spec).error)),
                      DONE);
    } else if Hash(op, r.spec).Err? {
      FinishKeeps(op, identity, a, first, r, log, p,
                  Say(r.status, r.generation, C.Terminal, C.InvalidSpec, C.NoHash(Hash(op, r.spec).error)), DONE);
    }
  }

  lemma BeginKeeps(op: Operator, identity: string, a: Assumptions, first: Status, r: Resource, log: Log)
    requires HistoryKubeInv(op, identity, a, first, Some(r), log)
    ensures HistoryPassInv(op, identity, a, first, Some(r), log, Begin(op, r))
  {
    if !r.deleting && r.finalizer {
      ReconcileKeeps(op, identity, a, first, r, log);
    }
  }

  lemma ResolveKeeps(op: Operator, identity: string, a: Assumptions, first: Status, r: Resource, log: Log, p: Pass,
                     err: Option<E.Error>)
    requires HistoryPassInv(op, identity, a, first, Some(r), log, p) && p.Running? && p.pc.Resolve?
    ensures HistoryPassInv(op, identity, a, first, Some(r), log, AfterResolve(op, p, err))
  {
    if err.Some? {
      FinishKeeps(op, identity, a, first, r, log, p,
                  Say(p.copy.status, p.copy.generation, C.Recoverable, C.ProviderConfigNotReady, C.Quoting(err.value)),
                  Ended(RetryInterval(op, p.copy.spec), false));
    }
  }

  lemma PatchKeeps(op: Operator, identity: string, a: Assumptions, first: Status, r: Resource, log: Log, p: Pass)
    requires HistoryKubeInv(op, identity, a, first, Some(r), log) &&
             HistoryPassInv(op, identity, a, first, Some(r), log, p)
    requires p.Running? && IsPatch(p.pc)
    ensures HistoryPassInv(op, identity, a, first, Some(Stored(p, r)), log, AfterPatch(op, p, Some(Stored(p, r))))
    ensures AfterPatch(op, p, None).Idle?
  {
    var r' := Stored(p, r);
    if p.pc.ClearRejected? {
      AdapterErrorKeeps(op, identity, a, first, r', log, p.(copy := r'), p.pc.err);
    }
  }

  /** A lookup, from its event on. */
  lemma FindKeeps(op: Operator, identity: string, a: Assumptions, first: Status, r: Resource, log: Log, p: Pass,
                  e: Event)
    requires HistoryPassInv(op, identity, a, first, Some(r), log, p) && p.Running? &&
             (p.pc.FindNew? || p.pc.FindConflict?)
    requires e.Searched? && e.purpose == PurposeOf(p.pc) && e.pin == p.copy.pin && "" !in e.ids
    ensures HistoryPassInv(op, identity, a, first, Some(r), log + [e], AfterFind(op, p, Ok(e.ids)))
  {
    var ids := e.ids;
    GrowthKeeps(log, [e]);
    assert StatusInv(first, log + [e], p.copy.status);
    assert Chosen(e).Some? ==> Grants([e][0], Chosen(e).value);
    if |ids| != 1 || (p.pc.FindNew? && p.copy.pin != "") {
      if p.pc.FindNew? && p.copy.pin != "" {
        if p.copy.pin in ids {
          assert Grants([e][0], p.copy.pin);
        } else {
          FinishKeeps(op, identity, a, first, r, log + [e], p,
                      Say(p.copy.status, p.copy.generation, C.Terminal, C.IdMismatch,
                          C.NoMatchForPin(p.copy.pin, p.identity, ids)), DONE);
        }
      } else if |ids| > 1 {
        FinishKeeps(op, identity, a, first, r, log + [e], p,
                    Say(p.copy.status, p.copy.generation, C.Terminal, C.AmbiguousCause, C.Ambiguous(p.identity, ids)),
                        DONE);
      } else if p.pc.FindConflict? {
        FinishKeeps(op, identity, a, first, r, log + [e], p,
                    Say(p.copy.status, p.copy.generation, C.Recoverable, C.BackendError, C.Conflict(p.identity)),
                    Ended(RetryInterval(op, p.copy.spec), false));
      }
    } else {
      assert Granted(log + [e], ids[0]);
    }
  }

  /** A POST, from its events on. */
  lemma PostKeeps(op: Operator, identity: string, a: Assumptions, first: Status, r: Resource, log: Log, p: Pass,
                  created: Result<string, E.Error>, events: Log)
    requires HistoryPassInv(op, identity, a, first, Some(r), log, p) && p.Running? && p.pc.Post?
    requires events == PostEvents(p, created)
    requires created.Ok? ==> p.copy.spec.body.Ok? && created.value != ""
    ensures HistoryPassInv(op, identity, a, first, Some(r), log + events, OnCreated(op, p, created))
  {
    GrowthKeeps(log, events);
    assert events == [] ==> log + events == log;
    match created
    case Ok(id) =>
      assert Grants(events[1], id);
      FinishKeeps(op, identity, a, first, r, log + events, p,
                  Say(p.copy.status.(id := id, observedHash := p.hash), p.generation, C.Synced, C.Created, C.Fixed),
                  Ended(Interval(op, p.copy.spec), false));
    case Err(err) =>
      AdapterErrorKeeps(op, identity, a, first, r, log + events, p, err);
  }

  /** A read, from the event it may leave. */
  lemma ReadKeeps(op: Operator, identity: string, a: Assumptions, first: Status, r: Resource, log: Log, p: Pass,
                  got: Result<Json, E.Error>)
    requires HistoryPassInv(op, identity, a, first, Some(r), log, p) && p.Running? && p.pc.Read?
    ensures var log' := log + if got.Ok? then Agreement(op, p, got.value) else [];
            HistoryPassInv(op, identity, a, first, Some(r), log', OnRead(op, p, got))
  {
    var events := if got.Ok? then Agreement(op, p, got.value) else [];
    var log' := log + events;
    GrowthKeeps(log, events);
    assert events == [] ==> log' == log;
    assert StatusInv(first, log', p.copy.status);
    if got.Ok? {
      if p.copy.spec.body.Ok? {
        ComparedKeeps(op, identity, a, first, r, log', p, p.copy.spec.body.value,
                      JsonCompare.Compare(op.align, p.copy.spec.body.value, got.value, op.updatable, op.immutable),
                          events);
      } else {
        FinishKeeps(op, identity, a, first, r, log', p,
                    Say(p.copy.status, p.copy.generation, C.Terminal, C.CompareFailed,
                        C.Quoting(p.copy.spec.body.error)), DONE);
      }
    } else if E.ReasonForError(got.error).NotFound? {
      FinishKeeps(op, identity, a, first, r, log', p,
                  Say(p.copy.status.(id := "", observedHash := ""), p.copy.generation, C.Pending, C.PendingCause,
                      C.Fixed),
                  Ended(ON_NOT_FOUND, false));
    } else {
      AdapterErrorKeeps(op, identity, a, first, r, log', p, got.error);
    }
  }

  lemma ComparedKeeps(op: Operator, identity: string, a: Assumptions, first: Status, r: Resource, log: Log, p: Pass,
                      body: Json, compared: JsonCompare.CompareResult, events: Log)
    requires HistoryPassInv(op, identity, a, first, Some(r), log, p) && p.Running? && p.pc.Read? &&
             p.copy.spec.body == Ok(body)
    requires compared == JsonCompare.CompareResult([], []) ==> events == [Agreed(p.copy.status.id, body)]
    requires events != [] ==> log != [] && log[|log| - 1] == events[|events| - 1]
    ensures HistoryPassInv(op, identity, a, first, Some(r), log, OnCompared(op, p, body, compared))
  {
    if compared.immutable != [] {
      FinishKeeps(op, identity, a, first, r, log, p,
                  Say(p.copy.status, p.copy.generation, C.Terminal, C.ImmutableFieldChanged,
                      C.ImmutableChanged(compared.immutable, op.immutable)), DONE);
    } else if compared.updatable == [] && (p.copy.status.observedHash == "" || p.copy.status.observedHash == p.hash) {
      FinishKeeps(op, identity, a, first, r, log, p,
                  Say(p.copy.status.(observedHash := p.hash), p.copy.generation, C.Synced, C.SyncedCause, C.Fixed),
                  Ended(Interval(op, p.copy.spec), false));
    } else if JsonUpdate.Projection(body, op.updatable) == map[] {
      UpdatedKeeps(op, identity, a, first, r, log, p);
    }
  }

  lemma UpdatedKeeps(op: Operator, identity: string, a: Assumptions, first: Status, r: Resource, log: Log, p: Pass)
    requires HistoryMidPass(op, identity, a, r, p) && StatusInv(first, log, p.copy.status) && p.copy.status.id != ""
    requires !AfterInconclusive(log)
    ensures HistoryPassInv(op, identity, a, first, Some(r), log, OnUpdated(op, p))
  {
    FinishKeeps(op, identity, a, first, r, log, p,
                Say(p.copy.status.(observedHash := p.hash), p.copy.generation, C.Synced, C.Updated, C.Fixed),
                Ended(Interval(op, p.copy.spec), false));
  }

  lemma PutKeeps(op: Operator, identity: string, a: Assumptions, first: Status, r: Resource, log: Log, p: Pass,
                 err: Option<E.Error>, events: Log)
    requires HistoryPassInv(op, identity, a, first, Some(r), log, p) && p.Running? && p.pc.PutBody?
    requires events == PutEvents(p, err)
    ensures HistoryPassInv(op, identity, a, first, Some(r), log + events, AfterPut(op, p, err))
  {
    GrowthKeeps(log, events);
    if err.Some? {
      AdapterErrorKeeps(op, identity, a, first, r, log + events, p, err.value);
    } else {
      UpdatedKeeps(op, identity, a, first, r, log + events, p);
    }
  }

  /******* One step *******/

  lemma KubeInvGrows(op: Operator, identity: string, a: Assumptions, first: Status, kube: Option<Resource>, log: Log,
                     more: Log)
    requires HistoryKubeInv(op, identity, a, first, kube, log)
    requires more != [] ==> !Inconclusive(more[|more| - 1])
    ensures HistoryKubeInv(op, identity, a, first, kube, log + more)
  {
    GrowthKeeps(log, more);
    assert more == [] ==> log + more == log;
    assert more != [] ==> (log + more)[|log + more| - 1] == more[|more| - 1];
  }

  lemma WriteKeeps(op: Operator, identity: string, a: Assumptions, first: Status, s: State, write: Write)
    requires HistoryInv(op, identity, a, first, s) && s.pass.Running? && CanMeet(op, s, WriteFate(write)) &&
             FateAssumed(op, a, s, WriteFate(write))
    ensures HistoryInv(op, identity, a, first, WriteStep(op, s, write))
  {
    var p := s.pass;
    if !write.Rejected? {
      var r := s.kube.value;
      var r' := Stored(p, r);
      assert HistoryKubeInv(op, identity, a, first, Some(r'), s.log);
      if p.pc.AddFinalizer? {
        ReconcileKeeps(op, identity, a, first, r', s.log);
      } else if IsPatch(p.pc) {
        if write.Applied? {
          PatchKeeps(op, identity, a, first, r, s.log, p);
        }
      }
    }
  }

  lemma ResolveStepKeeps(op: Operator, identity: string, a: Assumptions, first: Status, s: State, err: Option<E.Error>)
    requires HistoryInv(op, identity, a, first, s) && s.pass.Running? && CanMeet(op, s, ResolveFate(err))
    ensures HistoryInv(op, identity, a, first, ResolveStep(op, s, err))
  {
    if s.pass.pc.Resolve? {
      ResolveKeeps(op, identity, a, first, s.kube.value, s.log, s.pass, err);
    }
  }

  lemma ListKeeps(op: Operator, identity: string, a: Assumptions, first: Status, s: State,
                  found: Result<seq<string>, E.Error>)
    requires HistoryInv(op, identity, a, first, s) && s.pass.Running? && CanMeet(op, s, ListFate(found))
    ensures HistoryInv(op, identity, a, first, ListStep(op, s, found))
  {
    var p, r := s.pass, s.kube.value;
    if found.Err? {
      assert s.log + [] == s.log;
      if !p.pc.FinalFind? {
        AdapterErrorKeeps(op, identity, a, first, r, s.log, p, found.error);
      }
    } else {
      var e := Searched(PurposeOf(p.pc), Identity(op, p.copy.spec).value, found.value, p.copy.pin);
      NoIdAtFind(op, identity, a, first, r, s.log, p);
      SearchKeeps(op, identity, a, first, r, s.log, e);
      if p.pc.FinalFind? {
        FinalFindKeeps(op, identity, a, first, r, s.log, p, e);
      } else {
        FindKeeps(op, identity, a, first, r, s.log, p, e);
      }
    }
  }

  /** Lookups are made only while no id is recorded. */
  lemma NoIdAtFind(op: Operator, identity: string, a: Assumptions, first: Status, r: Resource, log: Log, p: Pass)
    requires HistoryPassInv(op, identity, a, first, Some(r), log, p) && p.Running? && IsFind(p.pc)
    ensures r.status.id == ""
  {
  }

  lemma SearchKeeps(op: Operator, identity: string, a: Assumptions, first: Status, r: Resource, log: Log, e: Event)
    requires LogInv(first, log) && HistoryKubeInv(op, identity, a, first, Some(r), log) && e.Searched? &&
             r.status.id == ""
    ensures LogInv(first, log + [e]) && HistoryKubeInv(op, identity, a, first, Some(r), log + [e])
  {
    assert MayFollow(first, log, e);
    LogInvAppend(first, log, e);
  }

  lemma FinalFindKeeps(op: Operator, identity: string, a: Assumptions, first: Status, r: Resource, log: Log, p: Pass,
                       e: Event)
    requires HistoryPassInv(op, identity, a, first, Some(r), log, p) && p.Running? && p.pc.FinalFind?
    requires e.Searched? && e.purpose.ToReclaim?
    ensures HistoryPassInv(op, identity, a, first, Some(r), log + [e], AfterFinalFind(op, p, Ok(e.ids)))
  {
    GrowthKeeps(log, [e]);
    assert |e.ids| == 1 ==> Grants([e][0], e.ids[0]);
  }

  lemma PostStepKeeps(op: Operator, identity: string, a: Assumptions, first: Status, s: State, wire: T.Wire,
                      landing: Landing)
    requires HistoryInv(op, identity, a, first, s) && s.pass.Running? && CanMeet(op, s, PostFate(wire, landing))
    ensures HistoryInv(op, identity, a, first, PostStep(op, s, wire, landing))
  {
    var p := s.pass;
    var created := T.Create(RenderError(p.copy.spec), wire);
    var events := PostEvents(p, created);
    if created.Ok? {
      T.CreatedIffReadableSuccess(RenderError(p.copy.spec), wire, created.value);
    }
    PostKeeps(op, identity, a, first, s.kube.value, s.log, p, created, events);
    KubeInvGrows(op, identity, a, first, s.kube, s.log, events);
    RequestLog(first, s.log, events);
  }

  /** A request, and at most one event about its reply. */
  lemma RequestLog(first: Status, log: Log, events: Log)
    requires LogInv(first, log) && |events| <= 2
    requires events != [] ==> MayFollow(first, log, events[0]) && !events[0].Searched?
    requires |events| == 2 ==> events[1].Named? || events[1].Replaced?
    ensures LogInv(first, log + events)
  {
    if |events| == 0 {
      assert log + events == log;
    } else if |events| == 1 {
      LogInvAppend(first, log, events[0]);
      assert events == [events[0]];
    } else {
      LogInvAppend(first, log, events[0]);
      ReplyMayFollow(first, log, events[0], events[1]);
      LogInvAppend(first, log + [events[0]], events[1]);
      assert log + [events[0]] + [events[1]] == log + events;
    }
  }

  lemma ReplyMayFollow(first: Status, log: Log, e: Event, reply: Event)
    requires !e.Searched? && (reply.Named? || reply.Replaced?)
    ensures MayFollow(first, log + [e], reply)
  {
  }

  lemma ReadStepKeeps(op: Operator, identity: string, a: Assumptions, first: Status, s: State, err: Option<E.Error>)
    requires HistoryInv(op, identity, a, first, s) && s.pass.Running? && CanMeet(op, s, ReadFate(err))
    ensures HistoryInv(op, identity, a, first, ReadStep(op, s, err))
  {
    var p := s.pass;
    var got: Result<Json, E.Error> := if err.Some? then Err(err.value) else Ok(s.remote.live[p.copy.status.id].body);
    var events := if got.Ok? then Agreement(op, p, got.value) else [];
    ReadKeeps(op, identity, a, first, s.kube.value, s.log, p, got);
    KubeInvGrows(op, identity, a, first, s.kube, s.log, events);
    if events != [] {
      LogInvAppend(first, s.log, events[0]);
      assert s.log + events == s.log + [events[0]];
    } else {
      assert s.log + events == s.log;
    }
  }

  lemma PutStepKeeps(op: Operator, identity: string, a: Assumptions, first: Status, s: State, err: Option<E.Error>,
                     after: Option<Entry>)
    requires HistoryInv(op, identity, a, first, s) && s.pass.Running? && CanMeet(op, s, PutFate(err, after))
    ensures HistoryInv(op, identity, a, first, PutStep(op, s, err, after))
  {
    var p := s.pass;
    var events := PutEvents(p, err);
    PutKeeps(op, identity, a, first, s.kube.value, s.log, p, err, events);
    KubeInvGrows(op, identity, a, first, s.kube, s.log, events);
    PutLog(first, s.log, p, err);
  }

  lemma PutLog(first: Status, log: Log, p: Pass, err: Option<E.Error>)
    requires LogInv(first, log) && p.Running? && MayTouch(first, log, p.copy.status.id) && !AfterInconclusive(log)
    ensures LogInv(first, log + PutEvents(p, err))
  {
    RequestLog(first, log, PutEvents(p, err));
  }

  lemma DeleteLog(first: Status, log: Log, id: string)
    requires LogInv(first, log) && MayTouch(first, log, id) && !AfterInconclusive(log)
    ensures LogInv(first, log + [DeleteSent(id)])
  {
    LogInvAppend(first, log, DeleteSent(id));
  }

  lemma DeletePassKeeps(op: Operator, identity: string, a: Assumptions, first: Status, r: Resource, log: Log, p: Pass,
                        err: Option<E.Error>)
    requires HistoryPassInv(op, identity, a, first, Some(r), log, p) && p.Running? && p.pc.FinalDelete?
    ensures HistoryPassInv(op, identity, a, first, Some(r), log + [DeleteSent(p.pc.id)], AfterFinalDelete(op, p, err))
  {
    GrowthKeeps(log, [DeleteSent(p.pc.id)]);
  }

  lemma DeleteKeeps(op: Operator, identity: string, a: Assumptions, first: Status, s: State, err: Option<E.Error>,
                    applied: bool)
    requires HistoryInv(op, identity, a, first, s) && s.pass.Running? && CanMeet(op, s, DeleteFate(err, applied))
    ensures HistoryInv(op, identity, a, first, DeleteStep(op, s, err, applied))
  {
    var id := s.pass.pc.id;
    DeletePassKeeps(op, identity, a, first, s.kube.value, s.log, s.pass, err);
    KubeInvGrows(op, identity, a, first, s.kube, s.log, [DeleteSent(id)]);
    DeleteLog(first, s.log, id);
  }

  lemma EffectKeeps(op: Operator, identity: string, a: Assumptions, first: Status, s: State, fate: Fate)
    requires HistoryInv(op, identity, a, first, s) && s.pass.Running? && CanMeet(op, s, fate) &&
             FateAssumed(op, a, s, fate)
    ensures HistoryInv(op, identity, a, first, EffectStep(op, s, fate))
  {
    match fate
    case WriteFate(write) => WriteKeeps(op, identity, a, first, s, write);
    case ResolveFate(err) => ResolveStepKeeps(op, identity, a, first, s, err);
    case ListFate(found) => ListKeeps(op, identity, a, first, s, found);
    case PostFate(wire, landing) => PostStepKeeps(op, identity, a, first, s, wire, landing);
    case ReadFate(err) => ReadStepKeeps(op, identity, a, first, s, err);
    case PutFate(err, after) => PutStepKeeps(op, identity, a, first, s, err, after);
    case DeleteFate(err, applied) => DeleteKeeps(op, identity, a, first, s, err, applied);
  }

  lemma EnvironmentKeeps(op: Operator, identity: string, a: Assumptions, first: Status, s: State, l: Label)
    requires HistoryInv(op, identity, a, first, s) && Possible(op, s, l) && Assumed(op, identity, a, s, l)
    requires !l.BeginPass? && !l.Effect?
    ensures HistoryInv(op, identity, a, first, EnvironmentStep(s, l))
  {
    var s' := EnvironmentStep(s, l);
    assert s'.log == s.log;
    assert HistoryKubeInv(op, identity, a, first, s'.kube, s.log);
  }

  lemma BeginStepKeeps(op: Operator, identity: string, a: Assumptions, first: Status, s: State)
    requires HistoryInv(op, identity, a, first, s) && s.kube.Some?
    ensures HistoryInv(op, identity, a, first, s.(pass := Begin(op, s.kube.value)))
  {
    BeginKeeps(op, identity, a, first, s.kube.value, s.log);
  }

  lemma StepKeeps(op: Operator, identity: string, a: Assumptions, first: Status, s: State, l: Label)
    requires HistoryInv(op, identity, a, first, s) && Possible(op, s, l) && Assumed(op, identity, a, s, l)
    ensures HistoryInv(op, identity, a, first, Step(op, s, l))
  {
    match l
    case BeginPass => BeginStepKeeps(op, identity, a, first, s);
    case Effect(fate) => EffectKeeps(op, identity, a, first, s, fate);
    case _ => EnvironmentKeeps(op, identity, a, first, s, l);
  }

  lemma {:induction false} RunKeeps(op: Operator, identity: string, a: Assumptions, s: State, labels: seq<Label>)
    requires Start(op, identity, a, s) && Run(op, identity, a, s, labels)
    ensures HistoryInv(op, identity, a, s.kube.value.status, Exec(op, s, labels))
  {
    if labels != [] {
      var last := |labels| - 1;
      RunKeeps(op, identity, a, s, labels[..last]);
      StepKeeps(op, identity, a, s.kube.value.status, Exec(op, s, labels[..last]), labels[last]);
    }
  }

  /******* What it means for every run *******/

  /** What a reply leaves in the log. */
  function NewEvents(op: Operator, s: State, fate: Fate): Log
    requires s.pass.Running? && CanMeet(op, s, fate)
  {
    match fate
    case PostFate(wire, _) => PostEvents(s.pass, T.Create(RenderError(s.pass.copy.spec), wire))
    case PutFate(err, _) => PutEvents(s.pass, err)
    case ReadFate(err) => if err.Some? then [] else Agreement(op, s.pass, s.remote.live[s.pass.copy.status.id].body)
    case DeleteFate(_, _) => [DeleteSent(s.pass.pc.id)]
    case ListFate(found) =>
      if found.Ok? then [Searched(PurposeOf(s.pass.pc), Identity(op, s.pass.copy.spec).value, found.value,
                                  s.pass.copy.pin)] else []
    case _ => []
  }

  lemma NewEventsAreNew(op: Operator, s: State, fate: Fate)
    requires s.pass.Running? && CanMeet(op, s, fate)
    ensures EffectStep(op, s, fate).log == s.log + NewEvents(op, s, fate)
  {
    assert s.log + [] == s.log;
  }

  predicate AllNamed(log: Log, identity: string) {
    forall i | 0 <= i < |log| :: log[i].Searched? ==> log[i].identity == identity
  }

  lemma AllNamedAppends(log: Log, more: Log, identity: string)
    requires AllNamed(log, identity) && AllNamed(more, identity)
    ensures AllNamed(log + more, identity)
  {
  }

  lemma EffectsAreNamed(op: Operator, identity: string, a: Assumptions, first: Status, s: State, fate: Fate)
    requires HistoryInv(op, identity, a, first, s) && a.fixedIdentity && s.pass.Running? && CanMeet(op, s, fate)
    ensures AllNamed(NewEvents(op, s, fate), identity)
  {
  }

  lemma StepIsNamed(op: Operator, identity: string, a: Assumptions, first: Status, s: State, l: Label)
    requires HistoryInv(op, identity, a, first, s) && a.fixedIdentity && Possible(op, s, l) && AllNamed(s.log, identity)
    ensures AllNamed(Step(op, s, l).log, identity)
  {
    if l.Effect? {
      EffectsAreNamed(op, identity, a, first, s, l.fate);
      NewEventsAreNew(op, s, l.fate);
      AllNamedAppends(s.log, NewEvents(op, s, l.fate), identity);
    }
  }

  /** While the user keeps the identity, every lookup is for it. */
  lemma {:induction false} LookupsAreForTheIdentity(op: Operator, identity: string, a: Assumptions, s: State,
                                                    labels: seq<Label>)
    requires Start(op, identity, a, s) && Run(op, identity, a, s, labels) && a.fixedIdentity
    ensures AllNamed(Exec(op, s, labels).log, identity)
  {
    if labels != [] {
      var last := |labels| - 1;
      LookupsAreForTheIdentity(op, identity, a, s, labels[..last]);
      RunKeeps(op, identity, a, s, labels[..last]);
      StepIsNamed(op, identity, a, s.kube.value.status, Exec(op, s, labels[..last]), labels[last]);
    }
  }

  /** What grants the id is a create, or a lookup for this identity if that is kept. */
  ghost predicate GrantedFor(a: Assumptions, identity: string, log: Log, id: string) {
    exists i | 0 <= i < |log| ::
      Grants(log[i], id) && (a.fixedIdentity && log[i].Searched? ==> log[i].identity == identity)
  }

  /**
   Every PUT and every DELETE names an id that an earlier create reply named, that an earlier lookup for
   this identity settled on, or that the resource had recorded before the run.
   */
  lemma WritesAreTargeted(op: Operator, identity: string, a: Assumptions, s: State, labels: seq<Label>, i: nat)
    requires Start(op, identity, a, s) && Run(op, identity, a, s, labels)
    requires i < |Exec(op, s, labels).log|
    ensures var log := Exec(op, s, labels).log;
            log[i].PutSent? || log[i].DeleteSent? ==>
              GrantedFor(a, identity, log[..i], log[i].id) || (log[i].id != "" && log[i].id == s.kube.value.status.id)
  {
    RunKeeps(op, identity, a, s, labels);
    var log, first := Exec(op, s, labels).log, s.kube.value.status;
    if (log[i].PutSent? || log[i].DeleteSent?) && (log[i].id == "" || log[i].id != first.id) {
      assert MayFollow(first, log[..i], log[i]);
      var j :| 0 <= j < |log[..i]| && Grants(log[..i][j], log[i].id);
      if a.fixedIdentity {
        LookupsAreForTheIdentity(op, identity, a, s, labels);
        assert log[..i][j] == log[j];
      }
    }
  }

  /** Every POST directly follows a lookup that, with no pin set, found nothing. */
  lemma CreatesFollowAnEmptyLookup(op: Operator, identity: string, a: Assumptions, s: State, labels: seq<Label>, i: nat)
    requires Start(op, identity, a, s) && Run(op, identity, a, s, labels)
    requires i < |Exec(op, s, labels).log| && Exec(op, s, labels).log[i].Posted?
    ensures i > 0 && FoundNothing(Exec(op, s, labels).log[i - 1])
  {
    RunKeeps(op, identity, a, s, labels);
  }

  lemma AfterInconclusiveAt(first: Status, log: Log, i: nat)
    requires LogInv(first, log) && i + 1 < |log| && Inconclusive(log[i])
    ensures log[i + 1].Searched?
  {
    assert MayFollow(first, log[..i + 1], log[i + 1]);
    assert log[..i + 1][|log[..i + 1]| - 1] == log[i];
  }

  /** A lookup that settles on nothing is followed by nothing but another lookup. */
  lemma InconclusiveLookupsWriteNothing(op: Operator, identity: string, a: Assumptions, s: State, labels: seq<Label>,
                                        i: nat)
    requires Start(op, identity, a, s) && Run(op, identity, a, s, labels)
    requires i + 1 < |Exec(op, s, labels).log| && Inconclusive(Exec(op, s, labels).log[i])
    ensures Exec(op, s, labels).log[i + 1].Searched?
  {
    RunKeeps(op, identity, a, s, labels);
    AfterInconclusiveAt(s.kube.value.status, Exec(op, s, labels).log, i);
  }

  /** A lookup whose pin is set, and not among what it found. */
  predicate MissesThePin(e: Event) {
    e.Searched? && e.pin != "" && e.pin !in e.ids
  }

  predicate IsWrite(e: Event) {
    e.Posted? || e.PutSent? || e.DeleteSent?
  }

  /**
   So a lookup that misses the pin leads to a write only after a conflict or for a reclaim, and with a
   single match.
   */
  lemma MissedPinsRarelyWrite(op: Operator, identity: string, a: Assumptions, s: State, labels: seq<Label>, i: nat)
    requires Start(op, identity, a, s) && Run(op, identity, a, s, labels)
    requires i + 1 < |Exec(op, s, labels).log|
    requires MissesThePin(Exec(op, s, labels).log[i]) && IsWrite(Exec(op, s, labels).log[i + 1])
    ensures !Exec(op, s, labels).log[i].purpose.ToAdopt? && |Exec(op, s, labels).log[i].ids| == 1
  {
    if Inconclusive(Exec(op, s, labels).log[i]) {
      InconclusiveLookupsWriteNothing(op, identity, a, s, labels, i);
    }
  }

  /** The pass after a lookup. */
  function AfterLookup(op: Operator, p: Pass, ids: seq<string>): Pass
    requires p.Running? && IsFind(p.pc)
  {
    if p.pc.FinalFind? then AfterFinalFind(op, p, Ok(ids)) else AfterFind(op, p, Ok(ids))
  }

  /** A pass that has an object to adopt or to delete. */
  function Target(p: Pass): Option<string> {
    if p.Running? && (p.pc.MarkAdopt? || p.pc.FinalDelete?) then Some(p.pc.id) else None
  }

  /** A pass goes for exactly the object its lookup settles on, and creates exactly when there is none to adopt. */
  lemma LookupsDecide(op: Operator, p: Pass, identity: string, ids: seq<string>)
    requires p.Running? && IsFind(p.pc)
    ensures var e := Searched(PurposeOf(p.pc), identity, ids, p.copy.pin);
            var next := AfterLookup(op, p, ids);
            && Target(next) == Chosen(e)
            && (next.Running? && next.pc.MarkCreate? <==> FoundNothing(e))
            && (MissesThePin(e) ==> (Target(next).Some? <==> !e.purpose.ToAdopt? && |ids| == 1))
  {
  }

  lemma InvAtRead(op: Operator, identity: string, a: Assumptions, first: Status, s: State)
    requires HistoryInv(op, identity, a, first, s) && Orderly(first)
    ensures s.pass.Running? && s.pass.pc.Read? && s.pass.before.id == "" ==> s.pass.copy.status.observedHash == ""
  {
  }

  /** A pass that adopts never compares against a hash recorded for another object, unless the start held one. */
  lemma AdoptionComparesNoHash(op: Operator, identity: string, a: Assumptions, s: State, labels: seq<Label>)
    requires Start(op, identity, a, s) && Orderly(s.kube.value.status) && Run(op, identity, a, s, labels)
    ensures var p := Exec(op, s, labels).pass;
            p.Running? && p.pc.Read? && p.before.id == "" ==> p.copy.status.observedHash == ""
  {
    RunKeeps(op, identity, a, s, labels);
    InvAtRead(op, identity, a, s.kube.value.status, Exec(op, s, labels));
  }
}
