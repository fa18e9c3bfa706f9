/**
 The write-ahead discipline of the reconciler: at every point of every run, crashes included, an
 object the operator created is named by the durable status or announced by the durable annotation,
 there is at most one, and none outlives the finalizer under reclaim policy Delete.
 */
module Safety {
  import opened Common
  import opened JsonTree
  import opened Protocol
  import E = Errors
  import T = Transport
  import C = Conditions
  import JsonCompare

  /** No object this resource created is live, and none can still appear. */
  ghost predicate NoneOurs(remote: Remote) {
    remote.inflight == [] && forall id | id in remote.live :: !remote.live[id].ours
  }

  /** The only such object, if any, is the one with this id. */
  ghost predicate OnlyOurs(remote: Remote, x: string) {
    remote.inflight == [] && forall id | id in remote.live && remote.live[id].ours :: id == x
  }

  ghost predicate AtMostOneOurs(remote: Remote) {
    forall x, y | x in remote.live && y in remote.live && remote.live[x].ours && remote.live[y].ours :: x == y
  }

  /** What write-ahead assumes, and with deletePolicy the absence of leaks. */
  predicate Trusted(a: Assumptions) {
    a.visible && a.honest404 && a.cleanRefusal && a.noPin && a.fixedIdentity && a.noRename
  }

  ghost predicate RemoteInv(identity: string, remote: Remote) {
    && remote.live.Keys <= remote.used && "" !in remote.used
    && AtMostOneOurs(remote)
    && (forall id | id in remote.live && remote.live[id].ours :: remote.live[id].name == identity)
    && |remote.inflight| <= 1
    && (remote.inflight != [] ==>
          && remote.inflight[0].ours && remote.inflight[0].name == identity
          && forall id | id in remote.live :: !remote.live[id].ours)
  }

  /** What a status, together with the durable annotation, has to account for. */
  ghost predicate Accounted(status: Status, attempt: bool, remote: Remote) {
    if status.id != "" then OnlyOurs(remote, status.id) else attempt || NoneOurs(remote)
  }

  ghost predicate OursKubeInv(op: Operator, identity: string, a: Assumptions, kube: Option<Resource>, remote: Remote) {
    match kube
    case None => a.deletePolicy ==> NoneOurs(remote)
    case Some(r) =>
      && SpecAssumed(op, identity, a, r.spec) && r.pin == ""
      && Accounted(r.status, r.attempt, remote)
      && (!r.finalizer && (a.deletePolicy || !r.deleting) ==> NoneOurs(remote))
  }

  /** What a pass relies on at each effect, stable under everything the environment may do. */
  ghost predicate OursAtInv(a: Assumptions, p: Pass, r: Resource, remote: Remote)
    requires p.Running?
  {
    match p.pc
    case AddFinalizer => r.version == p.copy.version ==> r == p.copy
    case FinalResolve => r.deleting && r.status == p.copy.status
    case FinalFind => r.deleting && r.status.id == ""
    case FinalDelete(id) => r.deleting && OnlyOurs(remote, id)
    case DropFinalizer => r.deleting && (a.deletePolicy ==> NoneOurs(remote))
    case SaveStatus(_) => Accounted(p.copy.status, r.attempt, remote)
    case Read => p.copy.status.id != "" && OnlyOurs(remote, p.copy.status.id) && (p.before.id == "" ==> r.attempt)
    case PutBody(_) => p.copy.status.id != "" && OnlyOurs(remote, p.copy.status.id) && (p.before.id == "" ==> r.attempt)
    case Resolve => p.copy.status == p.before
    case ClearAttempt => p.copy.status == p.before && p.before.id != ""
    case FindNew => p.copy.status == p.before && p.before.id == ""
    case MarkCreate => p.copy.status == p.before && p.before.id == "" && NoneOurs(remote)
    case Post => p.copy.status == p.before && p.before.id == "" && r.attempt && NoneOurs(remote)
    case ClearRejected(_) => p.copy.status == p.before && p.before.id == "" && NoneOurs(remote)
    case FindConflict => p.copy.status == p.before && p.before.id == "" && r.attempt
    case MarkAdopt(id) => p.copy.status == p.before && p.before.id == "" && id != "" && OnlyOurs(remote, id)
  }

  ghost predicate OursPassInv(op: Operator, identity: string, a: Assumptions, kube: Option<Resource>, remote: Remote,
                              pass: Pass) {
    match pass
    case Idle(_) => true
    case Running(copy, before, _, _, _, pc) =>
      && SpecAssumed(op, identity, a, copy.spec) && copy.pin == ""
      && (pc.AddFinalizer? ==> !copy.deleting && !copy.finalizer)
      && (kube.None? ==> pc.AddFinalizer?)
      && (kube.Some? ==>
            var r := kube.value;
            && copy.version <= r.version
            && (!pc.AddFinalizer? ==> r.finalizer)
            && (!pc.AddFinalizer? && !IsFinal(pc) ==> r.status == before)
            && OursAtInv(a, pass, r, remote))
  }

  ghost predicate OursInv(op: Operator, identity: string, a: Assumptions, s: State) {
    && RemoteInv(identity, s.remote)
    && OursKubeInv(op, identity, a, s.kube, s.remote)
    && OursPassInv(op, identity, a, s.kube, s.remote, s.pass)
  }

  /** The remote side changed without a new object of ours, present or announced. */
  ghost predicate NoNewOurs(remote: Remote, remote': Remote) {
    && (remote.inflight == [] ==> remote'.inflight == [])
    && (forall id | id in remote'.live && remote'.live[id].ours :: id in remote.live && remote.live[id].ours)
  }

  lemma ForeignStepKeepsInv(op: Operator, identity: string, a: Assumptions, s: State, remote': Remote)
    requires OursInv(op, identity, a, s) && RemoteInv(identity, remote') && NoNewOurs(s.remote, remote')
    ensures OursInv(op, identity, a, s.(remote := remote'))
  {
  }

  /** A user's edit touches neither finalizer, annotation nor status; deletion is not undone. */
  lemma UserStepKeepsInv(op: Operator, identity: string, a: Assumptions, s: State, r': Resource)
    requires OursInv(op, identity, a, s) && s.kube.Some?
    requires var r := s.kube.value;
             && r.version < r'.version && r'.finalizer == r.finalizer && r'.attempt == r.attempt &&
                r'.status == r.status
             && (r.deleting ==> r'.deleting) && r'.pin == "" && SpecAssumed(op, identity, a, r'.spec)
    ensures OursInv(op, identity, a, s.(kube := Collected(r')))
  {
  }

  lemma LandingKeepsInv(op: Operator, identity: string, a: Assumptions, s: State, n: nat, id: string)
    requires OursInv(op, identity, a, s) && Possible(op, s, PostLands(n, id))
    ensures OursInv(op, identity, a, EnvironmentStep(s, PostLands(n, id)))
  {
    assert s.remote.inflight == [s.remote.inflight[0]];
    assert Without(s.remote.inflight, n) == [];
  }

  lemma ForeignPutKeepsInv(op: Operator, identity: string, a: Assumptions, s: State, id: string, name: string,
                           body: Json)
    requires Trusted(a) && OursInv(op, identity, a, s)
    requires Possible(op, s, ForeignPut(id, name, body)) && Assumed(op, identity, a, s, ForeignPut(id, name, body))
    ensures OursInv(op, identity, a, EnvironmentStep(s, ForeignPut(id, name, body)))
  {
    ForeignStepKeepsInv(op, identity, a, s, EnvironmentStep(s, ForeignPut(id, name, body)).remote);
  }

  lemma UserKeepsInv(op: Operator, identity: string, a: Assumptions, s: State, l: Label)
    requires Trusted(a) && OursInv(op, identity, a, s)
    requires Possible(op, s, l) && Assumed(op, identity, a, s, l)
    requires l.EditSpec? || l.EditPin? || l.RequestDeletion? || l.Hold?
    ensures OursInv(op, identity, a, EnvironmentStep(s, l))
  {
    var r := s.kube.value;
    if l.EditSpec? {
      UserStepKeepsInv(op, identity, a, s, Changed(r.(spec := l.spec, generation := r.generation + 1)));
    } else if l.EditPin? {
      UserStepKeepsInv(op, identity, a, s, Changed(r.(pin := l.pin)));
    } else if l.RequestDeletion? {
      UserStepKeepsInv(op, identity, a, s, Changed(r.(deleting := true, generation := r.generation + 1)));
    } else {
      UserStepKeepsInv(op, identity, a, s, Changed(r.(held := l.held)));
    }
  }

  /** The environment cannot create an object of ours, other than by a lost POST that lands. */
  lemma EnvironmentKeepsInv(op: Operator, identity: string, a: Assumptions, s: State, l: Label)
    requires Trusted(a) && OursInv(op, identity, a, s)
    requires Possible(op, s, l) && Assumed(op, identity, a, s, l)
    requires !l.BeginPass? && !l.Effect?
    ensures OursInv(op, identity, a, EnvironmentStep(s, l))
  {
    if l.ForeignPut? {
      ForeignPutKeepsInv(op, identity, a, s, l.id, l.name, l.body);
    } else if l.ForeignDelete? {
      ForeignStepKeepsInv(op, identity, a, s, s.remote.(live := s.remote.live - {l.id}));
    } else if l.PostLands? {
      LandingKeepsInv(op, identity, a, s, l.n, l.id);
    } else if l.PostVanishes? {
      assert Without(s.remote.inflight, l.n) == [];
      ForeignStepKeepsInv(op, identity, a, s, s.remote.(inflight := Without(s.remote.inflight, l.n)));
    } else if !l.Crash? {
      UserKeepsInv(op, identity, a, s, l);
    }
  }

  /******* The operator's own steps *******/

  /** What a pass in reconcile proper has in common at all its effects. */
  ghost predicate OursMidPass(op: Operator, identity: string, a: Assumptions, r: Resource, p: Pass) {
    && p.Running? && SpecAssumed(op, identity, a, p.copy.spec) && p.copy.pin == ""
    && p.copy.version <= r.version && r.finalizer && r.status == p.before
  }

  /** A status may be written when it accounts for what exists. */
  lemma FinishKeepsPassInv(op: Operator, identity: string, a: Assumptions, r: Resource, remote: Remote, p: Pass,
                           status: Status, end: Ended)
    requires OursMidPass(op, identity, a, r, p) && Accounted(status, r.attempt, remote)
    ensures OursPassInv(op, identity, a, Some(r), remote, Finish(p, status, end))
  {
  }

  lemma AdapterErrorKeepsPassInv(op: Operator, identity: string, a: Assumptions, r: Resource, remote: Remote, p: Pass,
                                 err: E.Error)
    requires OursMidPass(op, identity, a, r, p) && Accounted(p.copy.status, r.attempt, remote)
    ensures OursPassInv(op, identity, a, Some(r), remote, AdapterError(op, p, err))
  {
    var (outcome, cause) := C.VerdictOn(err);
    FinishKeepsPassInv(op, identity, a, r, remote, p,
                       Say(p.copy.status, p.copy.generation, outcome, cause, C.Quoting(err)),
                       if outcome.Recoverable? then Ended(RetryInterval(op, p.copy.spec), false) else DONE);
  }

  lemma ReconcileKeepsPassInv(op: Operator, identity: string, a: Assumptions, r: Resource, remote: Remote)
    requires OursKubeInv(op, identity, a, Some(r), remote) && r.finalizer
    ensures OursPassInv(op, identity, a, Some(r), remote, Reconcile(op, r))
  {
    var p := Running(r, r.status, "", "", r.generation, Resolve);
    if r.spec.suspend {
      FinishKeepsPassInv(op, identity, a, r, remote, p,
                         Say(r.status, r.generation, C.Suspended, C.SuspendedCause, C.Fixed), DONE);
    } else if Identity(op, r.spec).Err? {
      FinishKeepsPassInv(op, identity, a, r, remote, p,
                         Say(r.status, r.generation, C.Terminal, C.InvalidSpec,
                             C.NoIdentity(Identity(op, r.spec).error)), DONE);
    } else if Hash(op, r.spec).Err? {
      FinishKeepsPassInv(op, identity, a, r, remote, p,
                         Say(r.status, r.generation, C.Terminal, C.InvalidSpec, C.NoHash(Hash(op, r.spec).error)),
                             DONE);
    }
  }

  lemma BeginKeepsInv(op: Operator, identity: string, a: Assumptions, r: Resource, remote: Remote)
    requires OursKubeInv(op, identity, a, Some(r), remote)
    ensures OursPassInv(op, identity, a, Some(r), remote, Begin(op, r))
  {
    if !r.deleting && r.finalizer {
      ReconcileKeepsPassInv(op, identity, a, r, remote);
    }
  }

  lemma ResolveKeepsPassInv(op: Operator, identity: string, a: Assumptions, r: Resource, remote: Remote, p: Pass,
                            err: Option<E.Error>)
    requires OursKubeInv(op, identity, a, Some(r), remote) && OursPassInv(op, identity, a, Some(r), remote, p)
    requires p.Running? && p.pc.Resolve?
    ensures OursPassInv(op, identity, a, Some(r), remote, AfterResolve(op, p, err))
  {
    if err.Some? {
      FinishKeepsPassInv(op, identity, a, r, remote, p,
                         Say(p.copy.status, p.copy.generation, C.Recoverable, C.ProviderConfigNotReady,
                             C.Quoting(err.value)),
                         Ended(RetryInterval(op, p.copy.spec), false));
    }
  }

  /** The durable side of a write that is applied. */
  lemma WriteKeepsKubeInv(op: Operator, identity: string, a: Assumptions, r: Resource, remote: Remote, p: Pass)
    requires OursKubeInv(op, identity, a, Some(r), remote) && OursPassInv(op, identity, a, Some(r), remote, p)
    requires p.Running? && (IsPatch(p.pc) || (IsUpdate(p.pc) && r.version == p.copy.version))
    ensures OursKubeInv(op, identity, a, Collected(Stored(p, r)), remote)
    ensures !p.pc.DropFinalizer? ==> Collected(Stored(p, r)) == Some(Stored(p, r))
  {
  }

  /** The four annotation patches, seen from the pass. */
  lemma PatchKeepsPassInv(op: Operator, identity: string, a: Assumptions, r: Resource, remote: Remote, p: Pass)
    requires OursKubeInv(op, identity, a, Some(r), remote) && OursPassInv(op, identity, a, Some(r), remote, p)
    requires p.Running? && IsPatch(p.pc)
    ensures OursPassInv(op, identity, a, Some(Stored(p, r)), remote, AfterPatch(op, p, Some(Stored(p, r))))
    ensures AfterPatch(op, p, None).Idle?
  {
    var r' := Stored(p, r);
    WriteKeepsKubeInv(op, identity, a, r, remote, p);
    if p.pc.ClearRejected? {
      AdapterErrorKeepsPassInv(op, identity, a, r', remote, p.(copy := r'), p.pc.err);
    }
  }

  /** What a complete lookup says about objects of ours. */
  lemma LookupFindsOurs(identity: string, remote: Remote, ids: seq<string>)
    requires RemoteInv(identity, remote) && remote.inflight == [] && ListsAll(remote, identity, ids)
    ensures |ids| == 0 ==> NoneOurs(remote)
    ensures |ids| == 1 ==> OnlyOurs(remote, ids[0]) && ids[0] != ""
  {
    assert forall id | id in remote.live && remote.live[id].ours :: id in ids;
  }

  lemma FindKeepsPassInv(op: Operator, identity: string, a: Assumptions, r: Resource, remote: Remote, p: Pass,
                         ids: seq<string>)
    requires OursPassInv(op, identity, a, Some(r), remote, p) && p.Running? && (p.pc.FindNew? || p.pc.FindConflict?)
    requires OursKubeInv(op, identity, a, Some(r), remote)
    requires RemoteInv(identity, remote) && remote.inflight == [] && ListsAll(remote, identity, ids)
    ensures OursPassInv(op, identity, a, Some(r), remote, AfterFind(op, p, Ok(ids)))
  {
    LookupFindsOurs(identity, remote, ids);
    if |ids| > 1 {
      FinishKeepsPassInv(op, identity, a, r, remote, p,
                         Say(p.copy.status, p.copy.generation, C.Terminal, C.AmbiguousCause,
                             C.Ambiguous(p.identity, ids)), DONE);
    } else if |ids| == 0 && p.pc.FindConflict? {
      FinishKeepsPassInv(op, identity, a, r, remote, p,
                         Say(p.copy.status, p.copy.generation, C.Recoverable, C.BackendError, C.Conflict(p.identity)),
                         Ended(RetryInterval(op, p.copy.spec), false));
    }
  }

  /** SigNoz after a POST made while nothing of ours existed. */
  lemma PostKeepsRemoteInv(op: Operator, identity: string, remote: Remote, body: Json, landing: Landing)
    requires RemoteInv(identity, remote) && NoneOurs(remote) && op.identityOf(body) == identity
    requires landing.Lands? ==> FreshId(remote, landing.id)
    ensures RemoteInv(identity, AfterPost(op, remote, body, landing))
    ensures landing.Lands? ==> OnlyOurs(AfterPost(op, remote, body, landing), landing.id)
  {
  }

  /** Whatever became of the POST, the durable annotation announces it, unless nothing was created. */
  lemma PostKeepsPassInv(op: Operator, identity: string, a: Assumptions, r: Resource, remote: Remote, p: Pass,
                         wire: T.Wire)
    requires OursMidPass(op, identity, a, r, p) && p.pc.Post? && p.copy.status == p.before && p.before.id == "" &&
             r.attempt
    requires p.copy.spec.body.Ok?
    requires var created := T.Create(None, wire);
             && (created.Ok? ==> OnlyOurs(remote, created.value))
             && (T.ClearsAttempt(created) ==> NoneOurs(remote))
    ensures OursPassInv(op, identity, a, Some(r), remote, OnCreated(op, p, T.Create(None, wire)))
  {
    match T.Create(None, wire)
    case Ok(id) =>
      T.CreatedIffReadableSuccess(None, wire, id);
      FinishKeepsPassInv(op, identity, a, r, remote, p,
                         Say(p.copy.status.(id := id, observedHash := p.hash), p.generation, C.Synced, C.Created,
                             C.Fixed),
                         Ended(Interval(op, p.copy.spec), false));
    case Err(err) => AdapterErrorKeepsPassInv(op, identity, a, r, remote, p, err);
  }

  lemma ComparedKeepsPassInv(op: Operator, identity: string, a: Assumptions, r: Resource, remote: Remote, p: Pass,
                             body: Json, compared: JsonCompare.CompareResult)
    requires OursPassInv(op, identity, a, Some(r), remote, p) && p.Running? && p.pc.Read?
    ensures OursPassInv(op, identity, a, Some(r), remote, OnCompared(op, p, body, compared))
  {
    UpdatedKeepsPassInv(op, identity, a, r, remote, p);
    if compared.immutable != [] {
      FinishKeepsPassInv(op, identity, a, r, remote, p,
                         Say(p.copy.status, p.copy.generation, C.Terminal, C.ImmutableFieldChanged,
                             C.ImmutableChanged(compared.immutable, op.immutable)), DONE);
    } else if compared.updatable == [] {
      FinishKeepsPassInv(op, identity, a, r, remote, p,
                         Say(p.copy.status.(observedHash := p.hash), p.copy.generation, C.Synced, C.SyncedCause,
                             C.Fixed),
                         Ended(Interval(op, p.copy.spec), false));
    }
  }

  lemma UpdatedKeepsPassInv(op: Operator, identity: string, a: Assumptions, r: Resource, remote: Remote, p: Pass)
    requires OursPassInv(op, identity, a, Some(r), remote, p) && p.Running? && (p.pc.Read? || p.pc.PutBody?)
    ensures OursPassInv(op, identity, a, Some(r), remote, OnUpdated(op, p))
  {
    FinishKeepsPassInv(op, identity, a, r, remote, p,
                       Say(p.copy.status.(observedHash := p.hash), p.copy.generation, C.Synced, C.Updated, C.Fixed),
                       Ended(Interval(op, p.copy.spec), false));
  }

  lemma ReadKeepsPassInv(op: Operator, identity: string, a: Assumptions, r: Resource, remote: Remote, p: Pass,
                         got: Result<Json, E.Error>)
    requires OursPassInv(op, identity, a, Some(r), remote, p) && p.Running? && p.pc.Read?
    requires got.Err? && E.ReasonForError(got.error).NotFound? ==> p.copy.status.id !in remote.live
    ensures OursPassInv(op, identity, a, Some(r), remote, OnRead(op, p, got))
  {
    if got.Ok? {
      if p.copy.spec.body.Ok? {
        var body := p.copy.spec.body.value;
        ComparedKeepsPassInv(op, identity, a, r, remote, p, body,
                             JsonCompare.Compare(op.align, body, got.value, op.updatable, op.immutable));
      } else {
        FinishKeepsPassInv(op, identity, a, r, remote, p,
                           Say(p.copy.status, p.copy.generation, C.Terminal, C.CompareFailed,
                               C.Quoting(p.copy.spec.body.error)), DONE);
      }
    } else if E.ReasonForError(got.error).NotFound? {
      FinishKeepsPassInv(op, identity, a, r, remote, p,
                         Say(p.copy.status.(id := "", observedHash := ""), p.copy.generation, C.Pending, C.PendingCause,
                             C.Fixed),
                         Ended(ON_NOT_FOUND, false));
    } else {
      AdapterErrorKeepsPassInv(op, identity, a, r, remote, p, got.error);
    }
  }

  /******* One effect *******/

  ghost predicate OursMeets(op: Operator, identity: string, a: Assumptions, s: State, fate: Fate) {
    Trusted(a) && OursInv(op, identity, a, s) && s.pass.Running? && CanMeet(op, s, fate) && FateAssumed(op, a, s, fate)
  }

  lemma WriteEffectKeepsInv(op: Operator, identity: string, a: Assumptions, s: State, write: Write)
    requires OursMeets(op, identity, a, s, WriteFate(write))
    ensures OursInv(op, identity, a, WriteStep(op, s, write))
  {
    var p := s.pass;
    if !write.Rejected? {
      var r := s.kube.value;
      WriteKeepsKubeInv(op, identity, a, r, s.remote, p);
      if p.pc.AddFinalizer? {
        ReconcileKeepsPassInv(op, identity, a, Stored(p, r), s.remote);
      } else if IsPatch(p.pc) {
        PatchKeepsPassInv(op, identity, a, r, s.remote, p);
      }
    }
  }

  lemma ListEffectKeepsInv(op: Operator, identity: string, a: Assumptions, s: State,
                           found: Result<seq<string>, E.Error>)
    requires OursMeets(op, identity, a, s, ListFate(found))
    ensures OursInv(op, identity, a, ListStep(op, s, found))
  {
    var p := s.pass;
    assert found.Ok? ==> Identity(op, p.copy.spec) == Ok(identity);
    if p.pc.FinalFind? {
      if found.Ok? { LookupFindsOurs(identity, s.remote, found.value); }
    } else if found.Ok? {
      FindKeepsPassInv(op, identity, a, s.kube.value, s.remote, p, found.value);
    } else {
      AdapterErrorKeepsPassInv(op, identity, a, s.kube.value, s.remote, p, found.error);
    }
  }

  lemma PostEffectKeepsInv(op: Operator, identity: string, a: Assumptions, s: State, wire: T.Wire, landing: Landing)
    requires OursMeets(op, identity, a, s, PostFate(wire, landing))
    ensures OursInv(op, identity, a, PostStep(op, s, wire, landing))
  {
    var p, r := s.pass, s.kube.value;
    var body := p.copy.spec.body.value;
    PostKeepsRemoteInv(op, identity, s.remote, body, landing);
    T.AttemptClearedIffSurelyNothingCreated(None, wire);
    PostKeepsPassInv(op, identity, a, r, AfterPost(op, s.remote, body, landing), p, wire);
  }

  lemma ReadEffectKeepsInv(op: Operator, identity: string, a: Assumptions, s: State, err: Option<E.Error>)
    requires OursMeets(op, identity, a, s, ReadFate(err))
    ensures OursInv(op, identity, a, ReadStep(op, s, err))
  {
    var p := s.pass;
    ReadKeepsPassInv(op, identity, a, s.kube.value, s.remote, p,
                     if err.Some? then Err(err.value) else Ok(s.remote.live[p.copy.status.id].body));
  }

  lemma PutEffectKeepsInv(op: Operator, identity: string, a: Assumptions, s: State, err: Option<E.Error>,
                          after: Option<Entry>)
    requires OursMeets(op, identity, a, s, PutFate(err, after))
    ensures OursInv(op, identity, a, PutStep(op, s, err, after))
  {
    var p := s.pass;
    if after.Some? {
      ForeignStepKeepsInv(op, identity, a, s, Store(s.remote, p.copy.status.id, after.value));
    }
    var remote := if after.Some? then Store(s.remote, p.copy.status.id, after.value) else s.remote;
    UpdatedKeepsPassInv(op, identity, a, s.kube.value, remote, p);
    if err.Some? {
      AdapterErrorKeepsPassInv(op, identity, a, s.kube.value, remote, p, err.value);
    }
  }

  lemma DeleteEffectKeepsInv(op: Operator, identity: string, a: Assumptions, s: State, err: Option<E.Error>,
                             applied: bool)
    requires OursMeets(op, identity, a, s, DeleteFate(err, applied))
    ensures OursInv(op, identity, a, DeleteStep(op, s, err, applied))
  {
    var remote := if applied then s.remote.(live := s.remote.live - {s.pass.pc.id}) else s.remote;
    ForeignStepKeepsInv(op, identity, a, s, remote);
  }

  lemma ResolveEffectKeepsInv(op: Operator, identity: string, a: Assumptions, s: State, err: Option<E.Error>)
    requires OursMeets(op, identity, a, s, ResolveFate(err))
    ensures OursInv(op, identity, a, ResolveStep(op, s, err))
  {
    if s.pass.pc.Resolve? {
      ResolveKeepsPassInv(op, identity, a, s.kube.value, s.remote, s.pass, err);
    }
  }

  lemma EffectKeepsInv(op: Operator, identity: string, a: Assumptions, s: State, fate: Fate)
    requires OursMeets(op, identity, a, s, fate)
    ensures OursInv(op, identity, a, EffectStep(op, s, fate))
  {
    match fate
    case WriteFate(write) => WriteEffectKeepsInv(op, identity, a, s, write);
    case ResolveFate(err) => ResolveEffectKeepsInv(op, identity, a, s, err);
    case ListFate(found) => ListEffectKeepsInv(op, identity, a, s, found);
    case PostFate(wire, landing) => PostEffectKeepsInv(op, identity, a, s, wire, landing);
    case ReadFate(err) => ReadEffectKeepsInv(op, identity, a, s, err);
    case PutFate(err, after) => PutEffectKeepsInv(op, identity, a, s, err, after);
    case DeleteFate(err, applied) => DeleteEffectKeepsInv(op, identity, a, s, err, applied);
  }

  lemma BeginStepKeepsInv(op: Operator, identity: string, a: Assumptions, s: State)
    requires OursInv(op, identity, a, s) && s.kube.Some?
    ensures OursInv(op, identity, a, s.(pass := Begin(op, s.kube.value)))
  {
    BeginKeepsInv(op, identity, a, s.kube.value, s.remote);
  }

  lemma StepKeepsInv(op: Operator, identity: string, a: Assumptions, s: State, l: Label)
    requires Trusted(a) && OursInv(op, identity, a, s)
    requires Possible(op, s, l) && Assumed(op, identity, a, s, l)
    ensures OursInv(op, identity, a, Step(op, s, l))
  {
    match l
    case BeginPass => BeginStepKeepsInv(op, identity, a, s);
    case Effect(fate) => EffectKeepsInv(op, identity, a, s, fate);
    case _ => EnvironmentKeepsInv(op, identity, a, s, l);
  }

  lemma {:induction false} RunKeepsInv(op: Operator, identity: string, a: Assumptions, s: State, labels: seq<Label>)
    requires Trusted(a) && Start(op, identity, a, s) && Run(op, identity, a, s, labels)
    ensures OursInv(op, identity, a, Exec(op, s, labels))
  {
    if labels != [] {
      var last := |labels| - 1;
      RunKeepsInv(op, identity, a, s, labels[..last]);
      StepKeepsInv(op, identity, a, Exec(op, s, labels[..last]), labels[last]);
    }
  }

  /******* At most one *******/

  /** All that at-most-one assumes: pins, false not-founds and unclean refusals do not matter to it. */
  predicate KeepsOne(a: Assumptions) {
    a.visible && a.fixedIdentity && a.noRename
  }

  /** A pass that is going to POST has found that nothing of ours exists. */
  ghost predicate OneInv(op: Operator, identity: string, a: Assumptions, s: State) {
    && RemoteInv(identity, s.remote)
    && (s.kube.Some? ==> SpecAssumed(op, identity, a, s.kube.value.spec))
    && (s.pass.Running? ==>
          && SpecAssumed(op, identity, a, s.pass.copy.spec)
          && (s.pass.pc.MarkCreate? || s.pass.pc.Post? ==> NoneOurs(s.remote)))
  }

  ghost predicate OneMeets(op: Operator, identity: string, a: Assumptions, s: State, fate: Fate) {
    && KeepsOne(a) && OneInv(op, identity, a, s) && s.pass.Running? && CanMeet(op, s, fate)
    && FateAssumed(op, a, s, fate)
  }

  /** The pass goes on with a spec it knows, and not to a POST. */
  predicate NotPosting(p: Pass, specs: set<Spec>) {
    p.Running? ==> p.copy.spec in specs && !p.pc.MarkCreate? && !p.pc.Post?
  }

  lemma BeginIsNotPosting(op: Operator, r: Resource)
    ensures NotPosting(Begin(op, r), {r.spec}) && NotPosting(Reconcile(op, r), {r.spec})
  {
  }

  lemma ReadIsNotPosting(op: Operator, p: Pass, got: Result<Json, E.Error>)
    requires p.Running? && p.pc.Read?
    ensures NotPosting(OnRead(op, p, got), {p.copy.spec})
  {
  }

  lemma FoundIsNotPosting(op: Operator, p: Pass, found: Result<seq<string>, E.Error>)
    requires p.Running? && (p.pc.FindNew? || p.pc.FindConflict?)
    requires p.pc.FindNew? && p.copy.pin == "" ==> found != Ok([])
    ensures NotPosting(AfterFind(op, p, found), {p.copy.spec})
  {
  }

  lemma OneWrite(op: Operator, identity: string, a: Assumptions, s: State, write: Write)
    requires OneMeets(op, identity, a, s, WriteFate(write))
    ensures OneInv(op, identity, a, WriteStep(op, s, write))
  {
    if write.Applied? && s.pass.pc.AddFinalizer? {
      BeginIsNotPosting(op, Stored(s.pass, s.kube.value));
    }
  }

  lemma OneList(op: Operator, identity: string, a: Assumptions, s: State, found: Result<seq<string>, E.Error>)
    requires OneMeets(op, identity, a, s, ListFate(found))
    ensures OneInv(op, identity, a, ListStep(op, s, found))
  {
    if found.Ok? {
      LookupFindsOurs(identity, s.remote, found.value);
    }
    if !s.pass.pc.FinalFind? && !(s.pass.pc.FindNew? && s.pass.copy.pin == "" && found == Ok([])) {
      FoundIsNotPosting(op, s.pass, found);
    }
  }

  lemma OnePost(op: Operator, identity: string, a: Assumptions, s: State, wire: T.Wire, landing: Landing)
    requires OneMeets(op, identity, a, s, PostFate(wire, landing))
    ensures OneInv(op, identity, a, PostStep(op, s, wire, landing))
  {
    PostKeepsRemoteInv(op, identity, s.remote, s.pass.copy.spec.body.value, landing);
  }

  lemma OnePut(op: Operator, identity: string, a: Assumptions, s: State, err: Option<E.Error>, after: Option<Entry>)
    requires OneMeets(op, identity, a, s, PutFate(err, after))
    ensures OneInv(op, identity, a, PutStep(op, s, err, after))
  {
  }

  lemma OneEffect(op: Operator, identity: string, a: Assumptions, s: State, fate: Fate)
    requires OneMeets(op, identity, a, s, fate)
    ensures OneInv(op, identity, a, EffectStep(op, s, fate))
  {
    match fate
    case WriteFate(write) => OneWrite(op, identity, a, s, write);
    case ResolveFate(err) =>
    case ListFate(found) => OneList(op, identity, a, s, found);
    case PostFate(wire, landing) => OnePost(op, identity, a, s, wire, landing);
    case ReadFate(err) =>
      ReadIsNotPosting(op, s.pass, if err.Some? then Err(err.value) else Ok(s.remote.live[s.pass.copy.status.id].body));
    case PutFate(err, after) => OnePut(op, identity, a, s, err, after);
    case DeleteFate(_, _) =>
  }

  lemma OneStep(op: Operator, identity: string, a: Assumptions, s: State, l: Label)
    requires KeepsOne(a) && OneInv(op, identity, a, s)
    requires Possible(op, s, l) && Assumed(op, identity, a, s, l)
    ensures OneInv(op, identity, a, Step(op, s, l))
  {
    match l
    case Effect(fate) => OneEffect(op, identity, a, s, fate);
    case BeginPass => BeginIsNotPosting(op, s.kube.value);
    case _ =>
  }

  lemma {:induction false} RunKeepsOne(op: Operator, identity: string, a: Assumptions, s: State, labels: seq<Label>)
    requires KeepsOne(a) && Start(op, identity, a, s) && Run(op, identity, a, s, labels)
    ensures OneInv(op, identity, a, Exec(op, s, labels))
  {
    if labels != [] {
      var last := |labels| - 1;
      RunKeepsOne(op, identity, a, s, labels[..last]);
      OneStep(op, identity, a, Exec(op, s, labels[..last]), labels[last]);
    }
  }

  lemma AtMostOneCreated(op: Operator, identity: string, a: Assumptions, s: State, labels: seq<Label>)
    requires KeepsOne(a) && Start(op, identity, a, s) && Run(op, identity, a, s, labels)
    ensures AtMostOneOurs(Exec(op, s, labels).remote)
  {
    RunKeepsOne(op, identity, a, s, labels);
  }

  /******* What it means for every run *******/

  /** Every live object of ours is named by the durable status, or announced by the durable annotation. */
  ghost predicate WrittenAhead(s: State) {
    s.kube.Some? ==>
      var r := s.kube.value;
      forall id | id in s.remote.live && s.remote.live[id].ours ::
        r.status.id == id || (r.status.id == "" && r.attempt)
  }

  lemma WriteAhead(op: Operator, identity: string, a: Assumptions, s: State, labels: seq<Label>)
    requires Trusted(a) && Start(op, identity, a, s) && Run(op, identity, a, s, labels)
    ensures WrittenAhead(Exec(op, s, labels))
  {
    RunKeepsInv(op, identity, a, s, labels);
  }

  /** Without the finalizer, or the resource, nothing of ours is there or can still land. */
  ghost predicate Reclaimed(s: State) {
    s.kube.None? || !s.kube.value.finalizer ==> NoneOurs(s.remote)
  }

  lemma NothingOutlivesTheFinalizer(op: Operator, identity: string, a: Assumptions, s: State, labels: seq<Label>)
    requires Trusted(a) && a.deletePolicy && Start(op, identity, a, s) && Run(op, identity, a, s, labels)
    ensures Reclaimed(Exec(op, s, labels))
  {
    RunKeepsInv(op, identity, a, s, labels);
  }
}
