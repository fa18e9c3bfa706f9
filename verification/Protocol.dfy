/**
 One mirrored resource as a state machine. The durable halves are the custom resource in Kubernetes
 and the objects in SigNoz; the operator's pass is volatile and advances one effect at a time, with
 anything the environment does in between. Continue is the code of
 internal/resources/reconcilers/common_reconciler.go cut at its effects.
 */
module Protocol {
  import opened Common
  import opened JsonTree
  import JsonDiff
  import JsonCompare
  import JsonUpdate
  import E = Errors
  import T = Transport
  import C = Conditions

  /******* Durable state *******/

  /** The body is what the template renders to. A duration that is not positive counts as unset. */
  datatype Spec = Spec(body: Result<Json, E.Error>, suspend: bool, orphan: bool, interval: int, retryInterval: int)

  /** An empty id is no recorded id. */
  datatype Status = Status(id: string, observedHash: string, observedGeneration: int, conditions: seq<C.Condition>)

  /**
   version is the resourceVersion, finalizer the operator's own, held any foreign finalizer, attempt
   the create-attempt annotation, pin the signoz-resource-id annotation ("" when absent).
   */
  datatype Resource = Resource(
    version: nat, generation: int, finalizer: bool, held: bool, attempt: bool, pin: string, deleting: bool,
    spec: Spec, status: Status)

  /** An object in SigNoz; ours marks the ones this resource's POSTs created. */
  datatype Entry = Entry(name: string, body: Json, ours: bool)

  /** used holds every id ever assigned; inflight the lost POSTs that may still take effect. */
  datatype Remote = Remote(live: map<string, Entry>, used: set<string>, inflight: seq<Entry>)

  /** What the operator knows of the kind and its own defaults. */
  datatype Operator = Operator(
    identityOf: Json -> string, hashOf: Json -> Result<string, E.Error>,
    updatable: seq<string>, immutable: seq<string>, align: JsonDiff.Aligner,
    defaultInterval: int, defaultRetryInterval: int)

  function Identity(op: Operator, spec: Spec): Result<string, E.Error> {
    match spec.body
    case Err(err) => Err(err)
    case Ok(body) => if op.identityOf(body) == "" then Err(E.Plain("no identity")) else Ok(op.identityOf(body))
  }

  function Hash(op: Operator, spec: Spec): Result<string, E.Error> {
    match spec.body
    case Err(err) => Err(err)
    case Ok(body) => op.hashOf(body)
  }

  function RenderError(spec: Spec): Option<E.Error> {
    match spec.body
    case Err(err) => Some(err)
    case Ok(_) => None
  }

  const ON_NOT_FOUND: int := 1_000_000_000

  function Interval(op: Operator, spec: Spec): int {
    if spec.interval > 0 then spec.interval else op.defaultInterval
  }

  function RetryInterval(op: Operator, spec: Spec): int {
    if spec.retryInterval > 0 then spec.retryInterval
    else if spec.interval > 0 then spec.interval
    else if op.defaultRetryInterval > 0 then op.defaultRetryInterval
    else op.defaultInterval
  }

  /******* The operator's pass *******/

  /** How a pass returned: an error makes controller-runtime retry, whatever the requeue says. */
  datatype Ended = Ended(requeueAfter: int, failed: bool)

  const FAILED := Ended(0, true)
  const DONE := Ended(0, false)

  /** The effect a pass is about to perform. */
  datatype PC =
    | AddFinalizer
    | Resolve
    | ClearAttempt
    | FindNew
    | MarkCreate
    | Post
    | ClearRejected(err: E.Error)
    | FindConflict
    | MarkAdopt(id: string)
    | Read
    | PutBody(sent: map<string, Json>)
    | SaveStatus(end: Ended)
    | FinalResolve
    | FinalFind
    | FinalDelete(id: string)
    | DropFinalizer

  /** Patches of the annotation are unconditional; every other write needs an unchanged resource. */
  predicate IsPatch(pc: PC) {
    pc.ClearAttempt? || pc.ClearRejected? || pc.MarkCreate? || pc.MarkAdopt?
  }

  predicate IsUpdate(pc: PC) {
    pc.AddFinalizer? || pc.DropFinalizer? || pc.SaveStatus?
  }

  predicate IsFind(pc: PC) {
    pc.FindNew? || pc.FindConflict? || pc.FinalFind?
  }

  /** The effects of finalizing. */
  predicate IsFinal(pc: PC) {
    pc.FinalResolve? || pc.FinalFind? || pc.FinalDelete? || pc.DropFinalizer?
  }

  /** copy is the resource in memory; before, identity, hash and generation were taken from it earlier in the pass. */
  datatype Pass =
    | Idle(end: Ended)
    | Running(copy: Resource, before: Status, identity: string, hash: string, generation: int, pc: PC)

  function Say(status: Status, generation: int, outcome: C.Outcome, cause: C.Cause, message: C.Message): Status {
    status.(observedGeneration := generation,
            conditions := C.Record(status.conditions, generation, outcome, cause, message))
  }

  /** Return from reconcile: only a changed status is written. */
  function Finish(p: Pass, status: Status, end: Ended): Pass
    requires p.Running?
  {
    if status == p.before then Idle(end) else p.(copy := p.copy.(status := status), pc := SaveStatus(end))
  }

  function Begin(op: Operator, r: Resource): Pass {
    if r.deleting then Finalize(r)
    else if !r.finalizer then Running(r, r.status, "", "", r.generation, AddFinalizer)
    else Reconcile(op, r)
  }

  function Reconcile(op: Operator, r: Resource): Pass {
    var p := Running(r, r.status, "", "", r.generation, Resolve);
    if r.spec.suspend then Finish(p, Say(r.status, r.generation, C.Suspended, C.SuspendedCause, C.Fixed), DONE)
    else
      match Identity(op, r.spec)
      case Err(err) => Finish(p, Say(r.status, r.generation, C.Terminal, C.InvalidSpec, C.NoIdentity(err)), DONE)
      case Ok(identity) =>
        match Hash(op, r.spec)
        case Err(err) => Finish(p, Say(r.status, r.generation, C.Terminal, C.InvalidSpec, C.NoHash(err)), DONE)
        case Ok(hash) => p.(identity := identity, hash := hash)
  }

  function AdapterError(op: Operator, p: Pass, err: E.Error): Pass
    requires p.Running?
  {
    var (outcome, cause) := C.VerdictOn(err);
    Finish(p, Say(p.copy.status, p.copy.generation, outcome, cause, C.Quoting(err)),
           if outcome.Recoverable? then Ended(RetryInterval(op, p.copy.spec), false) else DONE)
  }

  function OnNewObject(op: Operator, p: Pass, ids: seq<string>): Pass
    requires p.Running?
  {
    if p.copy.pin != "" then
      if p.copy.pin in ids then p.(pc := MarkAdopt(p.copy.pin))
      else
        Finish(p, Say(p.copy.status, p.copy.generation, C.Terminal, C.IdMismatch,
                      C.NoMatchForPin(p.copy.pin, p.identity, ids)), DONE)
    else if |ids| == 1 then p.(pc := MarkAdopt(ids[0]))
    else if |ids| == 0 then p.(pc := MarkCreate)
    else Finish(p, Say(p.copy.status, p.copy.generation, C.Terminal, C.AmbiguousCause, C.Ambiguous(p.identity, ids)),
                DONE)
  }

  function OnCreated(op: Operator, p: Pass, created: Result<string, E.Error>): Pass
    requires p.Running?
  {
    match created
    case Ok(id) =>
      Finish(p, Say(p.copy.status.(id := id, observedHash := p.hash), p.generation, C.Synced, C.Created, C.Fixed),
             Ended(Interval(op, p.copy.spec), false))
    case Err(err) =>
      if E.ReasonForError(err).AlreadyExists? then p.(pc := FindConflict)
      else if !E.IsRetryable(err) && p.copy.attempt then p.(pc := ClearRejected(err))
      else AdapterError(op, p, err)
  }

  function OnConflict(op: Operator, p: Pass, ids: seq<string>): Pass
    requires p.Running?
  {
    if |ids| == 1 then p.(pc := MarkAdopt(ids[0]))
    else if |ids| == 0 then
      Finish(p, Say(p.copy.status, p.copy.generation, C.Recoverable, C.BackendError, C.Conflict(p.identity)),
             Ended(RetryInterval(op, p.copy.spec), false))
    else Finish(p, Say(p.copy.status, p.copy.generation, C.Terminal, C.AmbiguousCause, C.Ambiguous(p.identity, ids)),
                DONE)
  }

  function OnRead(op: Operator, p: Pass, got: Result<Json, E.Error>): Pass
    requires p.Running?
  {
    match got
    case Err(err) =>
      if E.ReasonForError(err).NotFound? then
        Finish(p, Say(p.copy.status.(id := "", observedHash := ""), p.copy.generation, C.Pending, C.PendingCause,
                      C.Fixed),
               Ended(ON_NOT_FOUND, false))
      else AdapterError(op, p, err)
    case Ok(remote) =>
      match p.copy.spec.body
      case Err(err) => Finish(p, Say(p.copy.status, p.copy.generation, C.Terminal, C.CompareFailed, C.Quoting(err)),
                              DONE)
      case Ok(body) => OnCompared(op, p, body, JsonCompare.Compare(op.align, body, remote, op.updatable, op.immutable))
  }

  function OnCompared(op: Operator, p: Pass, body: Json, compared: JsonCompare.CompareResult): Pass
    requires p.Running?
  {
    if compared.immutable != [] then
      Finish(p, Say(p.copy.status, p.copy.generation, C.Terminal, C.ImmutableFieldChanged,
                    C.ImmutableChanged(compared.immutable, op.immutable)), DONE)
    else if compared.updatable == [] && (p.copy.status.observedHash == "" || p.copy.status.observedHash == p.hash) then
      Finish(p, Say(p.copy.status.(observedHash := p.hash), p.copy.generation, C.Synced, C.SyncedCause, C.Fixed),
             Ended(Interval(op, p.copy.spec), false))
    else
      var sent := JsonUpdate.Projection(body, op.updatable);
      if sent == map[] then OnUpdated(op, p) else p.(pc := PutBody(sent))
  }

  function OnUpdated(op: Operator, p: Pass): Pass
    requires p.Running?
  {
    Finish(p, Say(p.copy.status.(observedHash := p.hash), p.copy.generation, C.Synced, C.Updated, C.Fixed),
           Ended(Interval(op, p.copy.spec), false))
  }

  function Finalize(r: Resource): Pass {
    var p := Running(r, r.status, "", "", r.generation, FinalResolve);
    if !r.finalizer then Idle(DONE)
    else if r.spec.orphan then p.(pc := DropFinalizer)
    else if r.status.id == "" && !r.attempt then p.(pc := DropFinalizer)
    else p
  }

  function FinalRetry(op: Operator, p: Pass): Pass
    requires p.Running?
  {
    Idle(Ended(RetryInterval(op, p.copy.spec), false))
  }

  function AfterAddFinalizer(op: Operator, stored: Option<Resource>): Pass {
    if stored.None? then Idle(FAILED) else Reconcile(op, stored.value)
  }

  function AfterResolve(op: Operator, p: Pass, err: Option<E.Error>): Pass
    requires p.Running?
  {
    if err.Some? then
      Finish(p, Say(p.copy.status, p.copy.generation, C.Recoverable, C.ProviderConfigNotReady, C.Quoting(err.value)),
             Ended(RetryInterval(op, p.copy.spec), false))
    else if p.copy.status.id == "" then p.(pc := FindNew)
    else if p.copy.attempt then p.(pc := ClearAttempt)
    else p.(pc := Read)
  }

  /** After a patch of the annotation; the reply of a patch replaces the copy. */
  function AfterPatch(op: Operator, p: Pass, stored: Option<Resource>): Pass
    requires p.Running?
  {
    if stored.None? then Finish(p, p.copy.status, FAILED)
    else
      match p.pc
      case MarkCreate => p.(copy := stored.value, pc := Post)
      case MarkAdopt(id) => p.(copy := stored.value.(status := stored.value.status.(id := id)), pc := Read)
      case ClearRejected(err) => AdapterError(op, p.(copy := stored.value), err)
      case _ => p.(copy := stored.value, pc := Read)
  }

  function AfterFind(op: Operator, p: Pass, found: Result<seq<string>, E.Error>): Pass
    requires p.Running?
  {
    if found.Err? then AdapterError(op, p, found.error)
    else if p.pc.FindNew? then OnNewObject(op, p, found.value)
    else OnConflict(op, p, found.value)
  }

  function AfterPut(op: Operator, p: Pass, err: Option<E.Error>): Pass
    requires p.Running?
  {
    if err.Some? then AdapterError(op, p, err.value) else OnUpdated(op, p)
  }

  function AfterFinalResolve(op: Operator, p: Pass, err: Option<E.Error>): Pass
    requires p.Running?
  {
    if err.Some? then FinalRetry(op, p)
    else if p.copy.status.id != "" then p.(pc := FinalDelete(p.copy.status.id))
    else if Identity(op, p.copy.spec).Err? then p.(pc := DropFinalizer)
    else p.(pc := FinalFind)
  }

  function AfterFinalFind(op: Operator, p: Pass, found: Result<seq<string>, E.Error>): Pass
    requires p.Running?
  {
    if found.Err? then FinalRetry(op, p)
    else if |found.value| == 0 then p.(pc := DropFinalizer)
    else if |found.value| == 1 then p.(pc := FinalDelete(found.value[0]))
    else FinalRetry(op, p)
  }

  function AfterFinalDelete(op: Operator, p: Pass, err: Option<E.Error>): Pass
    requires p.Running?
  {
    if err.None? || E.ReasonForError(err.value).NotFound? then p.(pc := DropFinalizer) else FinalRetry(op, p)
  }

  /** After any Kubernetes write: the object as stored, or None when the write failed. */
  function AfterWrite(op: Operator, p: Pass, stored: Option<Resource>): Pass
    requires p.Running?
  {
    if p.pc.AddFinalizer? then AfterAddFinalizer(op, stored)
    else if IsPatch(p.pc) then AfterPatch(op, p, stored)
    else if stored.None? then Idle(FAILED)
    else if p.pc.SaveStatus? then Idle(p.pc.end)
    else Idle(DONE)
  }

  /******* The machine *******/

  /** What a lookup is made for. */
  datatype Purpose = ToAdopt | ToResolveConflict | ToReclaim

  function PurposeOf(pc: PC): Purpose {
    match pc
    case FinalFind => ToReclaim
    case FindConflict => ToResolveConflict
    case _ => ToAdopt
  }

  /** What happened between the operator and SigNoz, in order; it never influences a step. */
  datatype Event =
    | Searched(purpose: Purpose, identity: string, ids: seq<string>, pin: string)
    | Posted
    | Named(id: string, body: Json)
    | Agreed(id: string, body: Json)
    | PutSent(id: string)
    | Replaced(id: string, body: Json)
    | DeleteSent(id: string)

  datatype State = State(kube: Option<Resource>, remote: Remote, pass: Pass, log: seq<Event>)

  /** A Kubernetes write can also land without its reply reaching the operator. */
  datatype Write = Applied | Rejected | Unacknowledged

  /** When a POST takes effect: at once, at some later point, or not at all. */
  datatype Landing = Lands(id: string, stored: Json) | Later(stored: Json) | Never

  /** How the pending effect goes. */
  datatype Fate =
    | WriteFate(write: Write)
    | ResolveFate(err: Option<E.Error>)
    | ListFate(found: Result<seq<string>, E.Error>)
    | PostFate(wire: T.Wire, landing: Landing)
    | ReadFate(err: Option<E.Error>)
    | PutFate(err: Option<E.Error>, after: Option<Entry>)
    | DeleteFate(err: Option<E.Error>, applied: bool)

  datatype Label =
    | EditSpec(spec: Spec)
    | EditPin(pin: string)
    | RequestDeletion
    | Hold(held: bool)
    | ForeignPut(id: string, name: string, body: Json)
    | ForeignDelete(id: string)
    | PostLands(n: nat, id: string)
    | PostVanishes(n: nat)
    | BeginPass
    | Crash
    | Effect(fate: Fate)

  /** The API server removes a deleted resource once its last finalizer is gone. */
  function Collected(r: Resource): Option<Resource> {
    if r.deleting && !r.finalizer && !r.held then None else Some(r)
  }

  function Changed(r: Resource): Resource {
    r.(version := r.version + 1)
  }

  /** The resource as a pending write stores it. */
  function Stored(p: Pass, r: Resource): Resource
    requires p.Running?
  {
    match p.pc
    case AddFinalizer => Changed(r.(finalizer := true))
    case DropFinalizer => Changed(r.(finalizer := false))
    case SaveStatus(_) => Changed(r.(status := p.copy.status))
    case ClearAttempt => Changed(r.(attempt := false))
    case ClearRejected(_) => Changed(r.(attempt := false))
    case MarkCreate => Changed(r.(attempt := true))
    case MarkAdopt(_) => Changed(r.(attempt := true))
    case _ => r
  }

  predicate FreshId(remote: Remote, id: string) {
    id != "" && id !in remote.used
  }

  /** A fate an effect can meet, whatever is assumed of the parties. */
  predicate CanMeet(op: Operator, s: State, fate: Fate)
    requires s.pass.Running?
  {
    var p := s.pass;
    match fate
    case WriteFate(write) =>
      && (IsPatch(p.pc) || IsUpdate(p.pc))
      && (!write.Rejected? ==> s.kube.Some?)
      && (!write.Rejected? && IsUpdate(p.pc) ==> s.kube.value.version == p.copy.version)
    case ResolveFate(_) => p.pc.Resolve? || p.pc.FinalResolve?
    case ListFate(found) =>
      IsFind(p.pc) && (found.Ok? ==> Identity(op, p.copy.spec).Ok? && "" !in found.value)
    case PostFate(wire, landing) =>
      && p.pc.Post?
      && (p.copy.spec.body.Err? || wire.NotSent? ==> landing.Never?)
      && (landing.Lands? ==> FreshId(s.remote, landing.id))
      && (var created := T.Create(RenderError(p.copy.spec), wire);
          created.Ok? ==> landing.Lands? && landing.id == created.value)
    case ReadFate(err) => p.pc.Read? && (err.None? ==> p.copy.status.id in s.remote.live)
    case PutFate(err, after) =>
      && p.pc.PutBody?
      && (err.None? ==> after.Some?)
      && (after.Some? ==>
            && p.copy.status.id in s.remote.live
            && after.value.ours == s.remote.live[p.copy.status.id].ours
            && (after.value.name == s.remote.live[p.copy.status.id].name ||
                Ok(after.value.name) == Identity(op, p.copy.spec)))
    case DeleteFate(err, applied) => p.pc.FinalDelete? && (err.None? ==> applied)
  }

  predicate Possible(op: Operator, s: State, l: Label) {
    match l
    case EditSpec(_) => s.kube.Some?
    case EditPin(_) => s.kube.Some?
    case RequestDeletion => s.kube.Some? && !s.kube.value.deleting
    case Hold(held) => s.kube.Some? && (held ==> !s.kube.value.deleting)
    case ForeignPut(id, _, _) => id in s.remote.live || FreshId(s.remote, id)
    case ForeignDelete(id) => id in s.remote.live
    case PostLands(n, id) => n < |s.remote.inflight| && FreshId(s.remote, id)
    case PostVanishes(n) => n < |s.remote.inflight|
    case BeginPass => s.kube.Some? && s.pass.Idle?
    case Crash => s.pass.Running?
    case Effect(fate) => s.pass.Running? && CanMeet(op, s, fate)
  }

  function Store(remote: Remote, id: string, entry: Entry): Remote {
    remote.(live := remote.live[id := entry], used := remote.used + {id})
  }

  function Without(entries: seq<Entry>, n: nat): seq<Entry>
    requires n < |entries|
  {
    entries[..n] + entries[n + 1..]
  }

  /** SigNoz after a POST of the body. */
  function AfterPost(op: Operator, remote: Remote, body: Json, landing: Landing): Remote {
    match landing
    case Lands(id, stored) => Store(remote, id, Entry(op.identityOf(body), stored, true))
    case Later(stored) => remote.(inflight := remote.inflight + [Entry(op.identityOf(body), stored, true)])
    case Never => remote
  }

  /** A comparison that reports nothing is logged. */
  function Agreement(op: Operator, p: Pass, remote: Json): seq<Event>
    requires p.Running?
  {
    if p.copy.spec.body.Ok? &&
       JsonCompare.Compare(op.align, p.copy.spec.body.value, remote, op.updatable,
                           op.immutable) == JsonCompare.CompareResult([], [])
    then [Agreed(p.copy.status.id, p.copy.spec.body.value)]
    else []
  }

  /** The request of a create, unless the body cannot be rendered, and the id its reply names. */
  function PostEvents(p: Pass, created: Result<string, E.Error>): seq<Event>
    requires p.Running?
  {
    match p.copy.spec.body
    case Err(_) => []
    case Ok(body) => if created.Ok? then [Posted, Named(created.value, body)] else [Posted]
  }

  function PutEvents(p: Pass, err: Option<E.Error>): seq<Event>
    requires p.Running?
  {
    var id := p.copy.status.id;
    if err.None? && p.copy.spec.body.Ok? then [PutSent(id), Replaced(id, p.copy.spec.body.value)] else [PutSent(id)]
  }

  function WriteStep(op: Operator, s: State, write: Write): State
    requires s.pass.Running? && (!write.Rejected? ==> s.kube.Some?)
  {
    if write.Rejected? then s.(pass := AfterWrite(op, s.pass, None))
    else
      var stored := Stored(s.pass, s.kube.value);
      s.(kube := Collected(stored), pass := AfterWrite(op, s.pass, if write.Applied? then Some(stored) else None))
  }

  function ResolveStep(op: Operator, s: State, err: Option<E.Error>): State
    requires s.pass.Running?
  {
    s.(pass := if s.pass.pc.Resolve? then AfterResolve(op, s.pass, err) else AfterFinalResolve(op, s.pass, err))
  }

  function ListStep(op: Operator, s: State, found: Result<seq<string>, E.Error>): State
    requires s.pass.Running? && (found.Ok? ==> Identity(op, s.pass.copy.spec).Ok?)
  {
    var p := s.pass;
    s.(log := s.log + if found.Ok? then
       [Searched(PurposeOf(p.pc), Identity(op, p.copy.spec).value, found.value, p.copy.pin)] else [],
       pass := if p.pc.FinalFind? then AfterFinalFind(op, p, found) else AfterFind(op, p, found))
  }

  function PostStep(op: Operator, s: State, wire: T.Wire, landing: Landing): State
    requires s.pass.Running?
  {
    var p := s.pass;
    var created := T.Create(RenderError(p.copy.spec), wire);
    s.(remote := if p.copy.spec.body.Err? then s.remote else AfterPost(op, s.remote, p.copy.spec.body.value, landing),
       log := s.log + PostEvents(p, created),
       pass := OnCreated(op, p, created))
  }

  function ReadStep(op: Operator, s: State, err: Option<E.Error>): State
    requires s.pass.Running? && (err.None? ==> s.pass.copy.status.id in s.remote.live)
  {
    var p := s.pass;
    if err.Some? then s.(pass := OnRead(op, p, Err(err.value)))
    else
      var remote := s.remote.live[p.copy.status.id].body;
      s.(log := s.log + Agreement(op, p, remote), pass := OnRead(op, p, Ok(remote)))
  }

  function PutStep(op: Operator, s: State, err: Option<E.Error>, after: Option<Entry>): State
    requires s.pass.Running?
  {
    var p := s.pass;
    var id := p.copy.status.id;
    s.(remote := if after.Some? then Store(s.remote, id, after.value) else s.remote,
       log := s.log + PutEvents(p, err),
       pass := AfterPut(op, p, err))
  }

  function DeleteStep(op: Operator, s: State, err: Option<E.Error>, applied: bool): State
    requires s.pass.Running? && s.pass.pc.FinalDelete?
  {
    var id := s.pass.pc.id;
    s.(remote := if applied then s.remote.(live := s.remote.live - {id}) else s.remote,
       log := s.log + [DeleteSent(id)],
       pass := AfterFinalDelete(op, s.pass, err))
  }

  /** The pending effect on the durable halves and the log, and the pass after seeing its reply. */
  function EffectStep(op: Operator, s: State, fate: Fate): State
    requires s.pass.Running? && CanMeet(op, s, fate)
  {
    match fate
    case WriteFate(write) => WriteStep(op, s, write)
    case ResolveFate(err) => ResolveStep(op, s, err)
    case ListFate(found) => ListStep(op, s, found)
    case PostFate(wire, landing) => PostStep(op, s, wire, landing)
    case ReadFate(err) => ReadStep(op, s, err)
    case PutFate(err, after) => PutStep(op, s, err, after)
    case DeleteFate(err, applied) => DeleteStep(op, s, err, applied)
  }

  /** What anyone but the operator does; a crash only loses the pass. */
  function EnvironmentStep(s: State, l: Label): State {
    match l
    case EditSpec(spec) =>
      if s.kube.None? then s
      else s.(kube := Some(Changed(s.kube.value.(spec := spec, generation := s.kube.value.generation + 1))))
    case EditPin(pin) =>
      if s.kube.None? then s else s.(kube := Some(Changed(s.kube.value.(pin := pin))))
    case RequestDeletion =>
      if s.kube.None? then s
      else s.(kube := Collected(Changed(s.kube.value.(deleting := true, generation := s.kube.value.generation + 1))))
    case Hold(held) =>
      if s.kube.None? then s else s.(kube := Collected(Changed(s.kube.value.(held := held))))
    case ForeignPut(id, name, body) =>
      s.(remote := Store(s.remote, id, Entry(name, body, id in s.remote.live && s.remote.live[id].ours)))
    case ForeignDelete(id) => s.(remote := s.remote.(live := s.remote.live - {id}))
    case PostLands(n, id) =>
      if n < |s.remote.inflight| then
        s.(remote := Store(s.remote, id, s.remote.inflight[n]).(inflight := Without(s.remote.inflight, n)))
      else s
    case PostVanishes(n) =>
      if n < |s.remote.inflight| then s.(remote := s.remote.(inflight := Without(s.remote.inflight, n))) else s
    case Crash => s.(pass := Idle(FAILED))
    case _ => s
  }

  /** One step; a label that is not possible changes nothing. */
  function Step(op: Operator, s: State, l: Label): State {
    if !Possible(op, s, l) then s
    else if l.BeginPass? then s.(pass := Begin(op, s.kube.value))
    else if l.Effect? then EffectStep(op, s, l.fate)
    else EnvironmentStep(s, l)
  }

  function Exec(op: Operator, s: State, labels: seq<Label>): State {
    if labels == [] then s
    else Step(op, Exec(op, s, labels[..|labels| - 1]), labels[|labels| - 1])
  }

  /** The passes begun. */
  function Passes(labels: seq<Label>): nat {
    if labels == [] then 0
    else Passes(labels[..|labels| - 1]) + if labels[|labels| - 1].BeginPass? then 1 else 0
  }

  /******* Assumptions about the other parties *******/

  /**
   visible: a lookup returns exactly the matching objects, and a lost POST has taken effect by then or never will.
   honest404: an object reported as not found is gone.
   cleanRefusal: a POST answered with 400, 401 or 403 created nothing.
   noPin, fixedIdentity, deletePolicy, payload: the user sets no pin, keeps the identity derivable and the
   same, keeps the reclaim policy Delete, and gives every body some updatable field.
   noRename: nobody else renames an object this resource created.
   steady: the body does not change between the start of a pass and a write of that pass.
   */
  datatype Assumptions = Assumptions(
    visible: bool, honest404: bool, cleanRefusal: bool, noPin: bool, fixedIdentity: bool, noRename: bool,
    deletePolicy: bool, steady: bool, payload: bool)

  predicate SpecAssumed(op: Operator, identity: string, a: Assumptions, spec: Spec) {
    && (a.fixedIdentity ==> Identity(op, spec) == Ok(identity))
    && (a.deletePolicy ==> !spec.orphan)
    && (a.payload && spec.body.Ok? ==> JsonUpdate.Projection(spec.body.value, op.updatable) != map[])
  }

  /** ids lists exactly the live objects of a name, each once. */
  predicate ListsAll(remote: Remote, name: string, ids: seq<string>) {
    && NoRepeats(ids)
    && (forall id | id in ids :: id in remote.live && remote.live[id].name == name)
    && (forall id | id in remote.live && remote.live[id].name == name :: id in ids)
  }

  predicate IsNotFound(err: Option<E.Error>) {
    err.Some? && E.ReasonForError(err.value).NotFound?
  }

  predicate FateAssumed(op: Operator, a: Assumptions, s: State, fate: Fate)
    requires s.pass.Running? && CanMeet(op, s, fate)
  {
    var p := s.pass;
    match fate
    case WriteFate(write) =>
      a.steady && write.Applied? ==> s.kube.value.spec.body == p.copy.spec.body
    case ListFate(found) =>
      a.visible && found.Ok? ==>
        s.remote.inflight == [] && ListsAll(s.remote, Identity(op, p.copy.spec).value, found.value)
    case PostFate(wire, landing) => a.cleanRefusal && T.Refused(wire) ==> landing.Never?
    case ReadFate(err) => a.honest404 && IsNotFound(err) ==> p.copy.status.id !in s.remote.live
    case DeleteFate(err, applied) => a.honest404 && IsNotFound(err) ==> applied || p.pc.id !in s.remote.live
    case _ => true
  }

  predicate Assumed(op: Operator, identity: string, a: Assumptions, s: State, l: Label) {
    match l
    case EditSpec(spec) => SpecAssumed(op, identity, a, spec)
    case EditPin(pin) => a.noPin ==> pin == ""
    case ForeignPut(id, name, _) =>
      a.noRename && id in s.remote.live && s.remote.live[id].ours ==> name == s.remote.live[id].name
    case Effect(fate) => Possible(op, s, l) ==> FateAssumed(op, a, s, fate)
    case _ => true
  }

  /** A run: every step is possible, and keeps to what is assumed. */
  predicate Run(op: Operator, identity: string, a: Assumptions, s: State, labels: seq<Label>) {
    if labels == [] then true
    else
      var last := |labels| - 1;
      var now := Exec(op, s, labels[..last]);
      Run(op, identity, a, s, labels[..last]) && Possible(op, now, labels[last]) &&
          Assumed(op, identity, a, now, labels[last])
  }

  /** Any resource and any store of foreign objects, with no pass running and nothing created yet. */
  predicate Start(op: Operator, identity: string, a: Assumptions, s: State) {
    && s.kube.Some? && s.pass.Idle? && s.log == []
    && SpecAssumed(op, identity, a, s.kube.value.spec)
    && (a.noPin ==> s.kube.value.pin == "")
    && s.remote.live.Keys <= s.remote.used && "" !in s.remote.used
    && (s.kube.value.status.id == "" || s.kube.value.status.id in s.remote.used)
    && (forall id | id in s.remote.live :: !s.remote.live[id].ours)
    && s.remote.inflight == []
  }
}
