/**
 Why passes end as they do: for every run, which situation makes a pass record which cause, and the
 outcome, message, generation, id, hash and requeue that go with it.
 */
module Outcomes {
  import opened Common
  import opened JsonTree
  import opened Protocol
  import JsonCompare
  import JsonUpdate
  import A = Attempt
  import E = Errors
  import T = Transport
  import C = Conditions

  /** What a reader of the status is told, and when the next pass follows. */
  datatype Judgement = Judgement(
    outcome: C.Outcome, cause: Option<C.Cause>, message: C.Message, generation: int, id: string, hash: string,
    requeueAfter: int)

  /** The cause and the message are those of a Ready condition of the observed generation. */
  function Reading(status: Status, requeueAfter: int): Judgement {
    var ready := C.Lookup(status.conditions, C.ReadyType);
    Judgement(
      C.OutcomeOf(status.conditions),
      if ready.Some? && ready.value.generation == status.observedGeneration then Some(ready.value.cause) else None,
      if ready.Some? then ready.value.message else C.Fixed,
      status.observedGeneration, status.id, status.observedHash, requeueAfter)
  }

  /** The judgement a pass comes to: in the status it is about to save, or, when that is no news, in the durable one. */
  function Judged(before: Status, next: Pass): Option<Judgement> {
    match next
    case Idle(end) => if end.failed then None else Some(Reading(before, end.requeueAfter))
    case Running(copy, _, _, _, _, pc) =>
      if pc.SaveStatus? && !pc.end.failed then Some(Reading(copy.status, pc.end.requeueAfter)) else None
  }

  lemma FinishJudges(p: Pass, status: Status, generation: int, outcome: C.Outcome, cause: C.Cause, message: C.Message,
                     requeueAfter: int)
    requires p.Running?
    ensures Judged(p.before, Finish(p, Say(status, generation, outcome, cause, message), Ended(requeueAfter, false))) ==
            Some(Judgement(outcome, Some(cause), message, generation, status.id, status.observedHash, requeueAfter))
  {
    C.RecordSays(status.conditions, generation, outcome, cause, message);
    C.OutcomeReadsBack(status.conditions, generation, outcome, cause, message);
  }

  /******* Situations *******/

  /** The step begins or advances a pass that mirrors, and does not save its status. */
  predicate Mirrors(s: State, l: Label) {
    match l
    case BeginPass => s.kube.Some? && !s.kube.value.deleting
    case Effect(fate) =>
      && s.pass.Running? && !IsFinal(s.pass.pc) && !s.pass.pc.SaveStatus?
      && (fate.WriteFate? && !fate.write.Rejected? ==> s.kube.Some?)
      && (fate.ReadFate? && fate.err.None? ==> s.pass.copy.status.id in s.remote.live)
    case _ => false
  }

  function Before(s: State, l: Label): Status
    requires Mirrors(s, l)
  {
    if l.BeginPass? then s.kube.value.status else s.pass.before
  }

  /** The resource the pass acts on once it has seen the reply. */
  function Acting(s: State, l: Label): Resource
    requires Mirrors(s, l)
  {
    if l.BeginPass? then s.kube.value
    else if l.fate.WriteFate? && !l.fate.write.Rejected? then Stored(s.pass, s.kube.value)
    else s.pass.copy
  }

  /** What the reason of an error says; an error of unknown make has none. */
  datatype Kind = OutOfReach | Gone | Transient | Denied | Hopeless

  function KindOf(err: E.Error): Kind {
    match E.FirstReason(err)
    case None => OutOfReach
    case Some(reason) =>
      match reason {
        case Unreachable => OutOfReach
        case NotFound => Gone
        case Unknown => Transient
        case TooManyRequests => Transient
        case Internal => Transient
        case Unauthorized => Denied
        case Forbidden => Denied
        case InvalidInput => Hopeless
        case AlreadyExists => Hopeless
      }
  }

  /**
   What the operator has just seen: a spec to act on, a provider config that does not resolve, the ids of
   a lookup with the pin they have to meet, an error, the reply to a create, the object read as it
   compares with the body (None when there is no body), or an update that went through.
   */
  datatype Sight =
    | Started(spec: Spec)
    | Unresolved
    | Looked(ids: seq<string>, pin: string, conflict: bool)
    | Failed(kind: Kind, reading: bool)
    | Answered(wire: T.Wire)
    | Fetched(compared: Option<JsonCompare.CompareResult>, rehashed: bool, sendable: bool)
    | Overwritten
    | Unremarkable

  /** The annotation is taken back before the error of a hopeless create is judged. */
  function Seen(op: Operator, s: State, l: Label): Sight
    requires Mirrors(s, l)
  {
    var p := s.pass;
    if l.BeginPass? then if s.kube.value.finalizer then Started(s.kube.value.spec) else Unremarkable
    else
      match l.fate
      case WriteFate(write) =>
        if !write.Applied? then Unremarkable
        else if p.pc.AddFinalizer? then Started(s.kube.value.spec)
        else if p.pc.ClearRejected? then Failed(KindOf(p.pc.err), false)
        else Unremarkable
      case ResolveFate(err) => if err.Some? then Unresolved else Unremarkable
      case ListFate(Ok(ids)) => Looked(ids, if p.pc.FindNew? then p.copy.pin else "", p.pc.FindConflict?)
      case ListFate(Err(err)) => Failed(KindOf(err), false)
      case PostFate(wire, _) =>
        if p.copy.spec.body.Ok? then Answered(wire)
        else if KindOf(p.copy.spec.body.error).Denied? || KindOf(p.copy.spec.body.error).Hopeless? then Unremarkable
        else Failed(KindOf(p.copy.spec.body.error), false)
      case ReadFate(Some(err)) => Failed(KindOf(err), true)
      case ReadFate(None) => Comparison(op, p, s.remote.live[p.copy.status.id].body)
      case PutFate(err, _) => if err.Some? then Failed(KindOf(err.value), false) else Overwritten
      case DeleteFate(_, _) => Unremarkable
  }

  function Comparison(op: Operator, p: Pass, remote: Json): Sight
    requires p.Running?
  {
    match p.copy.spec.body
    case Err(_) => Fetched(None, false, false)
    case Ok(body) =>
      Fetched(Some(JsonCompare.Compare(op.align, body, remote, op.updatable, op.immutable)),
              p.copy.status.observedHash != "" && p.copy.status.observedHash != p.hash,
              JsonUpdate.Projection(body, op.updatable) != map[])
  }

  /** No identity or no hash can be derived. */
  predicate Unusable(op: Operator, spec: Spec) {
    match spec.body
    case Err(_) => true
    case Ok(body) => op.identityOf(body) == "" || op.hashOf(body).Err?
  }

  /** The create did not say what it came to: no answer, no usable body, or a success that names no id. */
  predicate Unanswered(wire: T.Wire) {
    match wire
    case NotSent(_) => false
    case NoAnswer(_) => true
    case Answer(status, body) => body.Oversized? || body.CutShort? || (200 <= status < 300 && T.IdIn(body) == "")
  }

  /** The create failed with a status that leaves open what became of it. */
  predicate LeftOpen(wire: T.Wire) {
    && wire.Answer? && !wire.body.Oversized? && !wire.body.CutShort?
    && !(200 <= wire.status < 300) && wire.status !in {400, 401, 403, 409}
  }

  predicate NamesId(wire: T.Wire) {
    wire.Answer? && 200 <= wire.status < 300 && T.IdIn(wire.body) != ""
  }

  /** An updatable field of the object read differs, or it was last written for another hash. */
  predicate Drifted(sight: Sight) {
    sight.Fetched? && sight.compared.Some? && (sight.compared.value.updatable != [] || sight.rehashed)
  }

  /** No immutable field differs. */
  predicate Comparable(sight: Sight) {
    sight.Fetched? && sight.compared.Some? && sight.compared.value.immutable == []
  }

  /** The sight each cause stands for. */
  predicate Because(op: Operator, sight: Sight, cause: C.Cause) {
    match cause
    case SuspendedCause => sight.Started? && sight.spec.suspend
    case InvalidSpec => sight.Started? && !sight.spec.suspend && Unusable(op, sight.spec)
    case ProviderConfigNotReady => sight.Unresolved?
    case IdMismatch => sight.Looked? && sight.pin != "" && sight.pin !in sight.ids
    case AmbiguousCause => sight.Looked? && sight.pin == "" && |sight.ids| >= 2
    case ImmutableFieldChanged => sight.Fetched? && sight.compared.Some? && sight.compared.value.immutable != []
    case CompareFailed => sight.Fetched? && sight.compared.None?
    case PendingCause => sight == Failed(Gone, true)
    case SyncedCause => Comparable(sight) && !Drifted(sight)
    case Updated => sight.Overwritten? || (Comparable(sight) && Drifted(sight) && !sight.sendable)
    case Created => sight.Answered? && NamesId(sight.wire)
    case BackendUnreachable => (sight.Failed? && sight.kind.OutOfReach?) || (sight.Answered? && Unanswered(sight.wire))
    case BackendError =>
      || (sight.Failed? && sight.kind.Transient?)
      || sight == Failed(Gone, false)
      || (sight.Answered? && LeftOpen(sight.wire))
      || (sight.Looked? && sight.conflict && sight.ids == [])
    case Unauthorized => sight.Failed? && sight.kind.Denied?
    case Rejected => sight.Failed? && sight.kind.Hopeless?
    case ForeignCause(_) => false
  }

  /** What each cause means for the pass. */
  function OutcomeFor(cause: C.Cause): C.Outcome {
    match cause
    case SyncedCause => C.Synced
    case Created => C.Synced
    case Updated => C.Synced
    case PendingCause => C.Pending
    case SuspendedCause => C.Suspended
    case ProviderConfigNotReady => C.Recoverable
    case BackendUnreachable => C.Recoverable
    case BackendError => C.Recoverable
    case Unauthorized => C.Recoverable
    case _ => C.Terminal
  }

  function RequeueOn(op: Operator, spec: Spec, outcome: C.Outcome): int {
    match outcome
    case Synced => Interval(op, spec)
    case Recoverable => RetryInterval(op, spec)
    case Pending => 1_000_000_000
    case _ => 0
  }

  /** The error that is met, if any. */
  function Met(s: State, l: Label): E.Error
    requires Mirrors(s, l)
  {
    var none := E.Plain("");
    if l.BeginPass? then none
    else
      match l.fate
      case WriteFate(_) => if s.pass.pc.ClearRejected? then s.pass.pc.err else none
      case ResolveFate(err) => if err.Some? then err.value else none
      case ListFate(found) => if found.Err? then found.error else none
      case PostFate(wire, _) =>
        var created := T.Create(RenderError(s.pass.copy.spec), wire);
        if created.Err? then created.error else none
      case ReadFate(Some(err)) => err
      case ReadFate(None) => if s.pass.copy.spec.body.Err? then s.pass.copy.spec.body.error else none
      case PutFate(err, _) => if err.Some? then err.value else none
      case DeleteFate(_, _) => none
  }

  /** What is wrong with a spec: its identity, and else its hash. */
  function Complaint(op: Operator, spec: Spec): C.Message {
    if Identity(op, spec).Err? then C.NoIdentity(Identity(op, spec).error)
    else if Hash(op, spec).Err? then C.NoHash(Hash(op, spec).error)
    else C.Fixed
  }

  /** What the user is told besides the cause. */
  function MessageFor(op: Operator, s: State, l: Label, cause: C.Cause): C.Message
    requires Mirrors(s, l)
  {
    var sight := Seen(op, s, l);
    var identity := if s.pass.Running? then s.pass.identity else "";
    match sight
    case Started(spec) => if cause.InvalidSpec? then Complaint(op, spec) else C.Fixed
    case Looked(ids, pin, _) =>
      if cause.IdMismatch? then C.NoMatchForPin(pin, identity, ids)
      else if cause.AmbiguousCause? then C.Ambiguous(identity, ids)
      else C.Conflict(identity)
    case Fetched(compared, _, _) =>
      if compared.None? then C.Quoting(Met(s, l))
      else if cause.ImmutableFieldChanged? then C.ImmutableChanged(compared.value.immutable, op.immutable)
      else C.Fixed
    case _ => if OutcomeFor(cause).Terminal? || OutcomeFor(cause).Recoverable? then C.Quoting(Met(s, l)) else C.Fixed
  }

  /** The rest of a judgement of that cause. */
  function Fitting(op: Operator, s: State, l: Label, cause: C.Cause): Judgement
    requires Mirrors(s, l)
  {
    var r, sight := Acting(s, l), Seen(op, s, l);
    Judgement(
      OutcomeFor(cause), Some(cause), MessageFor(op, s, l, cause),
      if cause.Created? && s.pass.Running? then s.pass.generation else r.generation,
      if cause.PendingCause? then ""
      else if cause.Created? && sight.Answered? && sight.wire.Answer? then T.IdIn(sight.wire.body)
      else r.status.id,
      if cause.PendingCause? then ""
      else if OutcomeFor(cause).Synced? && s.pass.Running? then s.pass.hash
      else r.status.observedHash,
      RequeueOn(op, r.spec, OutcomeFor(cause)))
  }

  /******* Each effect *******/

  /** The sight is that of this cause and of no other, or of none. */
  ghost predicate Only(op: Operator, sight: Sight, known: Option<C.Cause>) {
    forall cause :: Because(op, sight, cause) <==> known == Some(cause)
  }

  /** The pass comes to a judgement exactly at the sight of some cause, and to the one that fits it. */
  ghost predicate JudgesRightly(op: Operator, s: State, l: Label, next: Pass)
    requires Mirrors(s, l)
  {
    var judged := Judged(Before(s, l), next);
    && (forall cause :: Because(op, Seen(op, s, l), cause) ==> judged == Some(Fitting(op, s, l, cause)))
    && (judged.Some? ==> judged.value.cause.Some? && Because(op, Seen(op, s, l), judged.value.cause.value))
  }

  lemma OneCauseJudges(op: Operator, s: State, l: Label, next: Pass, known: Option<C.Cause>)
    requires Mirrors(s, l) && Only(op, Seen(op, s, l), known)
    requires Judged(Before(s, l), next) == if known.None? then None else Some(Fitting(op, s, l, known.value))
    ensures JudgesRightly(op, s, l, next)
  {
  }

  lemma OnlyTheStart(op: Operator, spec: Spec)
    ensures Only(op, Started(spec),
                 if spec.suspend then Some(C.SuspendedCause)
                 else if Unusable(op, spec) then Some(C.InvalidSpec) else None)
  {
  }

  lemma OnlyTheVerdict(op: Operator, err: E.Error, reading: bool)
    ensures Only(op, Failed(KindOf(err), reading),
                 Some(if reading && KindOf(err).Gone? then C.PendingCause else C.VerdictOn(err).1))
  {
    C.VerdictNamesTheCause(err);
  }

  lemma OnlyTheMatches(op: Operator, ids: seq<string>, pin: string, conflict: bool)
    requires conflict ==> pin == ""
    ensures Only(op, Looked(ids, pin, conflict),
                 if pin != "" then if pin in ids then None else Some(C.IdMismatch)
                 else if |ids| >= 2 then Some(C.AmbiguousCause)
                 else if |ids| == 0 && conflict then Some(C.BackendError)
                 else None)
  {
  }

  /** The verdict on a create, unless the pass goes on. */
  function Known(created: Result<string, E.Error>): Option<C.Cause> {
    if created.Ok? then Some(C.Created)
    else if E.IsRetryable(created.error) then Some(C.VerdictOn(created.error).1)
    else None
  }

  lemma OnlyTheReply(op: Operator, wire: T.Wire)
    ensures Only(op, Answered(wire), Known(T.Create(None, wire)))
  {
    var created := T.Create(None, wire);
    if created.Err? {
      C.VerdictNamesTheCause(created.error);
    }
    if wire.Answer? && !E.IsSuccess(wire.status) {
      E.StatusNamesTheReason(wire.status, "");
    }
  }

  function KnownOf(compared: JsonCompare.CompareResult, rehashed: bool, sendable: bool): Option<C.Cause> {
    if compared.immutable != [] then Some(C.ImmutableFieldChanged)
    else if compared.updatable == [] && !rehashed then Some(C.SyncedCause)
    else if !sendable then Some(C.Updated)
    else None
  }

  lemma OnlyTheComparison(op: Operator, compared: Option<JsonCompare.CompareResult>, rehashed: bool, sendable: bool)
    ensures Only(op, Fetched(compared, rehashed, sendable),
                 if compared.None? then Some(C.CompareFailed) else KnownOf(compared.value, rehashed, sendable))
  {
  }

  lemma OnlyTheRest(op: Operator)
    ensures Only(op, Unresolved, Some(C.ProviderConfigNotReady))
    ensures Only(op, Overwritten, Some(C.Updated))
    ensures Only(op, Unremarkable, None)
  {
  }

  lemma StartJudges(op: Operator, r: Resource)
    ensures var judged := Judged(r.status, Reconcile(op, r));
            if r.spec.suspend then
              judged == Some(Judgement(C.Suspended, Some(C.SuspendedCause), C.Fixed, r.generation, r.status.id,
                                       r.status.observedHash, 0))
            else if Unusable(op, r.spec) then
              judged == Some(Judgement(C.Terminal, Some(C.InvalidSpec), Complaint(op, r.spec), r.generation,
                                       r.status.id, r.status.observedHash, 0))
            else judged == None
  {
    var p := Running(r, r.status, "", "", r.generation, Resolve);
    if r.spec.suspend {
      FinishJudges(p, r.status, r.generation, C.Suspended, C.SuspendedCause, C.Fixed, 0);
    } else if Identity(op, r.spec).Err? {
      FinishJudges(p, r.status, r.generation, C.Terminal, C.InvalidSpec, C.NoIdentity(Identity(op, r.spec).error), 0);
    } else if Hash(op, r.spec).Err? {
      FinishJudges(p, r.status, r.generation, C.Terminal, C.InvalidSpec, C.NoHash(Hash(op, r.spec).error), 0);
    }
  }

  lemma BeginJudges(op: Operator, s: State)
    requires Mirrors(s, BeginPass)
    ensures JudgesRightly(op, s, BeginPass, Begin(op, s.kube.value))
  {
    StartJudges(op, s.kube.value);
    OnlyTheStart(op, s.kube.value.spec);
  }

  lemma ErrorJudges(op: Operator, p: Pass, err: E.Error)
    requires p.Running?
    ensures var (outcome, cause) := C.VerdictOn(err);
            Judged(p.before, AdapterError(op, p, err)) ==
            Some(Judgement(outcome, Some(cause), C.Quoting(err), p.copy.generation, p.copy.status.id,
                           p.copy.status.observedHash, RequeueOn(op, p.copy.spec, outcome)))
  {
    var (outcome, cause) := C.VerdictOn(err);
    C.TerminalIffReasonSays(err);
    FinishJudges(p, p.copy.status, p.copy.generation, outcome, cause, C.Quoting(err),
                 RequeueOn(op, p.copy.spec, outcome));
  }

  lemma AddedJudges(op: Operator, s: State, write: Write)
    requires Mirrors(s, Effect(WriteFate(write))) && s.pass.pc.AddFinalizer?
    requires !write.Rejected? ==> s.kube.value.status == s.pass.before
    ensures JudgesRightly(op, s, Effect(WriteFate(write)), WriteStep(op, s, write).pass)
  {
    if write.Applied? {
      StartJudges(op, Stored(s.pass, s.kube.value));
      OnlyTheStart(op, s.kube.value.spec);
    }
  }

  lemma ClearedJudges(op: Operator, s: State, write: Write)
    requires Mirrors(s, Effect(WriteFate(write))) && s.pass.pc.ClearRejected?
    ensures JudgesRightly(op, s, Effect(WriteFate(write)), WriteStep(op, s, write).pass)
  {
    if write.Applied? {
      ErrorJudges(op, s.pass.(copy := Stored(s.pass, s.kube.value)), s.pass.pc.err);
      OnlyTheVerdict(op, s.pass.pc.err, false);
      OneCauseJudges(op, s, Effect(WriteFate(write)), WriteStep(op, s, write).pass,
                     Some(C.VerdictOn(s.pass.pc.err).1));
    }
  }

  lemma PatchedJudges(op: Operator, s: State, write: Write)
    requires Mirrors(s, Effect(WriteFate(write))) && IsPatch(s.pass.pc) && !s.pass.pc.ClearRejected?
    ensures JudgesRightly(op, s, Effect(WriteFate(write)), WriteStep(op, s, write).pass)
  {
  }

  lemma ResolveJudges(op: Operator, s: State, err: Option<E.Error>)
    requires Mirrors(s, Effect(ResolveFate(err))) && s.pass.pc.Resolve?
    ensures JudgesRightly(op, s, Effect(ResolveFate(err)), AfterResolve(op, s.pass, err))
  {
    var p := s.pass;
    if err.Some? {
      FinishJudges(p, p.copy.status, p.copy.generation, C.Recoverable, C.ProviderConfigNotReady, C.Quoting(err.value),
                   RetryInterval(op, p.copy.spec));
    }
    OnlyTheRest(op);
    OneCauseJudges(op, s, Effect(ResolveFate(err)), AfterResolve(op, p, err),
                   if err.Some? then Some(C.ProviderConfigNotReady) else None);
  }

  lemma FoundJudges(op: Operator, s: State, ids: seq<string>)
    requires Mirrors(s, Effect(ListFate(Ok(ids)))) && IsFind(s.pass.pc)
    ensures JudgesRightly(op, s, Effect(ListFate(Ok(ids))), AfterFind(op, s.pass, Ok(ids)))
  {
    var p := s.pass;
    OnlyTheMatches(op, ids, if p.pc.FindNew? then p.copy.pin else "", p.pc.FindConflict?);
    if p.pc.FindNew? && p.copy.pin != "" {
      FinishJudges(p, p.copy.status, p.copy.generation, C.Terminal, C.IdMismatch,
                   C.NoMatchForPin(p.copy.pin, p.identity, ids), 0);
    } else if |ids| >= 2 {
      FinishJudges(p, p.copy.status, p.copy.generation, C.Terminal, C.AmbiguousCause, C.Ambiguous(p.identity, ids), 0);
    } else if |ids| == 0 && p.pc.FindConflict? {
      FinishJudges(p, p.copy.status, p.copy.generation, C.Recoverable, C.BackendError, C.Conflict(p.identity),
                   RetryInterval(op, p.copy.spec));
    }
  }

  lemma LostJudges(op: Operator, s: State, err: E.Error)
    requires Mirrors(s, Effect(ListFate(Err(err))))
    ensures JudgesRightly(op, s, Effect(ListFate(Err(err))), AfterFind(op, s.pass, Err(err)))
  {
    ErrorJudges(op, s.pass, err);
    OnlyTheVerdict(op, err, false);
    OneCauseJudges(op, s, Effect(ListFate(Err(err))), AfterFind(op, s.pass, Err(err)), Some(C.VerdictOn(err).1));
  }

  lemma UnrenderedJudges(op: Operator, s: State, wire: T.Wire, landing: Landing)
    requires Mirrors(s, Effect(PostFate(wire, landing))) && s.pass.copy.attempt && s.pass.copy.spec.body.Err?
    ensures JudgesRightly(op, s, Effect(PostFate(wire, landing)), PostStep(op, s, wire, landing).pass)
  {
    var err := s.pass.copy.spec.body.error;
    if E.IsRetryable(err) {
      ErrorJudges(op, s.pass, err);
      OnlyTheVerdict(op, err, false);
      OneCauseJudges(op, s, Effect(PostFate(wire, landing)), PostStep(op, s, wire, landing).pass,
                     Some(C.VerdictOn(err).1));
    } else {
      OnlyTheRest(op);
      OneCauseJudges(op, s, Effect(PostFate(wire, landing)), PostStep(op, s, wire, landing).pass, None);
    }
  }

  lemma PostJudges(op: Operator, s: State, wire: T.Wire, landing: Landing)
    requires Mirrors(s, Effect(PostFate(wire, landing))) && s.pass.copy.attempt && s.pass.copy.spec.body.Ok?
    ensures JudgesRightly(op, s, Effect(PostFate(wire, landing)), PostStep(op, s, wire, landing).pass)
  {
    var p, l := s.pass, Effect(PostFate(wire, landing));
    OnlyTheReply(op, wire);
    match T.Create(None, wire)
    case Ok(id) =>
      FinishJudges(p, p.copy.status.(id := id, observedHash := p.hash), p.generation, C.Synced, C.Created, C.Fixed,
                   Interval(op, p.copy.spec));
      OneCauseJudges(op, s, l, PostStep(op, s, wire, landing).pass, Some(C.Created));
    case Err(err) =>
      ErrorJudges(op, p, err);
      OneCauseJudges(op, s, l, PostStep(op, s, wire, landing).pass, Known(Err(err)));
  }

  lemma UpdatedJudges(op: Operator, p: Pass)
    requires p.Running?
    ensures Judged(p.before, OnUpdated(op, p)) ==
            Some(Judgement(C.Synced, Some(C.Updated), C.Fixed, p.copy.generation, p.copy.status.id, p.hash,
                           Interval(op, p.copy.spec)))
  {
    FinishJudges(p, p.copy.status.(observedHash := p.hash), p.copy.generation, C.Synced, C.Updated, C.Fixed,
                 Interval(op, p.copy.spec));
  }

  lemma NothingRead(op: Operator, p: Pass, err: E.Error)
    requires p.Running?
    ensures var judged := Judged(p.before, OnRead(op, p, Err(err)));
            if KindOf(err).Gone? then
              judged == Some(Judgement(C.Pending, Some(C.PendingCause), C.Fixed, p.copy.generation, "", "",
                                       1_000_000_000))
            else judged == Judged(p.before, AdapterError(op, p, err))
  {
    FinishJudges(p, p.copy.status.(id := "", observedHash := ""), p.copy.generation, C.Pending, C.PendingCause, C.Fixed,
                 ON_NOT_FOUND);
  }

  lemma MissedJudges(op: Operator, s: State, err: E.Error)
    requires Mirrors(s, Effect(ReadFate(Some(err))))
    ensures JudgesRightly(op, s, Effect(ReadFate(Some(err))), OnRead(op, s.pass, Err(err)))
  {
    NothingRead(op, s.pass, err);
    ErrorJudges(op, s.pass, err);
    OnlyTheVerdict(op, err, true);
    OneCauseJudges(op, s, Effect(ReadFate(Some(err))), OnRead(op, s.pass, Err(err)),
                   Some(if KindOf(err).Gone? then C.PendingCause else C.VerdictOn(err).1));
  }

  lemma ComparedJudges(op: Operator, p: Pass, body: Json, compared: JsonCompare.CompareResult)
    requires p.Running?
    ensures var judged := Judged(p.before, OnCompared(op, p, body, compared));
            var r := p.copy;
            if compared.immutable != [] then
              judged == Some(Judgement(C.Terminal, Some(C.ImmutableFieldChanged),
                                       C.ImmutableChanged(compared.immutable, op.immutable), r.generation, r.status.id,
                                       r.status.observedHash, 0))
            else if compared.updatable == [] && (r.status.observedHash == "" || r.status.observedHash == p.hash) then
              judged == Some(Judgement(C.Synced, Some(C.SyncedCause), C.Fixed, r.generation, r.status.id, p.hash,
                                       Interval(op, r.spec)))
            else if JsonUpdate.Projection(body, op.updatable) == map[] then
              judged == Some(Judgement(C.Synced, Some(C.Updated), C.Fixed, r.generation, r.status.id, p.hash,
                                       Interval(op, r.spec)))
            else judged == None
  {
    UpdatedJudges(op, p);
    FinishJudges(p, p.copy.status, p.copy.generation, C.Terminal, C.ImmutableFieldChanged,
                 C.ImmutableChanged(compared.immutable, op.immutable), 0);
    FinishJudges(p, p.copy.status.(observedHash := p.hash), p.copy.generation, C.Synced, C.SyncedCause, C.Fixed,
                 Interval(op, p.copy.spec));
  }

  lemma ReadJudges(op: Operator, s: State)
    requires Mirrors(s, Effect(ReadFate(None)))
    ensures JudgesRightly(op, s, Effect(ReadFate(None)), ReadStep(op, s, None).pass)
  {
    var p, l := s.pass, Effect(ReadFate(None));
    var sight, next := Seen(op, s, l), ReadStep(op, s, None).pass;
    OnlyTheComparison(op, sight.compared, sight.rehashed, sight.sendable);
    match p.copy.spec.body
    case Err(err) =>
      FinishJudges(p, p.copy.status, p.copy.generation, C.Terminal, C.CompareFailed, C.Quoting(err), 0);
      OneCauseJudges(op, s, l, next, Some(C.CompareFailed));
    case Ok(body) =>
      ComparedJudges(op, p, body, sight.compared.value);
      OneCauseJudges(op, s, l, next, KnownOf(sight.compared.value, sight.rehashed, sight.sendable));
  }

  lemma PutJudges(op: Operator, s: State, err: Option<E.Error>, after: Option<Entry>)
    requires Mirrors(s, Effect(PutFate(err, after)))
    ensures JudgesRightly(op, s, Effect(PutFate(err, after)), AfterPut(op, s.pass, err))
  {
    match err
    case None =>
      UpdatedJudges(op, s.pass);
      OnlyTheRest(op);
      OneCauseJudges(op, s, Effect(PutFate(err, after)), AfterPut(op, s.pass, err), Some(C.Updated));
    case Some(e) =>
      ErrorJudges(op, s.pass, e);
      OnlyTheVerdict(op, e, false);
      OneCauseJudges(op, s, Effect(PutFate(err, after)), AfterPut(op, s.pass, err), Some(C.VerdictOn(e).1));
  }

  lemma StepJudges(op: Operator, a: Assumptions, labels: seq<Label>, s: State, l: Label)
    requires A.AttemptInv(op, a, labels, s) && Mirrors(s, l) && Possible(op, s, l)
    ensures JudgesRightly(op, s, l, Step(op, s, l).pass)
  {
    match l
    case BeginPass => BeginJudges(op, s);
    case Effect(fate) =>
      match fate {
        case WriteFate(write) =>
          if s.pass.pc.AddFinalizer? {
            assert !write.Rejected? ==> s.kube.value == s.pass.copy;
            AddedJudges(op, s, write);
          } else if s.pass.pc.ClearRejected? {
            ClearedJudges(op, s, write);
          } else {
            PatchedJudges(op, s, write);
          }
        case ResolveFate(err) => ResolveJudges(op, s, err);
        case ListFate(Ok(ids)) => FoundJudges(op, s, ids);
        case ListFate(Err(err)) => LostJudges(op, s, err);
        case PostFate(wire, landing) =>
          if s.pass.copy.spec.body.Err? {
            UnrenderedJudges(op, s, wire, landing);
          } else {
            PostJudges(op, s, wire, landing);
          }
        case ReadFate(None) => ReadJudges(op, s);
        case ReadFate(Some(err)) => MissedJudges(op, s, err);
        case PutFate(err, after) => PutJudges(op, s, err, after);
        case DeleteFate(_, _) =>
      }
  }

  /******* Every run *******/

  /** A pass records a cause exactly at the sight that cause stands for, and all that belongs with it. */
  lemma EndsBecause(op: Operator, identity: string, a: Assumptions, s: State, labels: seq<Label>, l: Label,
                    cause: C.Cause)
    requires s.pass.Idle? && Run(op, identity, a, s, labels)
    requires Mirrors(Exec(op, s, labels), l) && Possible(op, Exec(op, s, labels), l)
    ensures var now := Exec(op, s, labels);
            var judged := Judged(Before(now, l), Step(op, now, l).pass);
            && (Because(op, Seen(op, now, l), cause) <==> judged == Some(Fitting(op, now, l, cause)))
            && (judged.Some? ==> judged.value.cause.Some? && Because(op, Seen(op, now, l), judged.value.cause.value))
  {
    A.RunKeeps(op, identity, a, s, labels);
    StepJudges(op, a, labels, Exec(op, s, labels), l);
  }

  /** Nothing a retry can fix: it takes a change of the resource, or of SigNoz. */
  predicate GivesUp(op: Operator, sight: Sight) {
    match sight
    case Started(spec) => !spec.suspend && Unusable(op, spec)
    case Failed(kind, _) => kind.Hopeless?
    case Looked(ids, pin, _) => if pin != "" then pin !in ids else |ids| >= 2
    case Fetched(compared, _, _) => compared.None? || compared.value.immutable != []
    case _ => false
  }

  /** Worth another try: the config, the answer, the credential or the object may be there by then. */
  predicate TriesAgain(sight: Sight) {
    match sight
    case Unresolved => true
    case Failed(kind, reading) => kind.OutOfReach? || kind.Transient? || kind.Denied? || (kind.Gone? && !reading)
    case Answered(wire) => Unanswered(wire) || LeftOpen(wire)
    case Looked(ids, _, conflict) => conflict && ids == []
    case _ => false
  }

  /** The object is as the spec wants it, as far as it can be made so. */
  predicate IsInSync(sight: Sight) {
    match sight
    case Answered(wire) => NamesId(wire)
    case Overwritten => true
    case Fetched(_, _, sendable) => Comparable(sight) && (sendable ==> !Drifted(sight))
    case _ => false
  }

  /** The sights at which a pass comes to each outcome. */
  predicate Leads(op: Operator, sight: Sight, outcome: C.Outcome) {
    match outcome
    case Terminal => GivesUp(op, sight)
    case Recoverable => TriesAgain(sight)
    case Synced => IsInSync(sight)
    case Pending => sight == Failed(Gone, true)
    case Suspended => sight.Started? && sight.spec.suspend
  }

  lemma CauseLeads(op: Operator, sight: Sight, cause: C.Cause)
    requires Because(op, sight, cause)
    ensures Leads(op, sight, OutcomeFor(cause))
  {
  }

  /** The cause by which a sight leads where it does. */
  function CauseAt(sight: Sight): C.Cause {
    match sight
    case Started(spec) => if spec.suspend then C.SuspendedCause else C.InvalidSpec
    case Unresolved => C.ProviderConfigNotReady
    case Looked(ids, pin, _) =>
      if pin != "" then C.IdMismatch else if ids == [] then C.BackendError else C.AmbiguousCause
    case Failed(kind, reading) =>
      match kind {
        case OutOfReach => C.BackendUnreachable
        case Gone => if reading then C.PendingCause else C.BackendError
        case Transient => C.BackendError
        case Denied => C.Unauthorized
        case Hopeless => C.Rejected
      }
    case Answered(wire) =>
      if NamesId(wire) then C.Created else if Unanswered(wire) then C.BackendUnreachable else C.BackendError
    case Fetched(compared, _, _) =>
      if compared.None? then C.CompareFailed
      else if compared.value.immutable != [] then C.ImmutableFieldChanged
      else if Drifted(sight) then C.Updated else C.SyncedCause
    case Overwritten => C.Updated
    case Unremarkable => C.SyncedCause
  }

  lemma LeadsByACause(op: Operator, sight: Sight, outcome: C.Outcome)
    requires Leads(op, sight, outcome)
    requires sight.Looked? && sight.conflict ==> sight.pin == ""
    ensures Because(op, sight, CauseAt(sight)) && OutcomeFor(CauseAt(sight)) == outcome
  {
  }

  /**
   In every run, a step of a mirroring pass ends it Terminal, Recoverable, Synced, Pending or Suspended
   exactly at the sights that call for it, with the requeue that goes with the outcome.
   */
  lemma OutcomeIffLeads(op: Operator, identity: string, a: Assumptions, s: State, labels: seq<Label>, l: Label,
                        outcome: C.Outcome)
    requires s.pass.Idle? && Run(op, identity, a, s, labels)
    requires Mirrors(Exec(op, s, labels), l) && Possible(op, Exec(op, s, labels), l)
    ensures var now := Exec(op, s, labels);
            var judged := Judged(Before(now, l), Step(op, now, l).pass);
            && (judged.Some? && judged.value.outcome == outcome <==> Leads(op, Seen(op, now, l), outcome))
            && (judged.Some? && judged.value.outcome == outcome ==>
                  judged.value.requeueAfter == RequeueOn(op, Acting(now, l).spec, outcome))
  {
    var now := Exec(op, s, labels);
    var sight, judged := Seen(op, now, l), Judged(Before(now, l), Step(op, now, l).pass);
    EndsBecause(op, identity, a, s, labels, l, CauseAt(sight));
    if judged.Some? {
      EndsBecause(op, identity, a, s, labels, l, judged.value.cause.value);
      CauseLeads(op, sight, judged.value.cause.value);
    }
    if Leads(op, sight, outcome) {
      LeadsByACause(op, sight, outcome);
    }
  }

  /** The provider config did not resolve, a request went unanswered, or a conflict came with no match. */
  predicate LeavesOpen(p: Pass, fate: Fate)
    requires p.Running?
  {
    match fate
    case ResolveFate(err) => err.Some?
    case ListFate(Err(err)) => KindOf(err).OutOfReach?
    case ListFate(Ok(ids)) => p.pc.FindConflict? && |ids| == 0
    case PostFate(wire, _) => p.copy.spec.body.Ok? && wire.NoAnswer?
    case ReadFate(err) => err.Some? && KindOf(err.value).OutOfReach?
    case PutFate(err, _) => err.Some? && KindOf(err.value).OutOfReach?
    case _ => false
  }

  lemma OpenEnds(op: Operator, s: State, fate: Fate, next: Pass)
    requires Mirrors(s, Effect(fate)) && JudgesRightly(op, s, Effect(fate), next) && LeavesOpen(s.pass, fate)
    ensures var judged := Judged(s.pass.before, next);
            && judged.Some? && judged.value.outcome.Recoverable?
            && judged.value.requeueAfter == RetryInterval(op, s.pass.copy.spec)
            && judged.value.id == s.pass.copy.status.id && judged.value.hash == s.pass.copy.status.observedHash
            && judged.value.generation == s.pass.copy.generation
  {
    assert Because(op, Seen(op, s, Effect(fate)), CauseAt(Seen(op, s, Effect(fate))));
  }

  /** What stays open is tried again after the retry interval, and nothing recorded is lost over it. */
  lemma OpenEndsAreRetried(op: Operator, identity: string, a: Assumptions, s: State, labels: seq<Label>, fate: Fate)
    requires s.pass.Idle? && Run(op, identity, a, s, labels)
    requires var now := Exec(op, s, labels);
             Mirrors(now, Effect(fate)) && Possible(op, now, Effect(fate)) && LeavesOpen(now.pass, fate)
    ensures var p := Exec(op, s, labels).pass;
            var judged := Judged(p.before, Step(op, Exec(op, s, labels), Effect(fate)).pass);
            && judged.Some? && judged.value.outcome.Recoverable?
            && judged.value.requeueAfter == RetryInterval(op, p.copy.spec)
            && judged.value.id == p.copy.status.id && judged.value.hash == p.copy.status.observedHash
            && judged.value.generation == p.copy.generation
  {
    var now := Exec(op, s, labels);
    A.RunKeeps(op, identity, a, s, labels);
    StepJudges(op, a, labels, now, Effect(fate));
    OpenEnds(op, now, fate, Step(op, now, Effect(fate)).pass);
  }

  lemma CreatedEnds(op: Operator, s: State, wire: T.Wire, landing: Landing, next: Pass)
    requires Mirrors(s, Effect(PostFate(wire, landing))) && s.pass.copy.spec.body.Ok? && NamesId(wire)
    requires JudgesRightly(op, s, Effect(PostFate(wire, landing)), next)
    ensures Judged(s.pass.before, next) ==
            Some(Judgement(C.Synced, Some(C.Created), C.Fixed, s.pass.generation, T.IdIn(wire.body), s.pass.hash,
                           Interval(op, s.pass.copy.spec)))
  {
    assert Because(op, Seen(op, s, Effect(PostFate(wire, landing))), C.Created);
  }

  lemma GoneEnds(op: Operator, s: State, err: E.Error, next: Pass)
    requires Mirrors(s, Effect(ReadFate(Some(err)))) && E.FirstReason(err) == Some(E.NotFound)
    requires JudgesRightly(op, s, Effect(ReadFate(Some(err))), next)
    ensures Judged(s.pass.before, next) ==
            Some(Judgement(C.Pending, Some(C.PendingCause), C.Fixed, s.pass.copy.generation, "", "", 1_000_000_000))
  {
    assert Because(op, Seen(op, s, Effect(ReadFate(Some(err)))), C.PendingCause);
  }

  /** A create that names an id ends in sync under that id. */
  lemma CreatedIsInSync(op: Operator, identity: string, a: Assumptions, s: State, labels: seq<Label>, wire: T.Wire,
                        landing: Landing)
    requires s.pass.Idle? && Run(op, identity, a, s, labels)
    requires Possible(op, Exec(op, s, labels), Effect(PostFate(wire, landing)))
    requires Exec(op, s, labels).pass.copy.spec.body.Ok? && NamesId(wire)
    ensures var p := Exec(op, s, labels).pass;
            Judged(p.before, Step(op, Exec(op, s, labels), Effect(PostFate(wire, landing))).pass) ==
            Some(Judgement(C.Synced, Some(C.Created), C.Fixed, p.generation, T.IdIn(wire.body), p.hash,
                           Interval(op, p.copy.spec)))
  {
    var now, l := Exec(op, s, labels), Effect(PostFate(wire, landing));
    A.RunKeeps(op, identity, a, s, labels);
    StepJudges(op, a, labels, now, l);
    CreatedEnds(op, now, wire, landing, Step(op, now, l).pass);
  }

  /** A read that finds nothing forgets the id and the hash, to create the object again. */
  lemma GoneIsPending(op: Operator, identity: string, a: Assumptions, s: State, labels: seq<Label>, err: E.Error)
    requires s.pass.Idle? && Run(op, identity, a, s, labels)
    requires Possible(op, Exec(op, s, labels), Effect(ReadFate(Some(err)))) && IsNotFound(Some(err))
    ensures var p := Exec(op, s, labels).pass;
            Judged(p.before, Step(op, Exec(op, s, labels), Effect(ReadFate(Some(err)))).pass) ==
            Some(Judgement(C.Pending, Some(C.PendingCause), C.Fixed, p.copy.generation, "", "", 1_000_000_000))
  {
    var now, l := Exec(op, s, labels), Effect(ReadFate(Some(err)));
    A.RunKeeps(op, identity, a, s, labels);
    StepJudges(op, a, labels, now, l);
    GoneEnds(op, now, err, Step(op, now, l).pass);
  }

  /******* Passes that go on *******/

  /** The server, or the rendering, says that the object is there already. */
  predicate Conflicted(spec: Spec, wire: T.Wire) {
    match spec.body
    case Err(err) => E.FirstReason(err) == Some(E.AlreadyExists)
    case Ok(_) => wire.Answer? && wire.status == 409 && !wire.body.Oversized? && !wire.body.CutShort?
  }

  lemma ErrorEnds(op: Operator, p: Pass, err: E.Error)
    requires p.Running?
    ensures AdapterError(op, p, err).Running? ==> AdapterError(op, p, err).pc.SaveStatus?
  {
  }

  /** A create is followed by a second lookup exactly on a conflict; nothing else about the pass changes. */
  lemma LooksAgainIffConflicted(op: Operator, s: State, wire: T.Wire, landing: Landing)
    requires s.pass.Running? && s.pass.pc.Post?
    ensures var next := PostStep(op, s, wire, landing).pass;
            && (next.Running? && next.pc.FindConflict? <==> Conflicted(s.pass.copy.spec, wire))
            && (Conflicted(s.pass.copy.spec, wire) ==> next == s.pass.(pc := FindConflict))
  {
    T.ConflictIffUsable409(RenderError(s.pass.copy.spec), wire);
    if T.Create(RenderError(s.pass.copy.spec), wire).Err? {
      ErrorEnds(op, s.pass, T.Create(RenderError(s.pass.copy.spec), wire).error);
    }
  }

  /** An update is sent exactly for drift that can be sent, and it carries the updatable fields of the body. */
  lemma SendsIffDrifted(op: Operator, p: Pass, body: Json, remote: Json)
    requires p.Running? && p.pc.Read? && p.copy.spec.body == Ok(body)
    ensures var next, sight := OnRead(op, p, Ok(remote)), Comparison(op, p, remote);
            && (next.Running? && next.pc.PutBody? <==> Comparable(sight) && Drifted(sight) && sight.sendable)
            && (next.Running? && next.pc.PutBody? ==>
                  next == p.(pc := PutBody(JsonUpdate.Projection(body, op.updatable))))
  {
  }

  /** A pass goes beyond its start exactly with a usable spec, and remembers what it derived from it. */
  lemma ResolvesIffUsable(op: Operator, r: Resource)
    ensures var next := Reconcile(op, r);
            && (next.Running? && next.pc.Resolve? <==> !r.spec.suspend && !Unusable(op, r.spec))
            && (next.Running? && next.pc.Resolve? ==>
                  next == Running(r, r.status, op.identityOf(r.spec.body.value),
                                  op.hashOf(r.spec.body.value).value, r.generation, Resolve))
  {
  }

  /**
   A patch touches the annotation only. Its reply brings what is stored into memory, edits of the spec
   included, while identity, hash and generation stay from before; a missing reply fails the pass.
   */
  lemma PatchBringsWhatIsStored(op: Operator, s: State, write: Write)
    requires s.pass.Running? && IsPatch(s.pass.pc) && CanMeet(op, s, WriteFate(write))
    ensures var p, next := s.pass, WriteStep(op, s, write);
            && (!write.Rejected? ==>
                  next.kube == Collected(s.kube.value.(version := s.kube.value.version + 1,
                                                       attempt := p.pc.MarkCreate? || p.pc.MarkAdopt?)))
            && (write.Rejected? ==> next.kube == s.kube)
            && (write.Applied? ==>
                  var stored := s.kube.value.(version := s.kube.value.version + 1,
                                              attempt := p.pc.MarkCreate? || p.pc.MarkAdopt?);
                  next.pass ==
                  if p.pc.ClearRejected? then AdapterError(op, p.(copy := stored), p.pc.err)
                  else if p.pc.MarkCreate? then p.(copy := stored, pc := Post)
                  else if p.pc.MarkAdopt? then
                    p.(copy := stored.(status := stored.status.(id := p.pc.id)), pc := Read)
                  else p.(copy := stored, pc := Read))
            && (!write.Applied? ==> next.pass in {Idle(FAILED), p.(pc := SaveStatus(FAILED))})
  {
  }

  /******* Deletion *******/

  /** The finalizer goes at once, without a provider config, exactly when there is nothing to reclaim. */
  lemma UnresolvedIffNothingToReclaim(op: Operator, r: Resource)
    requires r.deleting && r.finalizer
    ensures var next := Begin(op, r);
            && next.Running? && next.copy == r
            && (next.pc.DropFinalizer? <==> r.spec.orphan || (r.status.id == "" && !r.attempt))
            && (next.pc.FinalResolve? <==> !r.spec.orphan && (r.status.id != "" || r.attempt))
  {
  }

  /** The reply settles that nothing is left: no name to look by, no match, or a delete that left nothing. */
  predicate LeavesNothing(op: Operator, p: Pass, fate: Fate)
    requires p.Running?
  {
    match fate
    case ResolveFate(err) => err.None? && p.copy.status.id == "" && Identity(op, p.copy.spec).Err?
    case ListFate(found) => found.Ok? && found.value == []
    case DeleteFate(err, _) => err.None? || KindOf(err.value).Gone?
    case _ => false
  }

  /** The one object to delete. */
  function Doomed(p: Pass, fate: Fate): Option<string>
    requires p.Running?
  {
    match fate
    case ResolveFate(None) => if p.copy.status.id != "" then Some(p.copy.status.id) else None
    case ListFate(Ok(ids)) => if |ids| == 1 then Some(ids[0]) else None
    case _ => None
  }

  /**
   While finalizing, a reply that leaves nothing lets the finalizer go, one that names the object leads to
   its delete, one that leaves the name to look by leads to the lookup, and all else waits and retries.
   */
  lemma FinalizingWaits(op: Operator, s: State, fate: Fate)
    requires s.pass.Running? && IsFinal(s.pass.pc) && CanMeet(op, s, fate) && !fate.WriteFate?
    ensures var p, next := s.pass, EffectStep(op, s, fate).pass;
            if LeavesNothing(op, p, fate) then next == p.(pc := DropFinalizer)
            else if Doomed(p, fate).Some? then next == p.(pc := FinalDelete(Doomed(p, fate).value))
            else if fate == ResolveFate(None) then next == p.(pc := FinalFind)
            else next == Idle(Ended(RetryInterval(op, p.copy.spec), false))
  {
  }
}
