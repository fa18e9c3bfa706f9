/**
 Which body the recorded hash belongs to. A reply backs the hash a pass records from it exactly when
 that is still the hash of the body in memory and something was sent or compared clean; runs in which
 every recording reply is of that kind leave no durable hash unbacked.
 */
module RecordedHash {
  import opened Common
  import opened JsonTree
  import opened Protocol
  import opened History
  import JsonCompare
  import JsonUpdate
  import E = Errors
  import T = Transport

  /** SigNoz accepted a body of this hash for the id, or a comparison of it with the object found nothing. */
  predicate Backs(op: Operator, e: Event, id: string, hash: string) {
    match e
    case Named(at, body) => at == id && op.hashOf(body) == Ok(hash)
    case Replaced(at, body) => at == id && op.hashOf(body) == Ok(hash)
    case Agreed(at, body) => at == id && op.hashOf(body) == Ok(hash)
    case _ => false
  }

  ghost predicate Backed(op: Operator, log: Log, id: string, hash: string) {
    exists i | 0 <= i < |log| :: Backs(op, log[i], id, hash)
  }

  lemma BackedGrows(op: Operator, log: Log, more: Log, id: string, hash: string)
    ensures Backed(op, log + more, id, hash) <==> Backed(op, log, id, hash) || Backed(op, more, id, hash)
  {
    var all := log + more;
    if Backed(op, log, id, hash) {
      var i :| 0 <= i < |log| && Backs(op, log[i], id, hash);
      assert Backs(op, all[i], id, hash);
    }
    if Backed(op, more, id, hash) {
      var i :| 0 <= i < |more| && Backs(op, more[i], id, hash);
      assert Backs(op, all[|log| + i], id, hash);
    }
  }

  /******* One reply *******/

  /** The comparison a read leads to. */
  function ComparedTo(op: Operator, p: Pass, remote: Json): JsonCompare.CompareResult
    requires p.Running? && p.copy.spec.body.Ok?
  {
    JsonCompare.Compare(op.align, p.copy.spec.body.value, remote, op.updatable, op.immutable)
  }

  /** The pass records its hash straight from this read: it is in sync, or has nothing to send. */
  predicate ReadRecords(op: Operator, p: Pass, remote: Json)
    requires p.Running?
  {
    p.copy.spec.body.Ok? &&
    var c := ComparedTo(op, p, remote);
    && c.immutable == []
    && ((c.updatable == [] && (p.copy.status.observedHash == "" || p.copy.status.observedHash == p.hash))
        || JsonUpdate.Projection(p.copy.spec.body.value, op.updatable) == map[])
  }

  /** The pass records its hash from this reply. */
  predicate Records(op: Operator, s: State, fate: Fate)
    requires s.pass.Running? && CanMeet(op, s, fate)
  {
    match fate
    case PostFate(wire, _) => T.Create(RenderError(s.pass.copy.spec), wire).Ok?
    case PutFate(err, _) => err.None?
    case ReadFate(err) => err.None? && ReadRecords(op, s.pass, s.remote.live[s.pass.copy.status.id].body)
    case _ => false
  }

  /** The id it is recorded with. */
  function RecordedId(op: Operator, s: State, fate: Fate): string
    requires s.pass.Running? && CanMeet(op, s, fate) && Records(op, s, fate)
  {
    if fate.PostFate? then T.Create(RenderError(s.pass.copy.spec), fate.wire).value else s.pass.copy.status.id
  }

  /**
   The hash taken at the start of the pass is the hash of the body in memory when the request is made,
   and the request is a POST, a PUT, or a read whose comparison finds nothing.
   */
  predicate Current(op: Operator, s: State, fate: Fate)
    requires s.pass.Running? && CanMeet(op, s, fate)
  {
    var p := s.pass;
    && Hash(op, p.copy.spec) == Ok(p.hash)
    && match fate
       case PostFate(_, _) => true
       case PutFate(_, _) => true
       case ReadFate(err) =>
         err.None? && ComparedTo(op, p, s.remote.live[p.copy.status.id].body) == JsonCompare.CompareResult([], [])
       case _ => false
  }

  /** A reply backs the hash recorded from it exactly when that hash is current. */
  lemma ReplyBacksIffCurrent(op: Operator, s: State, fate: Fate)
    requires s.pass.Running? && CanMeet(op, s, fate) && Records(op, s, fate)
    ensures Backed(op, NewEvents(op, s, fate), RecordedId(op, s, fate), s.pass.hash) <==> Current(op, s, fate)
  {
    var p, events := s.pass, NewEvents(op, s, fate);
    match fate
    case PostFate(wire, _) => assert p.copy.spec.body.Ok? ==> events == [Posted, events[1]];
    case PutFate(_, _) => assert p.copy.spec.body.Ok? ==> events == [PutSent(p.copy.status.id), events[1]];
    case ReadFate(_) =>
      assert events != [] ==> events == [Agreed(p.copy.status.id, p.copy.spec.body.value)];
      assert Current(op, s, fate) ==> Backs(op, events[0], p.copy.status.id, p.hash);
    case _ =>
  }

  /** The later status holds the id and hash of the earlier one, or no hash. */
  predicate Carries(later: Status, earlier: Status) {
    later.observedHash == "" || (later.id == earlier.id && later.observedHash == earlier.observedHash)
  }

  lemma ErrorCarries(op: Operator, p: Pass, err: E.Error)
    requires p.Running?
    ensures AdapterError(op, p, err).Running? ==> Carries(AdapterError(op, p, err).copy.status, p.copy.status)
  {
  }

  lemma ReadSetsTheHash(op: Operator, p: Pass, remote: Json)
    requires p.Running?
    ensures var next := OnRead(op, p, Ok(remote));
            next.Running? ==>
              if ReadRecords(op, p, remote) then next.copy.status.id == p.copy.status.id &&
                  next.copy.status.observedHash == p.hash
              else Carries(next.copy.status, p.copy.status)
  {
  }

  lemma FindCarries(op: Operator, p: Pass, found: Result<seq<string>, E.Error>)
    requires p.Running?
    ensures AfterFind(op, p, found).Running? ==> Carries(AfterFind(op, p, found).copy.status, p.copy.status)
    ensures AfterFinalFind(op, p, found).Running? ==> Carries(AfterFinalFind(op, p, found).copy.status, p.copy.status)
  {
    if found.Err? {
      ErrorCarries(op, p, found.error);
    }
  }

  lemma CreateSetsTheHash(op: Operator, p: Pass, created: Result<string, E.Error>)
    requires p.Running?
    ensures var next := OnCreated(op, p, created);
            next.Running? ==>
              if created.Ok? then next.copy.status.id == created.value && next.copy.status.observedHash == p.hash
              else Carries(next.copy.status, p.copy.status)
  {
    if created.Err? {
      ErrorCarries(op, p, created.error);
    }
  }

  /** No other effect but a write can change the hash in memory, except to drop it. */
  lemma OnlyRecordingSetsTheHash(op: Operator, s: State, fate: Fate)
    requires s.pass.Running? && CanMeet(op, s, fate) && !fate.WriteFate?
    ensures var next := EffectStep(op, s, fate).pass;
            next.Running? ==>
              if Records(op, s, fate) then
                next.copy.status.id == RecordedId(op, s, fate) && next.copy.status.observedHash == s.pass.hash
              else Carries(next.copy.status, s.pass.copy.status)
  {
    var p := s.pass;
    match fate
    case ListFate(found) => FindCarries(op, p, found);
    case PostFate(wire, _) => CreateSetsTheHash(op, p, T.Create(RenderError(p.copy.spec), wire));
    case ReadFate(err) =>
      if err.None? {
        ReadSetsTheHash(op, p, s.remote.live[p.copy.status.id].body);
      } else {
        ErrorCarries(op, p, err.value);
      }
    case PutFate(err, _) => if err.Some? { ErrorCarries(op, p, err.value); }
    case _ =>
  }

  /******* Whole runs *******/

  /** The hash is backed, or the resource had recorded it with this id before the run. */
  ghost predicate Sound(op: Operator, first: Status, log: Log, status: Status) {
    status.observedHash != "" ==>
      || Backed(op, log, status.id, status.observedHash)
      || (status.id == first.id && status.observedHash == first.observedHash)
  }

  ghost predicate HashInv(op: Operator, first: Status, s: State) {
    && (s.kube.Some? ==> Sound(op, first, s.log, s.kube.value.status))
    && (s.pass.Running? ==> Sound(op, first, s.log, s.pass.copy.status))
  }

  /** In every recording reply of the run the hash was current. */
  ghost predicate HashesCurrent(op: Operator, s: State, labels: seq<Label>) {
    if labels == [] then true
    else
      var last := |labels| - 1;
      var now := Exec(op, s, labels[..last]);
      HashesCurrent(op, s, labels[..last]) && StepIsCurrent(op, now, labels[last])
  }

  predicate StepIsCurrent(op: Operator, s: State, l: Label) {
    l.Effect? && Possible(op, s, l) && Records(op, s, l.fate) ==> Current(op, s, l.fate)
  }

  lemma ReconcileCarries(op: Operator, r: Resource)
    ensures Reconcile(op, r).Running? ==> Carries(Reconcile(op, r).copy.status, r.status)
    ensures Begin(op, r).Running? ==> Carries(Begin(op, r).copy.status, r.status)
  {
  }

  lemma StoredCarries(op: Operator, p: Pass, r: Resource)
    requires p.Running? && (IsPatch(p.pc) || p.pc.AddFinalizer?)
    requires p.pc.MarkAdopt? ==> r.status.observedHash == ""
    ensures var next := AfterWrite(op, p, Some(Stored(p, r)));
            next.Running? ==> Carries(next.copy.status, r.status)
  {
    ReconcileCarries(op, Stored(p, r));
    if p.pc.ClearRejected? {
      ErrorCarries(op, p.(copy := Stored(p, r)), p.pc.err);
    }
  }

  lemma CarriedIsSound(op: Operator, first: Status, log: Log, more: Log, later: Status, earlier: Status)
    requires Sound(op, first, log, earlier) && Carries(later, earlier)
    ensures Sound(op, first, log + more, later)
  {
    BackedGrows(op, log, more, earlier.id, earlier.observedHash);
  }

  lemma WriteKeepsHashes(op: Operator, identity: string, a: Assumptions, first: Status, s: State, write: Write)
    requires HistoryInv(op, identity, a, first, s) && Orderly(first) && HashInv(op, first, s) && s.pass.Running? &&
             CanMeet(op, s, WriteFate(write))
    ensures HashInv(op, first, WriteStep(op, s, write))
  {
    var p := s.pass;
    if write.Applied? && (IsPatch(p.pc) || p.pc.AddFinalizer?) {
      StoredCarries(op, p, s.kube.value);
      var next := AfterWrite(op, p, Some(Stored(p, s.kube.value)));
      if next.Running? {
        CarriedIsSound(op, first, s.log, [], next.copy.status, s.kube.value.status);
        assert s.log + [] == s.log;
      }
    }
  }

  lemma EffectKeepsHashes(op: Operator, identity: string, a: Assumptions, first: Status, s: State, fate: Fate)
    requires HistoryInv(op, identity, a, first, s) && Orderly(first) && HashInv(op, first, s) && s.pass.Running? &&
             CanMeet(op, s, fate)
    requires Records(op, s, fate) ==> Current(op, s, fate)
    ensures HashInv(op, first, EffectStep(op, s, fate))
  {
    if fate.WriteFate? {
      WriteKeepsHashes(op, identity, a, first, s, fate.write);
    } else {
      var next, more := EffectStep(op, s, fate), NewEvents(op, s, fate);
      NewEventsAreNew(op, s, fate);
      OnlyRecordingSetsTheHash(op, s, fate);
      if next.kube.Some? {
        CarriedIsSound(op, first, s.log, more, next.kube.value.status, s.kube.value.status);
      }
      if next.pass.Running? {
        if Records(op, s, fate) {
          ReplyBacksIffCurrent(op, s, fate);
          BackedGrows(op, s.log, more, RecordedId(op, s, fate), s.pass.hash);
        } else {
          CarriedIsSound(op, first, s.log, more, next.pass.copy.status, s.pass.copy.status);
        }
      }
    }
  }

  lemma StepKeepsHashes(op: Operator, identity: string, a: Assumptions, first: Status, s: State, l: Label)
    requires HistoryInv(op, identity, a, first, s) && Orderly(first) && HashInv(op, first, s) && Possible(op, s, l) &&
             StepIsCurrent(op, s, l)
    ensures HashInv(op, first, Step(op, s, l))
  {
    match l
    case Effect(fate) => EffectKeepsHashes(op, identity, a, first, s, fate);
    case BeginPass =>
      ReconcileCarries(op, s.kube.value);
      assert s.log + [] == s.log;
      if Begin(op, s.kube.value).Running? {
        CarriedIsSound(op, first, s.log, [], Begin(op, s.kube.value).copy.status, s.kube.value.status);
      }
    case _ =>
  }

  lemma {:induction false} RunKeepsHashes(op: Operator, identity: string, a: Assumptions, s: State, labels: seq<Label>)
    requires Start(op, identity, a, s) && Orderly(s.kube.value.status) && Run(op, identity, a, s, labels)
    requires HashesCurrent(op, s, labels)
    ensures HashInv(op, s.kube.value.status, Exec(op, s, labels))
  {
    if labels != [] {
      var last := |labels| - 1;
      RunKeepsHashes(op, identity, a, s, labels[..last]);
      RunKeeps(op, identity, a, s, labels[..last]);
      StepKeepsHashes(op, identity, a, s.kube.value.status, Exec(op, s, labels[..last]), labels[last]);
    }
  }

  /**
   The durable status never comes to hold a hash without an id. When every recording reply was current,
   the hash is that of a body SigNoz accepted for that id or that compared clean with its object, unless
   the two were recorded before the run.
   */
  lemma RecordedHashBelongs(op: Operator, identity: string, a: Assumptions, s: State, labels: seq<Label>)
    requires Start(op, identity, a, s) && Orderly(s.kube.value.status) && Run(op, identity, a, s, labels)
    requires Exec(op, s, labels).kube.Some? && Exec(op, s, labels).kube.value.status.observedHash != ""
    ensures var now := Exec(op, s, labels);
            var status := now.kube.value.status;
            status.id != "" && (HashesCurrent(op, s, labels) ==> Sound(op, s.kube.value.status, now.log, status))
  {
    RunKeeps(op, identity, a, s, labels);
    if HashesCurrent(op, s, labels) {
      RunKeepsHashes(op, identity, a, s, labels);
    }
  }

  /******* Steady runs *******/

  predicate Hashed(pc: PC) {
    !pc.AddFinalizer? && !pc.SaveStatus? && !IsFinal(pc)
  }

  /** Without edits under a pass, the hash it took stays the hash of the body in memory. */
  predicate SteadyInv(op: Operator, pass: Pass) {
    pass.Running? && Hashed(pass.pc) ==> Hash(op, pass.copy.spec) == Ok(pass.hash)
  }

  lemma WriteKeepsSteady(op: Operator, p: Pass, r: Resource)
    requires p.Running? && SteadyInv(op, p) && r.spec.body == p.copy.spec.body
    ensures SteadyInv(op, AfterWrite(op, p, Some(Stored(p, r))))
    ensures SteadyInv(op, AfterWrite(op, p, None))
  {
  }

  lemma ReadKeepsSteady(op: Operator, p: Pass, got: Result<Json, E.Error>)
    requires p.Running? && p.pc.Read? && SteadyInv(op, p)
    ensures SteadyInv(op, OnRead(op, p, got))
  {
  }

  lemma EffectKeepsSteady(op: Operator, a: Assumptions, s: State, fate: Fate)
    requires a.steady && s.pass.Running? && SteadyInv(op, s.pass) && CanMeet(op, s, fate) && FateAssumed(op, a, s, fate)
    ensures SteadyInv(op, EffectStep(op, s, fate).pass)
  {
    var p := s.pass;
    match fate
    case WriteFate(write) => if s.kube.Some? && write.Applied? { WriteKeepsSteady(op, p, s.kube.value); }
    case ReadFate(err) => ReadKeepsSteady(op, p, if err.Some? then Err(err.value)
                                          else Ok(s.remote.live[p.copy.status.id].body));
    case _ =>
  }

  lemma StepKeepsSteady(op: Operator, identity: string, a: Assumptions, s: State, l: Label)
    requires a.steady && SteadyInv(op, s.pass) && Possible(op, s, l) && Assumed(op, identity, a, s, l)
    ensures SteadyInv(op, Step(op, s, l).pass)
  {
    match l
    case Effect(fate) => EffectKeepsSteady(op, a, s, fate);
    case _ =>
  }

  lemma SteadyStepIsCurrent(op: Operator, identity: string, a: Assumptions, first: Status, s: State, l: Label)
    requires a.payload && HistoryInv(op, identity, a, first, s) && SteadyInv(op, s.pass)
    ensures StepIsCurrent(op, s, l)
  {
  }

  /** Steady runs with payloads are current throughout. */
  lemma {:induction false} SteadyRunsAreCurrent(op: Operator, identity: string, a: Assumptions, s: State,
                                                labels: seq<Label>)
    requires a.steady && a.payload && Start(op, identity, a, s) && Run(op, identity, a, s, labels)
    ensures HashesCurrent(op, s, labels) && SteadyInv(op, Exec(op, s, labels).pass)
  {
    if labels != [] {
      var last := |labels| - 1;
      SteadyRunsAreCurrent(op, identity, a, s, labels[..last]);
      RunKeeps(op, identity, a, s, labels[..last]);
      SteadyStepIsCurrent(op, identity, a, s.kube.value.status, Exec(op, s, labels[..last]), labels[last]);
      StepKeepsSteady(op, identity, a, Exec(op, s, labels[..last]), labels[last]);
    }
  }
}
