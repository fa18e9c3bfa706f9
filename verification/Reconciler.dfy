/**
 The reconciler as it is written: methods that update the object in memory and issue their effects in
 order (internal/resources/reconcilers/common_reconciler.go), proved to take exactly the steps of
 the machine in module Protocol, whatever everyone else does in between.
 */
module Reconciler {
  import opened Common
  import opened JsonTree
  import opened Protocol
  import opened Cluster
  import P = Protocol
  import JsonCompare
  import JsonUpdate
  import PathReporting
  import E = Errors
  import C = Conditions
  import Safety

  lemma UpdatedFromAnyEffect(op: Operator, p: Pass, pc: PC)
    requires p.Running?
    ensures OnUpdated(op, p.(pc := pc)) == OnUpdated(op, p)
  {
  }

  class CommonReconciler {
    const op: Operator
    const world: World

    constructor (world: World)
      ensures this.world == world && op == world.op
    {
      this.world, op := world, world.op;
    }

    ghost predicate Valid()
      reads world
    {
      world.op == op && world.Valid()
    }

    /** The machine waits for this effect, with the object in memory as its copy. */
    ghost predicate At(obj: Object, pass: Pass)
      reads world, obj, obj.status
    {
      Valid() && world.now.pass == pass && pass.Running? && obj.Value() == pass.copy
    }

    /** The inner reconcile has returned: the machine wants exactly what Reconcile does with its result. */
    ghost predicate Returned(obj: Object, before: Status, end: Ended)
      reads world, obj, obj.status
    {
      var pass := world.now.pass;
      && Valid()
      && if obj.StatusValue() == before then pass == Idle(end)
         else pass.Running? && pass.pc == SaveStatus(end) && Same(obj.Value(), pass.copy)
    }

    /** SetConditionsOnOutcome, and the result to return with it. */
    method Conclude(obj: Object, ghost p: Pass, generation: int, outcome: C.Outcome, cause: C.Cause, message: C.Message,
                    result: Ended)
      returns (end: Ended)
      requires Valid() && p.Running? && Same(obj.Value(), p.copy.(status := obj.StatusValue()))
      requires world.now.pass == Finish(p, Say(obj.StatusValue(), generation, outcome, cause, message), result)
      modifies obj.status
      ensures Returned(obj, p.before, end)
    {
      obj.status.SetConditionsOnOutcome(generation, outcome, cause, message);
      return result;
    }

    method Reconcile(obj: Object) returns (end: Ended)
      requires Valid() && world.now.pass == Begin(op, obj.Value())
      modifies world, obj, obj.status
      ensures Valid() && world.Grown()
      ensures world.now.pass == Idle(end)
    {
      if obj.deleting {
        end := Finalize(obj);
        return;
      }
      var added := AddFinalizer(obj);
      if !added {
        return FAILED;
      }
      var beforeStatus := obj.StatusValue();
      end := ReconcileLive(obj);
      if obj.StatusValue() != beforeStatus {
        var saved := world.UpdateStatus(obj);
        if !saved {
          return FAILED;
        }
      }
    }

    method ReconcileLive(obj: Object) returns (end: Ended)
      requires Valid() && world.now.pass == P.Reconcile(op, obj.Value())
      modifies world, obj, obj.status
      ensures world.Grown()
      ensures Returned(obj, old(obj.StatusValue()), end)
    {
      var generation := obj.generation;
      ghost var p := Running(obj.Value(), obj.StatusValue(), "", "", generation, Resolve);
      if obj.spec.suspend {
        end := Conclude(obj, p, generation, C.Suspended, C.SuspendedCause, C.Fixed, DONE);
        return;
      }
      var identity := Identity(op, obj.spec);
      if identity.Err? {
        end := Conclude(obj, p, generation, C.Terminal, C.InvalidSpec, C.NoIdentity(identity.error), DONE);
        return;
      }
      var hash := Hash(op, obj.spec);
      if hash.Err? {
        end := Conclude(obj, p, generation, C.Terminal, C.InvalidSpec, C.NoHash(hash.error), DONE);
        return;
      }
      end := ReconcileIdentified(obj, identity.value, hash.value);
    }

    /** The rest of it, for an object that has an identity and a hash. */
    method ReconcileIdentified(obj: Object, identity: string, hash: string) returns (end: Ended)
      requires At(obj, Running(obj.Value(), obj.StatusValue(), identity, hash, obj.generation, Resolve))
      modifies world, obj, obj.status
      ensures world.Grown()
      ensures Returned(obj, old(obj.StatusValue()), end)
    {
      var generation := obj.generation;
      var unresolved := world.ResolveRef(obj);
      if unresolved.Some? {
        end := Conclude(obj, old(world.now.pass), generation, C.Recoverable, C.ProviderConfigNotReady,
                        C.Quoting(unresolved.value), Ended(RetryInterval(op, obj.spec), false));
        return;
      }
      if obj.status.id == "" {
        end := OnNewObject(obj, identity, hash);
        return;
      }
      var cleared := RemoveCreateAttemptAnnotation(obj);
      if !cleared {
        return FAILED;
      }
      end := OnExistingObject(obj, hash);
    }

    method OnNewObject(obj: Object, identity: string, hash: string) returns (end: Ended)
      requires At(obj, Running(obj.Value(), obj.StatusValue(), identity, hash, obj.generation, FindNew))
      modifies world, obj, obj.status
      ensures world.Grown()
      ensures Returned(obj, old(obj.StatusValue()), end)
    {
      var candidates := world.Find(obj);
      if candidates.Err? {
        end := OnAdapterError(obj, old(world.now.pass), candidates.error);
        return;
      }
      var ids := candidates.value;
      if obj.pin != "" {
        var i := 0;
        while i < |ids| && ids[i] != obj.pin
          invariant 0 <= i <= |ids| && obj.pin !in ids[..i]
        {
          i := i + 1;
        }
        if i < |ids| {
          end := Adopt(obj, ids[i], hash);
          return;
        }
        assert ids[..i] == ids;
        end := Conclude(obj, old(world.now.pass), obj.generation, C.Terminal, C.IdMismatch,
                        C.NoMatchForPin(obj.pin, identity, ids), DONE);
        return;
      }
      if |ids| == 1 {
        end := Adopt(obj, ids[0], hash);
        return;
      }
      if |ids| == 0 {
        end := Create(obj, identity, hash);
        return;
      }
      end := Conclude(obj, old(world.now.pass), obj.generation, C.Terminal, C.AmbiguousCause,
                      C.Ambiguous(identity, ids), DONE);
    }

    method OnExistingObject(obj: Object, hash: string) returns (end: Ended)
      requires Valid() && world.now.pass.Running? && At(obj, world.now.pass)
      requires world.now.pass.pc.Read? && world.now.pass.hash == hash
      modifies world, obj, obj.status
      ensures world.Grown()
      ensures Returned(obj, old(world.now.pass.before), end)
    {
      var generation := obj.generation;
      var id := obj.status.id;
      var remote := world.Read(obj, id);
      if remote.Err? && E.ReasonForError(remote.error).NotFound? {
        obj.status.id := "";
        obj.status.observedHash := "";
        end := Conclude(obj, old(world.now.pass), generation, C.Pending, C.PendingCause, C.Fixed,
                        Ended(ON_NOT_FOUND, false));
        return;
      }
      if remote.Err? {
        end := OnAdapterError(obj, old(world.now.pass), remote.error);
        return;
      }
      if obj.spec.body.Err? {
        end := Conclude(obj, old(world.now.pass), generation, C.Terminal, C.CompareFailed,
                        C.Quoting(obj.spec.body.error), DONE);
        return;
      }
      var compared := PathReporting.CompareBodies(op.align, obj.spec.body.value, remote.value, op.updatable,
                                                  op.immutable);
      end := OnComparedObject(obj, old(world.now.pass), compared, hash);
    }

    /** The rest of OnExistingObject, once the comparison is at hand. */
    method OnComparedObject(obj: Object, ghost p: Pass, compared: JsonCompare.CompareResult, hash: string)
        returns (end: Ended)
      requires Valid() && p.Running? && p.pc.Read? && p.hash == hash && obj.Value() == p.copy && obj.spec.body.Ok?
      requires world.now.pass == OnCompared(op, p, obj.spec.body.value, compared)
      modifies world, obj, obj.status
      ensures world.Grown()
      ensures Returned(obj, p.before, end)
    {
      var generation := obj.generation;
      if |compared.immutable| > 0 {
        end := Conclude(obj, p, generation, C.Terminal, C.ImmutableFieldChanged,
                        C.ImmutableChanged(compared.immutable, op.immutable), DONE);
        return;
      }
      var isChangedByCompare := |compared.updatable| != 0;
      var isChangedByHash := obj.status.observedHash != "" && obj.status.observedHash != hash;
      if !isChangedByCompare && !isChangedByHash {
        obj.status.observedHash := hash;
        end := Conclude(obj, p, generation, C.Synced, C.SyncedCause, C.Fixed, Ended(Interval(op, obj.spec), false));
        return;
      }
      end := UpdateObject(obj, p, hash);
    }

    /** The pass before an update: without a payload it has ended already. */
    ghost function Updating(p: Pass, body: Json): Pass
      requires p.Running?
    {
      var sent := JsonUpdate.Projection(body, op.updatable);
      if sent == map[] then OnUpdated(op, p) else p.(pc := PutBody(sent))
    }

    /** And the update itself. */
    method UpdateObject(obj: Object, ghost p: Pass, hash: string) returns (end: Ended)
      requires Valid() && p.Running? && p.hash == hash && obj.Value() == p.copy && obj.spec.body.Ok?
      requires world.now.pass == Updating(p, obj.spec.body.value)
      modifies world, obj, obj.status
      ensures world.Grown()
      ensures Returned(obj, p.before, end)
    {
      var failed := Update(obj, p, obj.status.id);
      if failed.Some? {
        end := OnAdapterError(obj, old(world.now.pass), failed.value);
        return;
      }
      obj.status.observedHash := hash;
      end := Conclude(obj, p, obj.generation, C.Synced, C.Updated, C.Fixed, Ended(Interval(op, obj.spec), false));
    }

    /** adapter.Update: the fields to send, and no request at all when there are none. */
    method Update(obj: Object, ghost p: Pass, id: string) returns (failed: Option<E.Error>)
      requires Valid() && p.Running? && obj.Value() == p.copy && obj.spec.body.Ok? && id == obj.status.id
      requires world.now.pass == Updating(p, obj.spec.body.value)
      modifies world
      ensures Valid() && world.Grown()
      ensures failed.Some? ==>
                && old(world.now.pass).Running?
                && old(world.now.pass.copy) == p.copy && old(world.now.pass.before) == p.before
      ensures world.now.pass == if failed.Some? then AdapterError(op, old(world.now.pass), failed.value)
              else OnUpdated(op, p)
    {
      var payload := JsonUpdate.ExtractFields(obj.spec.body.value, op.updatable);
      if payload.None? {
        return None;
      }
      UpdatedFromAnyEffect(op, p, PutBody(payload.value.fields));
      failed := world.Put(obj, id, payload.value.fields);
    }

    method OnConflict(obj: Object, identity: string, hash: string) returns (end: Ended)
      requires Valid() && world.now.pass.Running? && At(obj, world.now.pass)
      requires world.now.pass.pc.FindConflict? && world.now.pass.identity == identity && world.now.pass.hash == hash
      modifies world, obj, obj.status
      ensures world.Grown()
      ensures Returned(obj, old(world.now.pass.before), end)
    {
      var candidates := world.Find(obj);
      if candidates.Err? {
        end := OnAdapterError(obj, old(world.now.pass), candidates.error);
        return;
      }
      var ids := candidates.value;
      if |ids| == 1 {
        end := Adopt(obj, ids[0], hash);
        return;
      }
      if |ids| == 0 {
        end := Conclude(obj, old(world.now.pass), obj.generation, C.Recoverable, C.BackendError, C.Conflict(identity),
                        Ended(RetryInterval(op, obj.spec), false));
        return;
      }
      end := Conclude(obj, old(world.now.pass), obj.generation, C.Terminal, C.AmbiguousCause,
                      C.Ambiguous(identity, ids), DONE);
    }

    method OnAdapterError(obj: Object, ghost p: Pass, err: E.Error) returns (end: Ended)
      requires Valid() && p.Running? && obj.Value() == p.copy && world.now.pass == AdapterError(op, p, err)
      modifies obj.status
      ensures Returned(obj, p.before, end)
    {
      var outcome := obj.status.SetConditionsOnErr(obj.generation, err);
      if outcome.Recoverable? {
        return Ended(RetryInterval(op, obj.spec), false);
      }
      return DONE;
    }

    method Create(obj: Object, identity: string, hash: string) returns (end: Ended)
      requires At(obj, Running(obj.Value(), obj.StatusValue(), identity, hash, obj.generation, MarkCreate))
      modifies world, obj, obj.status
      ensures world.Grown()
      ensures Returned(obj, old(obj.StatusValue()), end)
    {
      var generation := obj.generation;
      var marked := AddCreateAttemptAnnotation(obj);
      if !marked {
        return FAILED;
      }
      end := CreateMarked(obj, identity, hash, generation);
    }

    /** The rest of Create, from the POST on. */
    method CreateMarked(obj: Object, identity: string, hash: string, generation: int) returns (end: Ended)
      requires At(obj, world.now.pass) && world.now.pass.pc.Post?
      requires world.now.pass.identity == identity && world.now.pass.hash == hash &&
               world.now.pass.generation == generation
      modifies world, obj, obj.status
      ensures world.Grown()
      ensures Returned(obj, old(world.now.pass.before), end)
    {
      var created := world.Create(obj);
      if created.Err? {
        end := OnCreateFailed(obj, old(world.now.pass), created.error, identity, hash);
        return;
      }
      obj.status.id := created.value;
      obj.status.observedHash := hash;
      end := Conclude(obj, old(world.now.pass), generation, C.Synced, C.Created, C.Fixed,
                      Ended(Interval(op, obj.spec), false));
    }

    /** The error branch of Create. */
    method OnCreateFailed(obj: Object, ghost p: Pass, err: E.Error, identity: string, hash: string) returns (end: Ended)
      requires Valid() && p.Running? && p.copy == obj.Value() && p.identity == identity && p.hash == hash
      requires world.now.pass == OnCreated(op, p, Err(err))
      modifies world, obj, obj.status
      ensures world.Grown()
      ensures Returned(obj, p.before, end)
    {
      if E.ReasonForError(err).AlreadyExists? {
        end := OnConflict(obj, identity, hash);
        return;
      }
      var cleared, q := ClearIfRejected(obj, p, err);
      if !cleared {
        return FAILED;
      }
      end := OnAdapterError(obj, q, err);
    }

    /** An error that no retry can fix means that nothing was created. */
    method ClearIfRejected(obj: Object, ghost p: Pass, err: E.Error) returns (cleared: bool, ghost q: Pass)
      requires Valid() && p.Running? && p.copy == obj.Value()
      requires world.now.pass == OnCreated(op, p, Err(err)) && !E.ReasonForError(err).AlreadyExists?
      modifies world, obj, obj.status
      ensures Valid() && world.Grown()
      ensures cleared ==>
                && q.Running? && q.before == p.before && q.copy == obj.Value()
                && world.now.pass == AdapterError(op, q, err)
      ensures !cleared ==> Returned(obj, p.before, FAILED)
    {
      cleared, q := true, p;
      if !E.IsRetryable(err) {
        if obj.attempt {
          q := world.now.pass;
        }
        cleared := RemoveCreateAttemptAnnotation(obj);
        q := q.(copy := obj.Value());
      }
    }

    method Adopt(obj: Object, id: string, hash: string) returns (end: Ended)
      requires Valid() && world.now.pass.Running? && At(obj, world.now.pass)
      requires world.now.pass.pc == MarkAdopt(id) && world.now.pass.hash == hash
      modifies world, obj, obj.status
      ensures world.Grown()
      ensures Returned(obj, old(world.now.pass.before), end)
    {
      var marked := AddCreateAttemptAnnotation(obj);
      if !marked {
        return FAILED;
      }
      obj.status.id := id;
      end := OnExistingObject(obj, hash);
    }

    method Finalize(obj: Object) returns (end: Ended)
      requires Valid() && world.now.pass == P.Finalize(obj.Value())
      modifies world, obj, obj.status
      ensures Valid() && world.Grown() && world.now.pass == Idle(end)
    {
      if !obj.finalizer {
        return DONE;
      }
      if obj.spec.orphan {
        end := RemoveFinalizer(obj);
        return;
      }
      var id := obj.status.id;
      if id == "" && !obj.attempt {
        end := RemoveFinalizer(obj);
        return;
      }
      var unresolved := world.ResolveRef(obj);
      if unresolved.Some? {
        return Ended(RetryInterval(op, obj.spec), false);
      }
      if id != "" {
        end := Reclaim(obj, id);
        return;
      }
      var identity := Identity(op, obj.spec);
      if identity.Err? {
        end := RemoveFinalizer(obj);
        return;
      }
      var found := world.Find(obj);
      if found.Err? {
        return Ended(RetryInterval(op, obj.spec), false);
      }
      if |found.value| == 0 {
        end := RemoveFinalizer(obj);
        return;
      }
      if |found.value| == 1 {
        end := Reclaim(obj, found.value[0]);
        return;
      }
      return Ended(RetryInterval(op, obj.spec), false);
    }

    method Reclaim(obj: Object, id: string) returns (end: Ended)
      requires Valid() && world.now.pass.Running? && At(obj, world.now.pass)
      requires world.now.pass.pc == FinalDelete(id) && obj.finalizer
      modifies world, obj, obj.status
      ensures Valid() && world.Grown() && world.now.pass == Idle(end)
    {
      var err := world.Delete(id);
      if err.Some? && !E.ReasonForError(err.value).NotFound? {
        return Ended(RetryInterval(op, obj.spec), false);
      }
      end := RemoveFinalizer(obj);
    }

    method AddFinalizer(obj: Object) returns (ok: bool)
      requires Valid() && world.now.pass == Begin(op, obj.Value()) && !obj.deleting
      modifies world, obj, obj.status
      ensures Valid() && world.Grown()
      ensures world.now.pass == if ok then P.Reconcile(op, obj.Value()) else Idle(FAILED)
    {
      if obj.finalizer {
        return true;
      }
      obj.finalizer := true;
      ok := world.Update(obj);
    }

    method RemoveFinalizer(obj: Object) returns (end: Ended)
      requires Valid() && world.now.pass.Running? && At(obj, world.now.pass)
      requires world.now.pass.pc.DropFinalizer? && obj.finalizer
      modifies world, obj, obj.status
      ensures Valid() && world.Grown() && world.now.pass == Idle(end)
    {
      obj.finalizer := false;
      var ok := world.Update(obj);
      return if ok then DONE else FAILED;
    }

    method AddCreateAttemptAnnotation(obj: Object) returns (ok: bool)
      requires Valid() && world.now.pass.Running? && At(obj, world.now.pass)
      requires world.now.pass.pc.MarkCreate? || world.now.pass.pc.MarkAdopt?
      modifies world, obj, obj.status
      ensures Valid() && world.Grown()
      ensures world.now.pass == AfterPatch(op, old(world.now.pass), if ok then Some(obj.Value()) else None)
      ensures !ok ==> Same(obj.Value(), old(obj.Value()))
    {
      obj.attempt := true;
      ok := world.Patch(obj);
    }

    /** No effect when the annotation is not there. */
    method RemoveCreateAttemptAnnotation(obj: Object) returns (ok: bool)
      requires Valid()
      requires obj.attempt ==>
                 world.now.pass.Running? && At(obj, world.now.pass) &&
                     (world.now.pass.pc.ClearAttempt? || world.now.pass.pc.ClearRejected?)
      modifies world, obj, obj.status
      ensures Valid() && world.Grown()
      ensures if old(obj.attempt) then
              world.now.pass == AfterPatch(op, old(world.now.pass), if ok then Some(obj.Value()) else None)
              else ok && world.now == old(world.now) && obj.Value() == old(obj.Value())
      ensures !ok ==> Same(obj.Value(), old(obj.Value()))
    {
      if !obj.attempt {
        return true;
      }
      obj.attempt := false;
      ok := world.Patch(obj);
    }
  }

  lemma {:induction false} EveryPrefixIsARun(op: Operator, identity: string, a: Assumptions, s: State,
                                             labels: seq<Label>, n: nat)
    requires Run(op, identity, a, s, labels) && n <= |labels|
    ensures Run(op, identity, a, s, labels[..n])
  {
    if n < |labels| {
      var last := |labels| - 1;
      EveryPrefixIsARun(op, identity, a, s, labels[..last], n);
      assert labels[..last][..n] == labels[..n];
    } else {
      assert labels[..n] == labels;
    }
  }

  /** No object of ours is out of sight. */
  ghost predicate SafeThroughout(op: Operator, s: State, labels: seq<Label>) {
    forall n: nat | n <= |labels| :: Safety.WrittenAhead(Exec(op, s, labels[..n]))
  }

  /** There is no second object of ours. */
  ghost predicate OneThroughout(op: Operator, s: State, labels: seq<Label>) {
    forall n: nat | n <= |labels| :: Safety.AtMostOneOurs(Exec(op, s, labels[..n]).remote)
  }

  /** None is left without the finalizer. */
  ghost predicate NoLeakThroughout(op: Operator, s: State, labels: seq<Label>) {
    forall n: nat | n <= |labels| :: Safety.Reclaimed(Exec(op, s, labels[..n]))
  }

  lemma RunsAreSafe(op: Operator, identity: string, a: Assumptions, s: State, labels: seq<Label>)
    requires Start(op, identity, a, s) && Run(op, identity, a, s, labels)
    ensures Safety.KeepsOne(a) ==> OneThroughout(op, s, labels)
    ensures Safety.Trusted(a) ==> SafeThroughout(op, s, labels)
    ensures Safety.Trusted(a) && a.deletePolicy ==> NoLeakThroughout(op, s, labels)
  {
    forall n: nat | n <= |labels|
      ensures var point := Exec(op, s, labels[..n]);
              && (Safety.KeepsOne(a) ==> Safety.AtMostOneOurs(point.remote))
              && (Safety.Trusted(a) ==> Safety.WrittenAhead(point))
              && (Safety.Trusted(a) && a.deletePolicy ==> Safety.Reclaimed(point))
    {
      EveryPrefixIsARun(op, identity, a, s, labels, n);
      if Safety.KeepsOne(a) {
        Safety.AtMostOneCreated(op, identity, a, s, labels[..n]);
      }
      if Safety.Trusted(a) {
        Safety.WriteAhead(op, identity, a, s, labels[..n]);
        if a.deletePolicy {
          Safety.NothingOutlivesTheFinalizer(op, identity, a, s, labels[..n]);
        }
      }
    }
  }

  /**
   Passes of the code itself, one worker, each from a fresh read, among everyone else's steps. All of
   it is a run of the machine, so what holds of every run holds at every moment of this one.
   */
  method Operate(op: Operator, identity: string, a: Assumptions, start: State, script: seq<Label>, passes: nat)
    returns (now: State, ghost trace: seq<Label>)
    requires Start(op, identity, a, start)
    ensures Run(op, identity, a, start, trace) && Exec(op, start, trace) == now && now.pass.Idle?
    ensures now.kube.Some? ==> Passes(trace) == passes
    ensures Safety.KeepsOne(a) ==> OneThroughout(op, start, trace)
    ensures Safety.Trusted(a) ==> SafeThroughout(op, start, trace)
    ensures Safety.Trusted(a) && a.deletePolicy ==> NoLeakThroughout(op, start, trace)
  {
    var world := new World(op, identity, a, start, script);
    var reconciler := new CommonReconciler(world);
    for i := 0 to passes
      invariant reconciler.Valid() && world.now.pass.Idle?
      invariant world.now.kube.Some? ==> Passes(world.trace) == i
      invariant world.start == start && world.identity == identity && world.a == a && world.op == op
    {
      world.Interleave();
      if world.now.kube.Some? {
        var r := world.Get();
        var obj := new Object(r);
        var end := reconciler.Reconcile(obj);
      }
    }
    now, trace := world.now, world.trace;
    RunsAreSafe(op, identity, a, start, trace);
  }
}
