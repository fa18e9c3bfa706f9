/**
 Kubernetes and SigNoz as the reconciler's code meets them: an object whose methods are the effects
 of a pass, and which lets everyone else act before each of them.
 */
module Cluster {
  import opened Common
  import opened JsonTree
  import opened Protocol
  import E = Errors
  import T = Transport
  import C = Conditions

  /** The custom resource in memory; the API server's replies overwrite it. */
  class Object {
    var version: nat
    var generation: int
    var finalizer: bool
    var held: bool
    var attempt: bool
    var pin: string
    var deleting: bool
    var spec: Spec
    const status: C.CoreStatus

    function StatusValue(): Status
      reads this, status
    {
      Status(status.id, status.observedHash, status.observedGeneration, status.conditions)
    }

    function Value(): Resource
      reads this, status
    {
      Resource(version, generation, finalizer, held, attempt, pin, deleting, spec, StatusValue())
    }

    constructor (r: Resource)
      ensures Value() == r && fresh(status)
    {
      version, generation, finalizer, held := r.version, r.generation, r.finalizer, r.held;
      attempt, pin, deleting, spec := r.attempt, r.pin, r.deleting, r.spec;
      status := new C.CoreStatus(r.status.id, r.status.observedHash, r.status.observedGeneration, r.status.conditions);
    }

    method Refresh(r: Resource)
      modifies this, status
      ensures Value() == r
    {
      version, generation, finalizer, held := r.version, r.generation, r.finalizer, r.held;
      attempt, pin, deleting, spec := r.attempt, r.pin, r.deleting, r.spec;
      status.id, status.observedHash := r.status.id, r.status.observedHash;
      status.observedGeneration, status.conditions := r.status.observedGeneration, r.status.conditions;
    }
  }

  /** The same resource, but for a finalizer or an annotation the pass has changed in memory only. */
  predicate Same(value: Resource, copy: Resource) {
    value.(finalizer := copy.finalizer, attempt := copy.attempt) == copy
  }

  /** A fate any pass can meet whatever happened in between: the request fails, and does nothing. */
  predicate Fails(p: Pass, fate: Fate)
    requires p.Running?
  {
    match fate
    case WriteFate(write) => write.Rejected? && (IsPatch(p.pc) || IsUpdate(p.pc))
    case ResolveFate(err) => err.Some? && (p.pc.Resolve? || p.pc.FinalResolve?)
    case ListFate(found) => found.Err? && IsFind(p.pc)
    case PostFate(wire, landing) => wire.NoAnswer? && landing.Never? && p.pc.Post?
    case ReadFate(err) => err.Some? && !IsNotFound(err) && p.pc.Read?
    case PutFate(err, after) => err.Some? && after.None? && p.pc.PutBody?
    case DeleteFate(err, applied) => err.Some? && !IsNotFound(err) && !applied && p.pc.FinalDelete?
  }

  lemma FailingIsAlwaysPossible(op: Operator, identity: string, a: Assumptions, s: State, fate: Fate)
    requires s.pass.Running? && Fails(s.pass, fate)
    ensures CanMeet(op, s, fate) && FateAssumed(op, a, s, fate)
  {
  }

  lemma GoneStaysGone(op: Operator, s: State, l: Label)
    ensures s.kube.None? ==> Step(op, s, l).kube.None?
  {
  }

  const LOST := E.Plain("no reply")

  /**
   now is the machine's state, script what the other parties are going to do and how the effects will
   go. A step that is not possible, or not assumed, is skipped; an effect whose fate is not next fails.
   */
  class World {
    const op: Operator
    const identity: string
    const a: Assumptions
    const start: State
    var now: State
    var script: seq<Label>
    ghost var trace: seq<Label>

    /** What happened so far is a run of the machine. */
    ghost predicate Valid()
      reads this
    {
      Run(op, identity, a, start, trace) && Exec(op, start, trace) == now
    }

    constructor (op: Operator, identity: string, a: Assumptions, start: State, script: seq<Label>)
      ensures Valid() && this.op == op && this.identity == identity && this.a == a && this.start == start
      ensures now == start && trace == [] && this.script == script
    {
      this.op, this.identity, this.a, this.start := op, identity, a, start;
      this.now, this.script, this.trace := start, script, [];
    }

    /** More has happened, but no new pass has begun, and what is gone is gone. */
    twostate predicate Grown()
      reads this
    {
      && old(trace) <= trace && Passes(trace) == Passes(old(trace))
      && (old(now.kube).None? ==> now.kube.None?)
    }

    method Take(l: Label)
      requires Valid() && Possible(op, now, l) && Assumed(op, identity, a, now, l)
      modifies this`now, this`trace
      ensures Valid() && now == Step(op, old(now), l) && trace == old(trace) + [l]
      ensures if l.BeginPass? then Passes(trace) == Passes(old(trace)) + 1 else Grown()
    {
      GoneStaysGone(op, now, l);
      now := Step(op, now, l);
      trace := trace + [l];
      assert trace[..|trace| - 1] == old(trace);
    }

    /** Everyone else, up to the next effect of the script. */
    method Interleave()
      requires Valid()
      modifies this
      ensures Valid() && now.pass == old(now.pass) && Grown()
    {
      while script != [] && !script[0].Effect?
        invariant Valid() && now.pass == old(now.pass) && Grown()
        decreases |script|
      {
        var l := script[0];
        script := script[1..];
        if !l.BeginPass? && !l.Crash? && Possible(op, now, l) && Assumed(op, identity, a, now, l) {
          Take(l);
        }
      }
    }

    /** The next fate of the script, if it is one the pending effect can meet. */
    method Choose(failure: Fate) returns (fate: Fate)
      requires now.pass.Running? && Fails(now.pass, failure)
      modifies this`script
      ensures CanMeet(op, now, fate) && FateAssumed(op, a, now, fate)
    {
      FailingIsAlwaysPossible(op, identity, a, now, failure);
      fate := failure;
      if script != [] {
        var l := script[0];
        script := script[1..];
        if l.Effect? && CanMeet(op, now, l.fate) && FateAssumed(op, a, now, l.fate) {
          fate := l.fate;
        }
      }
    }

    /** The pending effect happens, somehow; before is the state it happens in. */
    method Meet(failure: Fate) returns (fate: Fate, before: State)
      requires Valid() && now.pass.Running? && Fails(now.pass, failure)
      modifies this
      ensures Valid() && Grown()
      ensures before.pass == old(now.pass) && CanMeet(op, before, fate) && now == EffectStep(op, before, fate)
    {
      Interleave();
      fate := Choose(failure);
      before := now;
      Take(Effect(fate));
    }

    /** A worker picks the resource up with a fresh read. */
    method Get() returns (r: Resource)
      requires Valid() && now.pass.Idle? && now.kube.Some?
      modifies this
      ensures Valid() && now.pass == Begin(op, r) && now.kube == old(now.kube)
      ensures old(trace) <= trace && Passes(trace) == Passes(old(trace)) + 1
    {
      r := now.kube.value;
      Take(BeginPass);
    }

    /** A write, and the object as stored read back from its reply. */
    method Store(obj: Object) returns (ok: bool)
      requires Valid() && now.pass.Running? && (IsPatch(now.pass.pc) || IsUpdate(now.pass.pc))
      modifies this, obj, obj.status
      ensures Valid() && Grown()
      ensures now.pass == AfterWrite(op, old(now.pass), if ok then Some(obj.Value()) else None)
      ensures !ok ==> obj.Value() == old(obj.Value())
    {
      var fate, before := Meet(WriteFate(Rejected));
      ok := fate.write.Applied?;
      if ok {
        obj.Refresh(Stored(before.pass, before.kube.value));
      }
    }

    /** client.Update with the finalizer as it is in memory, if nobody has changed the resource since it was read. */
    method Update(obj: Object) returns (ok: bool)
      requires Valid() && now.pass.Running? && (now.pass.pc.AddFinalizer? || now.pass.pc.DropFinalizer?)
      requires Same(obj.Value(), now.pass.copy) && (obj.finalizer <==> now.pass.pc.AddFinalizer?)
      modifies this, obj, obj.status
      ensures Valid() && Grown()
      ensures now.pass == AfterWrite(op, old(now.pass), if ok then Some(obj.Value()) else None)
    {
      ok := Store(obj);
    }

    /** client.Patch with the create-attempt annotation as it is in memory, whatever has changed since. */
    method Patch(obj: Object) returns (ok: bool)
      requires Valid() && now.pass.Running? && IsPatch(now.pass.pc)
      requires Same(obj.Value(), now.pass.copy) && (obj.attempt <==> now.pass.pc.MarkCreate? || now.pass.pc.MarkAdopt?)
      modifies this, obj, obj.status
      ensures Valid() && Grown()
      ensures now.pass == AfterWrite(op, old(now.pass), if ok then Some(obj.Value()) else None)
      ensures !ok ==> obj.Value() == old(obj.Value())
    {
      ok := Store(obj);
    }

    /** client.Status().Update with the status as it is in memory. */
    method UpdateStatus(obj: Object) returns (ok: bool)
      requires Valid() && now.pass.Running? && now.pass.pc.SaveStatus?
      requires Same(obj.Value(), now.pass.copy)
      modifies this, obj, obj.status
      ensures Valid() && Grown()
      ensures now.pass == AfterWrite(op, old(now.pass), if ok then Some(obj.Value()) else None)
    {
      ok := Store(obj);
    }

    /** resolver.ResolveRef for the provider config the spec names. */
    method ResolveRef(obj: Object) returns (err: Option<E.Error>)
      requires Valid() && now.pass.Running? && (now.pass.pc.Resolve? || now.pass.pc.FinalResolve?)
      requires obj.Value() == now.pass.copy
      modifies this
      ensures Valid() && Grown()
      ensures now.pass == if old(now.pass.pc).Resolve? then AfterResolve(op, old(now.pass), err)
              else AfterFinalResolve(op, old(now.pass), err)
    {
      var fate, before := Meet(ResolveFate(Some(LOST)));
      err := fate.err;
    }

    /** adapter.Find by the identity of the object. */
    method Find(obj: Object) returns (found: Result<seq<string>, E.Error>)
      requires Valid() && now.pass.Running? && IsFind(now.pass.pc)
      requires obj.Value() == now.pass.copy
      modifies this
      ensures Valid() && Grown() && (found.Ok? ==> "" !in found.value)
      ensures now.pass == if old(now.pass.pc).FinalFind? then AfterFinalFind(op, old(now.pass), found)
              else AfterFind(op, old(now.pass), found)
    {
      var fate, before := Meet(ListFate(Err(LOST)));
      found := fate.found;
    }

    /** adapter.Create with the body of the object. */
    method Create(obj: Object) returns (created: Result<string, E.Error>)
      requires Valid() && now.pass.Running? && now.pass.pc.Post?
      requires obj.Value() == now.pass.copy
      modifies this
      ensures Valid() && Grown()
      ensures now.pass == OnCreated(op, old(now.pass), created)
    {
      var fate, before := Meet(PostFate(T.NoAnswer(""), Never));
      created := T.Create(RenderError(obj.spec), fate.wire);
    }

    /** adapter.Read of one id. */
    method Read(obj: Object, id: string) returns (got: Result<Json, E.Error>)
      requires Valid() && now.pass.Running? && now.pass.pc.Read?
      requires obj.Value() == now.pass.copy && id == obj.status.id
      modifies this
      ensures Valid() && Grown()
      ensures now.pass == OnRead(op, old(now.pass), got)
    {
      var fate, before := Meet(ReadFate(Some(LOST)));
      got := if fate.err.Some? then Err(fate.err.value) else Ok(before.remote.live[id].body);
    }

    /** The PUT of adapter.Update, once there is a payload. */
    method Put(obj: Object, id: string, payload: map<string, Json>) returns (err: Option<E.Error>)
      requires Valid() && now.pass.Running? && now.pass.pc == PutBody(payload)
      requires obj.Value() == now.pass.copy && id == obj.status.id
      modifies this
      ensures Valid() && Grown()
      ensures now.pass == AfterPut(op, old(now.pass), err)
    {
      var fate, before := Meet(PutFate(Some(LOST), None));
      err := fate.err;
    }

    /** adapter.Delete of one id. */
    method Delete(id: string) returns (err: Option<E.Error>)
      requires Valid() && now.pass.Running? && now.pass.pc == FinalDelete(id)
      modifies this
      ensures Valid() && Grown()
      ensures now.pass == AfterFinalDelete(op, old(now.pass), err)
    {
      var fate, before := Meet(DeleteFate(Some(LOST), false));
      err := fate.err;
    }
  }
}
