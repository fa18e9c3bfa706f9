/**
 With everyone else quiet, a live resource settles, unless the user has a choice to make: four passes
 bring it to a point that no further pass moves, and its outcome there is Synced or Terminal.
 */
module Convergence {
  import opened Common
  import opened JsonTree
  import opened Protocol
  import JsonDiff
  import JsonCompare
  import JsonUpdate
  import E = Errors
  import T = Transport
  import C = Conditions

  /******* A quiet environment *******/

  /** A pass goes as far as SigNoz: the resource is live, and its spec gives an identity and a hash. */
  predicate Active(op: Operator, r: Resource) {
    !r.deleting && !r.spec.suspend && Identity(op, r.spec).Ok? && Hash(op, r.spec).Ok?
  }

  /** And what it compares can be mirrored: the field names are plain. */
  ghost predicate Mirrored(op: Operator, r: Resource) {
    && Active(op, r)
    && JsonDiff.Aligns(op.align)
    && JsonUpdate.Unaliased(op.updatable, r.spec.body.value, Obj(map[]))
  }

  /** The comparison of the resource's body with what SigNoz holds. */
  function Compared(op: Operator, spec: Spec, remote: Json): JsonCompare.CompareResult
    requires spec.body.Ok?
  {
    JsonCompare.Compare(op.align, spec.body.value, remote, op.updatable, op.immutable)
  }

  const CLEAN := JsonCompare.CompareResult([], [])

  /**
   Every request is answered and every write is applied. A lookup is complete; a PUT replaces; what a
   POST stores is up to the server, unless faithful asks for what was sent.
   */
  ghost predicate Quiet(op: Operator, faithful: bool, s: State, fate: Fate)
    requires s.pass.Running? && CanMeet(op, s, fate)
  {
    var p := s.pass;
    match fate
    case WriteFate(write) => write.Applied?
    case ResolveFate(err) => err.None?
    case ListFate(found) => found.Ok? && ListsAll(s.remote, Identity(op, p.copy.spec).value, found.value)
    case PostFate(wire, landing) =>
      && T.Create(RenderError(p.copy.spec), wire).Ok?
      && (faithful && p.copy.spec.body.Ok? ==> Compared(op, p.copy.spec, landing.stored) == CLEAN)
    case ReadFate(err) => err.Some? ==> IsNotFound(err) && p.copy.status.id !in s.remote.live
    case PutFate(err, after) =>
      && err.None?
      && JsonUpdate.Replaces(op.updatable, p.pc.sent, after.value.body)
      && (p.copy.spec.body.Ok? ==> JsonUpdate.Unaliased(op.updatable, p.copy.spec.body.value, after.value.body))
    case DeleteFate(err, _) => err.Some? ==> IsNotFound(err) && p.pc.id !in s.remote.live
  }

  /** Nothing happens but passes, undisturbed. */
  ghost predicate Undisturbed(op: Operator, faithful: bool, s: State, l: Label) {
    && Possible(op, s, l)
    && (l.BeginPass? || (l.Effect? && Quiet(op, faithful, s, l.fate)))
  }

  ghost predicate QuietRun(op: Operator, faithful: bool, s: State, labels: seq<Label>) {
    if labels == [] then true
    else
      var last := |labels| - 1;
      QuietRun(op, faithful, s, labels[..last]) && Undisturbed(op, faithful, Exec(op, s, labels[..last]), labels[last])
  }

  /******* How far from settled *******/

  function Matches(remote: Remote, name: string): set<string> {
    set id | id in remote.live && remote.live[id].name == name
  }

  ghost predicate AtMostOneMatch(op: Operator, r: Resource, remote: Remote)
    requires Identity(op, r.spec).Ok?
  {
    forall x, y | x in Matches(remote, Identity(op, r.spec).value) &&
        y in Matches(remote, Identity(op, r.spec).value) :: x == y
  }

  predicate HashFits(op: Operator, spec: Spec, status: Status) {
    status.observedHash == "" || Ok(status.observedHash) == Hash(op, spec)
  }

  function Sent(op: Operator, spec: Spec): map<string, Json>
    requires spec.body.Ok?
  {
    JsonUpdate.Projection(spec.body.value, op.updatable)
  }

  /** A pass that reads this body will not write to SigNoz, nor find more to say the time after. */
  predicate Rests(op: Operator, spec: Spec, status: Status, remote: Json)
    requires spec.body.Ok?
  {
    var c := Compared(op, spec, remote);
    c.immutable != [] || (c.updatable == [] && HashFits(op, spec, status)) ||
        (c.updatable != [] && Sent(op, spec) == map[])
  }

  /** The status a pass records once it has read this body, and updated it if need be. */
  function Told(op: Operator, r: Resource, status: Status, remote: Json): Status
    requires r.spec.body.Ok? && Hash(op, r.spec).Ok?
  {
    var c := Compared(op, r.spec, remote);
    var hash := Hash(op, r.spec).value;
    if c.immutable != [] then
      Say(status, r.generation, C.Terminal, C.ImmutableFieldChanged, C.ImmutableChanged(c.immutable, op.immutable))
    else if c.updatable == [] && HashFits(op, r.spec, status) then
      Say(status.(observedHash := hash), r.generation, C.Synced, C.SyncedCause, C.Fixed)
    else Say(status.(observedHash := hash), r.generation, C.Synced, C.Updated, C.Fixed)
  }

  /** No pass will change anything any more. */
  predicate Settled(op: Operator, r: Resource, remote: Remote)
    requires r.spec.body.Ok? && Hash(op, r.spec).Ok?
  {
    && r.finalizer && !r.attempt
    && r.status.id != "" && r.status.id in remote.live
    && Rests(op, r.spec, r.status, remote.live[r.status.id].body)
    && r.status == Told(op, r, r.status, remote.live[r.status.id].body)
  }

  /** What a POST may leave stored in place of the body, and an update would have to undo. */
  predicate Drifts(op: Operator, spec: Spec, stored: Json)
    requires spec.body.Ok?
  {
    Compared(op, spec, stored).immutable == [] && Compared(op, spec, stored).updatable != []
  }

  ghost predicate Driftable(op: Operator, spec: Spec)
    requires spec.body.Ok?
  {
    exists stored :: Drifts(op, spec, stored)
  }

  /** No create needs an update after it: POST is faithful, nothing is ever sent, or nothing it stores can drift. */
  ghost predicate Calm(op: Operator, faithful: bool, spec: Spec)
    requires spec.body.Ok?
  {
    faithful || Sent(op, spec) == map[] || !Driftable(op, spec)
  }

  predicate HasMatch(op: Operator, r: Resource, remote: Remote)
    requires Identity(op, r.spec).Ok?
  {
    Matches(remote, Identity(op, r.spec).value) != {}
  }

  /** A lookup finds an object to adopt: the pinned one among its matches, or its only match. */
  ghost predicate Adoptable(op: Operator, r: Resource, remote: Remote)
    requires Identity(op, r.spec).Ok?
  {
    if r.pin != "" then r.pin in Matches(remote, Identity(op, r.spec).value)
    else HasMatch(op, r, remote) && AtMostOneMatch(op, r, remote)
  }

  /** A lookup finds that there is none. */
  predicate Creatable(op: Operator, r: Resource, remote: Remote)
    requires Identity(op, r.spec).Ok?
  {
    r.pin == "" && !HasMatch(op, r, remote)
  }

  /** A lookup finds neither: it misses the pin, or is ambiguous. */
  ghost predicate Stuck(op: Operator, r: Resource, remote: Remote)
    requires Identity(op, r.spec).Ok?
  {
    !Adoptable(op, r, remote) && !Creatable(op, r, remote)
  }

  /** The recorded object is there. */
  predicate There(r: Resource, remote: Remote) {
    r.status.id != "" && r.status.id in remote.live
  }

  /**
   Undisturbed passes settle it in this number. One: the object is there and needs no update. Two: it
   is there, can be adopted, or is created without need for an update. Three: or the recorded one is
   gone before that, or it has to be created first. Four: anything else, unless the user has to choose.
   */
  ghost predicate WithinPasses(op: Operator, faithful: bool, n: nat, r: Resource, remote: Remote)
    requires Mirrored(op, r)
  {
    var ready := Adoptable(op, r, remote) || (Creatable(op, r, remote) && Calm(op, faithful, r.spec));
    match n
    case 0 => Settled(op, r, remote)
    case 1 => There(r, remote) && Rests(op, r.spec, r.status, remote.live[r.status.id].body)
    case 2 => There(r, remote) || (r.status.id == "" && ready)
    case 3 => There(r, remote) || (if r.status.id == "" then !Stuck(op, r, remote) else ready)
    case _ => There(r, remote) || !Stuck(op, r, remote)
  }

  function Nearer(n: nat): nat {
    if n == 0 then 0 else n - 1
  }

  /** What a pass keeps that started within n. */
  ghost predicate SettlingPassInv(op: Operator, faithful: bool, n: nat, r: Resource, remote: Remote, p: Pass)
    requires p.Running?
  {
    && Mirrored(op, r)
    && p.copy == r.(status := p.copy.status) && p.before == r.status
    && (!p.pc.AddFinalizer? ==>
          r.finalizer && Ok(p.identity) == Identity(op, r.spec) && Ok(p.hash) == Hash(op, r.spec) &&
              p.generation == r.generation)
    && match p.pc
       case AddFinalizer => p.copy == r && n > 0 && WithinPasses(op, faithful, n, r, remote)
       case Resolve => p.copy == r && WithinPasses(op, faithful, n, r, remote)
       case ClearAttempt => p.copy == r && r.status.id != "" && n > 0 && WithinPasses(op, faithful, n, r, remote)
       case FindNew => p.copy == r && r.status.id == "" && WithinPasses(op, faithful, n, r, remote)
       case MarkCreate => p.copy == r && r.status.id == "" && Creatable(op, r, remote) &&
         WithinPasses(op, faithful, n, r, remote)
       case Post => p.copy == r && r.status.id == "" && Creatable(op, r, remote) &&
         WithinPasses(op, faithful, n, r, remote)
       case MarkAdopt(id) => p.copy == r && r.status.id == "" && n >= 2 && id != "" && id in remote.live
       case Read =>
         && p.copy.status.id != ""
         && (if p.copy == r then !r.attempt && WithinPasses(op, faithful, n, r, remote)
             else n >= 2 && p.copy.status.id in remote.live)
       case PutBody(sent) => n >= 2 && p.copy.status.id != "" && p.copy.status.id in remote.live &&
         sent == Sent(op, r.spec) && sent != map[]
       case SaveStatus(end) => n > 0 && WithinPasses(op, faithful, Nearer(n), p.copy, remote)
       case _ => false
  }

  /** The state between passes, or during one. */
  ghost predicate SettlingInv(op: Operator, faithful: bool, n: nat, s: State) {
    && s.kube.Some? && Mirrored(op, s.kube.value)
    && match s.pass
       case Idle(_) => WithinPasses(op, faithful, Nearer(n), s.kube.value, s.remote)
       case Running(_, _, _, _, _, _) => SettlingPassInv(op, faithful, n, s.kube.value, s.remote, s.pass)
  }

  /******* What one comparison leaves *******/

  lemma SayAgain(status: Status, generation: int, outcome: C.Outcome, cause: C.Cause, message: C.Message)
    ensures var said := Say(status, generation, outcome, cause, message);
            Say(said, generation, outcome, cause, message) == said
  {
    C.RecordSays(status.conditions, generation, outcome, cause, message);
    C.RecordAgainChangesNothing(C.Record(status.conditions, generation, outcome, cause, message), generation, outcome,
                                cause, message);
  }

  /** A status that has been told rests, and telling it again adds nothing if it rested before. */
  lemma ToldSettles(op: Operator, r: Resource, status: Status, remote: Json)
    requires Mirrored(op, r) && (Rests(op, r.spec, status, remote) || Sent(op, r.spec) == map[])
    ensures var told := Told(op, r, status, remote);
            && Rests(op, r.spec, told, remote)
            && (Rests(op, r.spec, status, remote) ==> Told(op, r, told, remote) == told)
  {
    var c, hash := Compared(op, r.spec, remote), Hash(op, r.spec).value;
    SayAgain(status, r.generation, C.Terminal, C.ImmutableFieldChanged, C.ImmutableChanged(c.immutable, op.immutable));
    SayAgain(status.(observedHash := hash), r.generation, C.Synced, C.SyncedCause, C.Fixed);
    SayAgain(status.(observedHash := hash), r.generation, C.Synced, C.Updated, C.Fixed);
  }

  /** After an update the comparison is clean, unless an immutable field differs. */
  lemma UpdateRests(op: Operator, r: Resource, status: Status, after: Json)
    requires Mirrored(op, r) && Sent(op, r.spec) != map[] && Ok(status.observedHash) == Hash(op, r.spec)
    requires JsonUpdate.Replaces(op.updatable, Sent(op, r.spec), after)
    requires JsonUpdate.Unaliased(op.updatable, r.spec.body.value, after)
    ensures Rests(op, r.spec, status, after)
  {
    JsonUpdate.OneUpdateSuffices(op.align, r.spec.body.value, op.updatable, after);
  }

  /******* One effect *******/

  ghost predicate SettlingMeets(op: Operator, faithful: bool, n: nat, s: State, fate: Fate) {
    && SettlingInv(op, faithful, n, s) && s.pass.Running? && CanMeet(op, s, fate) && Quiet(op, faithful, s, fate)
  }

  lemma BeginsWithin(op: Operator, faithful: bool, n: nat, r: Resource, remote: Remote)
    requires Mirrored(op, r) && WithinPasses(op, faithful, n, r, remote)
    ensures Begin(op, r).Running? && SettlingPassInv(op, faithful, n, r, remote, Begin(op, r))
  {
  }

  lemma UpdateStays(op: Operator, faithful: bool, n: nat, r: Resource, remote: Remote, p: Pass)
    requires p.Running? && SettlingPassInv(op, faithful, n, r, remote, p) && IsUpdate(p.pc)
    ensures Collected(Stored(p, r)) == Some(Stored(p, r)) && Mirrored(op, Stored(p, r))
    ensures p.pc.AddFinalizer? ==>
              AfterWrite(op, p, Some(Stored(p, r))).Running? &&
              SettlingPassInv(op, faithful, n, Stored(p, r), remote, AfterWrite(op, p, Some(Stored(p, r))))
    ensures p.pc.SaveStatus? ==>
              AfterWrite(op, p, Some(Stored(p, r))).Idle? && WithinPasses(op, faithful, Nearer(n), Stored(p, r), remote)
  {
  }

  lemma PatchStays(op: Operator, faithful: bool, n: nat, r: Resource, remote: Remote, p: Pass)
    requires p.Running? && SettlingPassInv(op, faithful, n, r, remote, p) && IsPatch(p.pc)
    ensures Collected(Stored(p, r)) == Some(Stored(p, r)) && Mirrored(op, Stored(p, r))
    ensures AfterWrite(op, p, Some(Stored(p, r))).Running?
    ensures SettlingPassInv(op, faithful, n, Stored(p, r), remote, AfterWrite(op, p, Some(Stored(p, r))))
  {
  }

  lemma WriteStays(op: Operator, faithful: bool, n: nat, s: State)
    requires SettlingMeets(op, faithful, n, s, WriteFate(Applied))
    ensures SettlingInv(op, faithful, n, WriteStep(op, s, Applied))
  {
    if IsPatch(s.pass.pc) {
      PatchStays(op, faithful, n, s.kube.value, s.remote, s.pass);
    } else {
      UpdateStays(op, faithful, n, s.kube.value, s.remote, s.pass);
    }
  }

  lemma ResolveStays(op: Operator, faithful: bool, n: nat, s: State)
    requires SettlingMeets(op, faithful, n, s, ResolveFate(None))
    ensures SettlingInv(op, faithful, n, ResolveStep(op, s, None))
  {
  }

  /** What a complete lookup shows of the matches, in whatever order. */
  lemma ListShowsTheChoice(op: Operator, r: Resource, remote: Remote, ids: seq<string>)
    requires Identity(op, r.spec).Ok? && ListsAll(remote, Identity(op, r.spec).value, ids)
    ensures forall id :: id in ids <==> id in Matches(remote, Identity(op, r.spec).value)
    ensures ids == [] <==> !HasMatch(op, r, remote)
    ensures |ids| <= 1 <==> AtMostOneMatch(op, r, remote)
  {
    var matches := Matches(remote, Identity(op, r.spec).value);
    assert |ids| > 1 ==> ids[0] != ids[1] && ids[0] in matches && ids[1] in matches;
    assert ids != [] ==> ids[0] in matches;
  }

  lemma FoundIsChosen(op: Operator, r: Resource, remote: Remote, p: Pass, ids: seq<string>)
    requires Identity(op, r.spec).Ok? && !Stuck(op, r, remote) && p.Running? && p.copy == r
    requires ListsAll(remote, Identity(op, r.spec).value, ids) && "" !in ids
    ensures var next := OnNewObject(op, p, ids);
            if Creatable(op, r, remote) then next == p.(pc := MarkCreate)
            else
              && next.Running? && next.pc.MarkAdopt? && next == p.(pc := next.pc)
              && next.pc.id in remote.live && next.pc.id != ""
  {
    ListShowsTheChoice(op, r, remote, ids);
  }

  lemma FoundStays(op: Operator, faithful: bool, n: nat, s: State, ids: seq<string>)
    requires SettlingMeets(op, faithful, n, s, ListFate(Ok(ids)))
    ensures SettlingInv(op, faithful, n, ListStep(op, s, Ok(ids)))
  {
    FoundIsChosen(op, s.kube.value, s.remote, s.pass, ids);
  }

  /** A created object is one pass nearer: when calm, what POST stores needs no update. */
  lemma CreatedIsNearer(op: Operator, faithful: bool, n: nat, r: Resource, remote: Remote, after: Remote, id: string,
                        status: Status)
    requires Mirrored(op, r) && r.status.id == "" && Creatable(op, r, remote) &&
             WithinPasses(op, faithful, n, r, remote)
    requires id != "" && id in after.live && (faithful ==> Compared(op, r.spec, after.live[id].body) == CLEAN)
    requires status.id == id && Ok(status.observedHash) == Hash(op, r.spec)
    ensures n >= 2 && WithinPasses(op, faithful, Nearer(n), r.(status := status), after)
  {
    assert !Rests(op, r.spec, status, after.live[id].body) ==> Drifts(op, r.spec, after.live[id].body);
  }

  lemma PostStays(op: Operator, faithful: bool, n: nat, s: State, wire: T.Wire, landing: Landing)
    requires SettlingMeets(op, faithful, n, s, PostFate(wire, landing))
    ensures SettlingInv(op, faithful, n, PostStep(op, s, wire, landing))
  {
    var p, r := s.pass, s.kube.value;
    var status := Say(p.copy.status.(id := landing.id, observedHash := p.hash), p.generation, C.Synced, C.Created,
                      C.Fixed);
    CreatedIsNearer(op, faithful, n, r, s.remote, AfterPost(op, s.remote, r.spec.body.value, landing), landing.id,
                    status);
  }

  lemma ComparedStays(op: Operator, faithful: bool, n: nat, r: Resource, remote: Remote, p: Pass)
    requires p.Running? && SettlingPassInv(op, faithful, n, r, remote, p) && p.pc.Read? &&
             p.copy.status.id in remote.live
    ensures var body := remote.live[p.copy.status.id].body;
            var pass := OnCompared(op, p, r.spec.body.value, Compared(op, r.spec, body));
            if pass.Idle? then WithinPasses(op, faithful, Nearer(n), r, remote)
                else SettlingPassInv(op, faithful, n, r, remote, pass)
  {
    var body := remote.live[p.copy.status.id].body;
    var told := Told(op, r, p.copy.status, body);
    ToldSettlesIfKept(op, r, p.copy.status, body);
    ComparedTells(op, r, p, body);
    if Rests(op, r.spec, p.copy.status, body) || Sent(op, r.spec) == map[] {
      ToldIsNearer(op, faithful, n, r, remote, p, told);
    }
  }

  /** The pass records what is told, unless there is something to send. */
  lemma ComparedTells(op: Operator, r: Resource, p: Pass, body: Json)
    requires Mirrored(op, r) && p.Running? && p.copy == r.(status := p.copy.status)
    requires Ok(p.hash) == Hash(op, r.spec)
    ensures var pass := OnCompared(op, p, r.spec.body.value, Compared(op, r.spec, body));
            if Rests(op, r.spec, p.copy.status, body) || Sent(op, r.spec) == map[] then
              exists end :: pass == Finish(p, Told(op, r, p.copy.status, body), end)
            else pass == p.(pc := PutBody(Sent(op, r.spec)))
  {
    var pass := OnCompared(op, p, r.spec.body.value, Compared(op, r.spec, body));
    var told := Told(op, r, p.copy.status, body);
    assert pass == Finish(p, told, DONE) || pass == Finish(p, told, Ended(Interval(op, p.copy.spec), false)) ||
           pass.Running?;
  }

  lemma ToldIsNearer(op: Operator, faithful: bool, n: nat, r: Resource, remote: Remote, p: Pass, told: Status)
    requires p.Running? && SettlingPassInv(op, faithful, n, r, remote, p) && p.pc.Read? &&
             p.copy.status.id in remote.live
    requires var body := remote.live[p.copy.status.id].body;
             && told == Told(op, r, p.copy.status, body) && Rests(op, r.spec, told, body)
             && (Rests(op, r.spec, p.copy.status, body) ==> Told(op, r, told, body) == told)
    ensures WithinPasses(op, faithful, Nearer(n), r.(status := told), remote)
  {
  }

  lemma ToldSettlesIfKept(op: Operator, r: Resource, status: Status, remote: Json)
    requires Mirrored(op, r)
    ensures Rests(op, r.spec, status, remote) || Sent(op, r.spec) == map[] ==>
              var told := Told(op, r, status, remote);
              && Rests(op, r.spec, told, remote)
              && (Rests(op, r.spec, status, remote) ==> Told(op, r, told, remote) == told)
  {
    if Rests(op, r.spec, status, remote) || Sent(op, r.spec) == map[] {
      ToldSettles(op, r, status, remote);
    }
  }

  /** Dropping the id of an object that is gone is a pass nearer. */
  lemma DroppedIsNearer(op: Operator, faithful: bool, n: nat, r: Resource, remote: Remote, status: Status)
    requires Mirrored(op, r) && !There(r, remote) && r.status.id != "" && WithinPasses(op, faithful, n, r, remote)
    requires status.id == ""
    ensures n >= 3 && WithinPasses(op, faithful, Nearer(n), r.(status := status), remote)
  {
  }

  lemma ReadStays(op: Operator, faithful: bool, n: nat, s: State, err: Option<E.Error>)
    requires SettlingMeets(op, faithful, n, s, ReadFate(err))
    ensures SettlingInv(op, faithful, n, ReadStep(op, s, err))
  {
    var p, r := s.pass, s.kube.value;
    if err.None? {
      ComparedStays(op, faithful, n, r, s.remote, p);
    } else {
      var status := Say(p.copy.status.(id := "", observedHash := ""), p.copy.generation, C.Pending, C.PendingCause,
                        C.Fixed);
      DroppedIsNearer(op, faithful, n, r, s.remote, status);
    }
  }

  lemma PutStays(op: Operator, faithful: bool, n: nat, s: State, after: Option<Entry>)
    requires SettlingMeets(op, faithful, n, s, PutFate(None, after))
    ensures SettlingInv(op, faithful, n, PutStep(op, s, None, after))
  {
    var p := s.pass;
    UpdateRests(op, s.kube.value, p.copy.status.(observedHash := p.hash), after.value.body);
  }

  lemma EffectStays(op: Operator, faithful: bool, n: nat, s: State, fate: Fate)
    requires SettlingMeets(op, faithful, n, s, fate)
    ensures SettlingInv(op, faithful, n, EffectStep(op, s, fate))
  {
    match fate
    case WriteFate(_) => WriteStays(op, faithful, n, s);
    case ResolveFate(_) => ResolveStays(op, faithful, n, s);
    case ListFate(found) => FoundStays(op, faithful, n, s, found.value);
    case PostFate(wire, landing) => PostStays(op, faithful, n, s, wire, landing);
    case ReadFate(err) => ReadStays(op, faithful, n, s, err);
    case PutFate(_, after) => PutStays(op, faithful, n, s, after);
    case DeleteFate(_, _) =>
  }

  /******* Whole runs *******/

  /** The distance k passes leave. */
  function Left(n: nat, k: nat): nat {
    if k >= n then 0 else n - k
  }

  /** A live resource the operator can mirror, in any state, before a pass. */
  ghost predicate Before(op: Operator, s: State) {
    s.kube.Some? && s.pass.Idle? && Mirrored(op, s.kube.value) && WithinPasses(op, true, 4, s.kube.value, s.remote)
  }

  lemma StepStays(op: Operator, faithful: bool, n: nat, s: State, l: Label)
    requires SettlingInv(op, faithful, n, s) && Undisturbed(op, faithful, s, l)
    ensures SettlingInv(op, faithful, if l.BeginPass? then Nearer(n) else n, Step(op, s, l))
  {
    if l.BeginPass? {
      BeginsWithin(op, faithful, Nearer(n), s.kube.value, s.remote);
    } else {
      EffectStays(op, faithful, n, s, l.fate);
    }
  }

  lemma {:induction false} RunStays(op: Operator, faithful: bool, n: nat, s: State, labels: seq<Label>)
    requires SettlingInv(op, faithful, n, s) && QuietRun(op, faithful, s, labels)
    ensures SettlingInv(op, faithful, Left(n, Passes(labels)), Exec(op, s, labels))
  {
    if labels != [] {
      var last := |labels| - 1;
      var k, now := Passes(labels[..last]), Exec(op, s, labels[..last]);
      RunStays(op, faithful, n, s, labels[..last]);
      StepStays(op, faithful, Left(n, k), now, labels[last]);
      assert Left(n, k + 1) == Nearer(Left(n, k));
      assert Passes(labels) == if labels[last].BeginPass? then k + 1 else k;
      assert Exec(op, s, labels) == Step(op, now, labels[last]);
    }
  }

  /** Every start within n passes of settling is settled after n. */
  lemma SettlesWithin(op: Operator, faithful: bool, n: nat, s: State, labels: seq<Label>)
    requires s.kube.Some? && s.pass.Idle? && Mirrored(op, s.kube.value) &&
             WithinPasses(op, faithful, n, s.kube.value, s.remote)
    requires QuietRun(op, faithful, s, labels) && Passes(labels) >= n && Exec(op, s, labels).pass.Idle?
    ensures var now := Exec(op, s, labels);
            now.kube.Some? && Mirrored(op, now.kube.value) && Settled(op, now.kube.value, now.remote)
  {
    RunStays(op, faithful, n + 1, s, labels);
  }

  /** Four passes settle whatever can be mirrored and leaves the user no choice. */
  lemma FourPassesSettle(op: Operator, faithful: bool, s: State, labels: seq<Label>)
    requires Before(op, s) && QuietRun(op, faithful, s, labels)
    requires Passes(labels) >= 4 && Exec(op, s, labels).pass.Idle?
    ensures var now := Exec(op, s, labels);
            now.kube.Some? && Mirrored(op, now.kube.value) && Settled(op, now.kube.value, now.remote)
  {
    SettlesWithin(op, faithful, 4, s, labels);
  }

  /** More was logged, but nothing was sent that could change SigNoz. */
  predicate OnlyAgreed(log: seq<Event>, more: seq<Event>) {
    log <= more && forall i | |log| <= i < |more| :: more[i].Agreed?
  }

  /** A settled resource keeps a pass from every effect but resolving its config and reading. */
  lemma ZeroWaits(op: Operator, faithful: bool, s: State)
    requires SettlingInv(op, faithful, 0, s) && s.pass.Running?
    ensures s.pass.pc.Resolve? || (s.pass.pc.Read? && s.pass.copy == s.kube.value)
  {
  }

  lemma ZeroReads(op: Operator, faithful: bool, s: State, err: Option<E.Error>)
    requires SettlingMeets(op, faithful, 0, s, ReadFate(err))
    ensures var next := ReadStep(op, s, err);
            next.kube == s.kube && next.remote == s.remote && OnlyAgreed(s.log, next.log)
  {
  }

  lemma SettledEffectKeeps(op: Operator, faithful: bool, s: State, fate: Fate)
    requires SettlingMeets(op, faithful, 0, s, fate)
    ensures var next := EffectStep(op, s, fate);
            next.kube == s.kube && next.remote == s.remote && OnlyAgreed(s.log, next.log)
  {
    ZeroWaits(op, faithful, s);
    match fate
    case ReadFate(err) => ZeroReads(op, faithful, s, err);
    case ResolveFate(err) => assert EffectStep(op, s, fate) == ResolveStep(op, s, err);
    case _ =>
  }

  lemma SettledStepKeeps(op: Operator, faithful: bool, s: State, l: Label)
    requires SettlingInv(op, faithful, 0, s) && Undisturbed(op, faithful, s, l)
    ensures var next := Step(op, s, l);
            next.kube == s.kube && next.remote == s.remote && OnlyAgreed(s.log, next.log)
  {
    if l.BeginPass? {
      assert Step(op, s, l) == s.(pass := Begin(op, s.kube.value));
    } else {
      SettledEffectKeeps(op, faithful, s, l.fate);
      assert Step(op, s, l) == EffectStep(op, s, l.fate);
    }
  }

  lemma {:induction false} SettledRunKeeps(op: Operator, faithful: bool, s: State, labels: seq<Label>)
    requires SettlingInv(op, faithful, 0, s) && QuietRun(op, faithful, s, labels)
    ensures var now := Exec(op, s, labels);
            now.kube == s.kube && now.remote == s.remote && OnlyAgreed(s.log, now.log)
  {
    if labels != [] {
      var last := |labels| - 1;
      SettledRunKeeps(op, faithful, s, labels[..last]);
      RunStays(op, faithful, 0, s, labels[..last]);
      SettledStepKeeps(op, faithful, Exec(op, s, labels[..last]), labels[last]);
    }
  }

  /** Once settled, passes come and go: neither side changes, and no POST, PUT or DELETE is sent. */
  lemma SettledStaysPut(op: Operator, faithful: bool, s: State, labels: seq<Label>)
    requires s.kube.Some? && s.pass.Idle? && Mirrored(op, s.kube.value) && Settled(op, s.kube.value, s.remote)
    requires QuietRun(op, faithful, s, labels)
    ensures var now := Exec(op, s, labels);
            now.kube == s.kube && now.remote == s.remote && OnlyAgreed(s.log, now.log)
  {
    SettledRunKeeps(op, faithful, s, labels);
  }

  lemma ToldReadsBack(op: Operator, r: Resource, status: Status, remote: Json)
    requires Mirrored(op, r)
    ensures var told := Told(op, r, status, remote);
            var terminal := Compared(op, r.spec, remote).immutable != [];
            && C.OutcomeOf(told.conditions) == (if terminal then C.Terminal else C.Synced)
            && (!terminal ==> Ok(told.observedHash) == Hash(op, r.spec))
  {
    var c := Compared(op, r.spec, remote);
    C.OutcomeReadsBack(status.conditions, r.generation, C.Terminal, C.ImmutableFieldChanged,
                       C.ImmutableChanged(c.immutable, op.immutable));
    C.OutcomeReadsBack(status.conditions, r.generation, C.Synced, C.SyncedCause, C.Fixed);
    C.OutcomeReadsBack(status.conditions, r.generation, C.Synced, C.Updated, C.Fixed);
  }

  /** Settled means Synced or Terminal, and which one the immutable fields decide. */
  lemma SettledIsSyncedOrTerminal(op: Operator, r: Resource, remote: Remote)
    requires Mirrored(op, r) && Settled(op, r, remote)
    ensures var body := remote.live[r.status.id].body;
            var outcome := C.OutcomeOf(r.status.conditions);
            && outcome == (if Compared(op, r.spec, body).immutable != [] then C.Terminal else C.Synced)
            && (outcome.Synced? ==> Ok(r.status.observedHash) == Hash(op, r.spec))
            && (outcome.Synced? && Sent(op, r.spec) != map[] ==>
                  body.Obj? && forall f | f in op.updatable :: JsonDiff.AgreeAt(r.spec.body.value, body, f))
  {
    var body := remote.live[r.status.id].body;
    ToldReadsBack(op, r, r.status, body);
    if Compared(op, r.spec, body).immutable == [] && Sent(op, r.spec) != map[] {
      CleanBodyAgrees(op, r, body);
    }
  }

  lemma CleanBodyAgrees(op: Operator, r: Resource, body: Json)
    requires Mirrored(op, r) && Sent(op, r.spec) != map[] && Compared(op, r.spec, body).updatable == []
    ensures body.Obj? && forall f | f in op.updatable :: JsonDiff.AgreeAt(r.spec.body.value, body, f)
  {
    var some :| some in Sent(op, r.spec);
    var paths := JsonCompare.DiffPaths(op.align, r.spec.body.value, body);
    forall f | f in op.updatable ensures body.Obj? && JsonDiff.AgreeAt(r.spec.body.value, body, f) {
      JsonCompare.OverlappingMembers(paths, op.updatable, f);
      JsonCompare.UnreportedAgrees(op.align, r.spec.body.value, body, f);
    }
  }

  /******* Passes end *******/

  /** The effects a pass can still perform. */
  function Rank(pass: Pass): nat {
    if pass.Idle? then 0
    else
      match pass.pc
      case AddFinalizer => 7
      case Resolve => 6
      case FindNew => 5
      case ClearAttempt => 5
      case MarkCreate => 4
      case MarkAdopt(_) => 4
      case Post => 3
      case Read => 3
      case PutBody(_) => 2
      case _ => 1
  }

  lemma ErrorRanks(op: Operator, p: Pass, err: E.Error)
    requires p.Running?
    ensures Rank(AdapterError(op, p, err)) <= 1
  {
  }

  lemma UpdatedRanks(op: Operator, p: Pass)
    requires p.Running?
    ensures Rank(OnUpdated(op, p)) <= 1
  {
  }

  lemma ComparedRanks(op: Operator, p: Pass, body: Json, compared: JsonCompare.CompareResult)
    requires p.Running?
    ensures Rank(OnCompared(op, p, body, compared)) <= 2
  {
    UpdatedRanks(op, p);
  }

  lemma ReadRanks(op: Operator, p: Pass, got: Result<Json, E.Error>)
    requires p.Running?
    ensures Rank(OnRead(op, p, got)) <= 2
  {
    if got.Ok? && p.copy.spec.body.Ok? {
      var body := p.copy.spec.body.value;
      ComparedRanks(op, p, body, JsonCompare.Compare(op.align, body, got.value, op.updatable, op.immutable));
    } else if got.Err? {
      ErrorRanks(op, p, got.error);
    }
  }

  lemma WriteDescends(op: Operator, faithful: bool, n: nat, r: Resource, remote: Remote, p: Pass)
    requires p.Running? && SettlingPassInv(op, faithful, n, r, remote, p) && (IsPatch(p.pc) || IsUpdate(p.pc))
    ensures Rank(AfterWrite(op, p, Some(Stored(p, r)))) < Rank(p)
  {
  }

  lemma ReadDescends(op: Operator, s: State, err: Option<E.Error>)
    requires s.pass.Running? && CanMeet(op, s, ReadFate(err))
    ensures Rank(ReadStep(op, s, err).pass) < Rank(s.pass)
  {
    ReadRanks(op, s.pass, if err.Some? then Err(err.value) else Ok(s.remote.live[s.pass.copy.status.id].body));
  }

  lemma FindDescends(op: Operator, faithful: bool, n: nat, s: State, ids: seq<string>)
    requires SettlingMeets(op, faithful, n, s, ListFate(Ok(ids)))
    ensures Rank(ListStep(op, s, Ok(ids)).pass) < Rank(s.pass)
  {
    ListShowsTheChoice(op, s.kube.value, s.remote, ids);
  }

  lemma SendDescends(op: Operator, s: State)
    requires s.pass.Running?
    ensures forall wire, landing | s.pass.pc.Post? && T.Create(RenderError(s.pass.copy.spec), wire).Ok? ::
              Rank(PostStep(op, s, wire, landing).pass) < Rank(s.pass)
    ensures forall after | s.pass.pc.PutBody? :: Rank(PutStep(op, s, None, after).pass) < Rank(s.pass)
    ensures s.pass.pc.Resolve? ==> Rank(ResolveStep(op, s, None).pass) < Rank(s.pass)
  {
  }

  lemma EffectDescends(op: Operator, faithful: bool, n: nat, s: State, fate: Fate)
    requires SettlingMeets(op, faithful, n, s, fate)
    ensures Rank(EffectStep(op, s, fate).pass) < Rank(s.pass)
  {
    SendDescends(op, s);
    match fate
    case WriteFate(_) => WriteDescends(op, faithful, n, s.kube.value, s.remote, s.pass);
    case ListFate(found) => FindDescends(op, faithful, n, s, found.value);
    case ReadFate(err) => ReadDescends(op, s, err);
    case _ =>
  }

  lemma StepDescends(op: Operator, faithful: bool, n: nat, s: State, l: Label)
    requires SettlingInv(op, faithful, n, s) && Undisturbed(op, faithful, s, l) && !l.BeginPass?
    ensures Rank(Step(op, s, l).pass) < Rank(s.pass)
  {
    EffectDescends(op, faithful, n, s, l.fate);
  }

  /** Without a new pass beginning there are at most seven more effects. */
  lemma {:induction false} PassesEnd(op: Operator, faithful: bool, n: nat, s: State, labels: seq<Label>)
    requires SettlingInv(op, faithful, n, s) && QuietRun(op, faithful, s, labels) && Passes(labels) == 0
    ensures |labels| + Rank(Exec(op, s, labels).pass) <= Rank(s.pass) <= 7
  {
    if labels != [] {
      var last := |labels| - 1;
      var now := Exec(op, s, labels[..last]);
      assert !labels[last].BeginPass? && Passes(labels[..last]) == 0;
      PassesEnd(op, faithful, n, s, labels[..last]);
      RunStays(op, faithful, n, s, labels[..last]);
      assert SettlingInv(op, faithful, n, now) && Undisturbed(op, faithful, now, labels[last]);
      StepDescends(op, faithful, n, now, labels[last]);
      assert Exec(op, s, labels) == Step(op, now, labels[last]);
    }
  }

  /******* Passes can always go on *******/

  lemma LongerThanAll(used: set<string>) returns (n: nat)
    ensures forall id | id in used :: |id| < n
  {
    n := 0;
    var rest := used;
    while rest != {}
      invariant rest <= used
      invariant forall id | id in used && id !in rest :: |id| < n
      decreases rest
    {
      var id :| id in rest;
      n := if |id| < n then n else |id| + 1;
      rest := rest - {id};
    }
  }

  lemma SomeFreshId(remote: Remote) returns (id: string)
    ensures FreshId(remote, id)
  {
    var n := LongerThanAll(remote.used);
    id := seq(n + 1, _ => 'x');
  }

  /** However many matches there are, they can be listed. */
  lemma TheMatches(op: Operator, r: Resource, remote: Remote) returns (ids: seq<string>)
    requires Identity(op, r.spec).Ok?
    ensures ListsAll(remote, Identity(op, r.spec).value, ids)
  {
    var matches := Matches(remote, Identity(op, r.spec).value);
    ids := [];
    var rest := matches;
    while rest != {}
      invariant rest <= matches && NoRepeats(ids)
      invariant forall id :: id in ids <==> id in matches && id !in rest
      decreases rest
    {
      var id :| id in rest;
      ids, rest := ids + [id], rest - {id};
    }
    assert forall x | x in remote.live && remote.live[x].name == Identity(op, r.spec).value :: x in matches;
  }

  lemma {:induction false} NothingOverlaps(fields: seq<string>)
    ensures JsonCompare.Overlapping({}, fields) == []
  {
    if fields != [] {
      NothingOverlaps(fields[1..]);
    }
  }

  /** A body compares clean with itself. */
  lemma SameBodyIsClean(op: Operator, spec: Spec)
    requires spec.body.Ok? && JsonDiff.Aligns(op.align)
    ensures Compared(op, spec, spec.body.value) == CLEAN
  {
    var body := spec.body.value;
    EqualIsReflexive(body);
    JsonDiff.DiffIsEmptyIffEqual(op.align, body, body);
    assert JsonCompare.DiffPaths(op.align, body, body) == {};
    NothingOverlaps(op.updatable);
    NothingOverlaps(op.immutable);
  }

  lemma PostCanGo(op: Operator, faithful: bool, n: nat, s: State) returns (fate: Fate)
    requires SettlingInv(op, faithful, n, s) && s.pass.Running? && s.pass.pc.Post?
    ensures CanMeet(op, s, fate) && Quiet(op, faithful, s, fate)
  {
    var id := SomeFreshId(s.remote);
    var body := s.pass.copy.spec.body.value;
    SameBodyIsClean(op, s.pass.copy.spec);
    T.CreatedIffReadableSuccess(None, T.Answer(201, T.Readable(id)), id);
    fate := PostFate(T.Answer(201, T.Readable(id)), Lands(id, body));
  }

  lemma PutCanGo(op: Operator, faithful: bool, n: nat, s: State) returns (fate: Fate)
    requires SettlingInv(op, faithful, n, s) && s.pass.Running? && s.pass.pc.PutBody?
    ensures CanMeet(op, s, fate) && Quiet(op, faithful, s, fate)
  {
    var p := s.pass;
    var entry := s.remote.live[p.copy.status.id];
    var after := Obj(p.pc.sent);
    forall f | f in p.pc.sent ensures Equal(p.pc.sent[f], after.fields[f]) {
      EqualIsReflexive(p.pc.sent[f]);
    }
    fate := PutFate(None, Some(entry.(body := after)));
  }

  /** From every point of a pass a quiet environment has a way to go on, so every pass can be completed. */
  lemma APassCanGoOn(op: Operator, faithful: bool, n: nat, s: State)
    requires SettlingInv(op, faithful, n, s) && s.pass.Running? && "" !in s.remote.live
    ensures exists fate :: CanMeet(op, s, fate) && Quiet(op, faithful, s, fate)
  {
    var p := s.pass;
    if IsPatch(p.pc) || IsUpdate(p.pc) {
      assert CanMeet(op, s, WriteFate(Applied));
    } else if p.pc.Resolve? {
      assert CanMeet(op, s, ResolveFate(None));
    } else if p.pc.FindNew? {
      var ids := TheMatches(op, s.kube.value, s.remote);
      assert CanMeet(op, s, ListFate(Ok(ids)));
    } else if p.pc.Post? {
      var fate := PostCanGo(op, faithful, n, s);
    } else if p.pc.PutBody? {
      var fate := PutCanGo(op, faithful, n, s);
    } else {
      assert p.pc.Read?;
      var fate := ReadFate(if p.copy.status.id in s.remote.live then None else Some(E.Base(E.NotFound, "", None)));
      assert CanMeet(op, s, fate) && Quiet(op, faithful, s, fate);
    }
  }

  lemma OneLabelMore(op: Operator, faithful: bool, s: State, labels: seq<Label>, l: Label)
    requires QuietRun(op, faithful, s, labels) && Undisturbed(op, faithful, Exec(op, s, labels), l)
    ensures QuietRun(op, faithful, s, labels + [l])
    ensures Exec(op, s, labels + [l]) == Step(op, Exec(op, s, labels), l)
    ensures Passes(labels + [l]) == Passes(labels) + if l.BeginPass? then 1 else 0
  {
    assert (labels + [l])[..|labels|] == labels;
  }

  lemma NoEmptyId(op: Operator, faithful: bool, n: nat, s: State, fate: Fate)
    requires SettlingMeets(op, faithful, n, s, fate) && "" !in s.remote.live
    ensures "" !in EffectStep(op, s, fate).remote.live
  {
  }

  lemma GoOn(op: Operator, faithful: bool, n: nat, s: State) returns (l: Label)
    requires SettlingInv(op, faithful, n, s) && s.pass.Running? && "" !in s.remote.live
    ensures l.Effect? && Undisturbed(op, faithful, s, l)
    ensures SettlingInv(op, faithful, n, Step(op, s, l)) && "" !in Step(op, s, l).remote.live
    ensures Rank(Step(op, s, l).pass) < Rank(s.pass)
  {
    APassCanGoOn(op, faithful, n, s);
    var fate :| CanMeet(op, s, fate) && Quiet(op, faithful, s, fate);
    l := Effect(fate);
    assert Undisturbed(op, faithful, s, l);
    StepStays(op, faithful, n, s, l);
    StepDescends(op, faithful, n, s, l);
    NoEmptyId(op, faithful, n, s, fate);
  }

  /** A pass that has begun can be completed. */
  lemma Complete(op: Operator, faithful: bool, n: nat, s: State, labels: seq<Label>) returns (more: seq<Label>)
    requires QuietRun(op, faithful, s, labels) && SettlingInv(op, faithful, n, Exec(op, s, labels))
    requires "" !in Exec(op, s, labels).remote.live
    ensures QuietRun(op, faithful, s, more) && SettlingInv(op, faithful, n, Exec(op, s, more)) &&
            Passes(more) == Passes(labels)
    ensures "" !in Exec(op, s, more).remote.live && Exec(op, s, more).pass.Idle?
  {
    more := labels;
    var now := Exec(op, s, more);
    while now.pass.Running?
      invariant now == Exec(op, s, more) && QuietRun(op, faithful, s, more) && Passes(more) == Passes(labels)
      invariant SettlingInv(op, faithful, n, now) && "" !in now.remote.live
      decreases Rank(now.pass)
    {
      var l := GoOn(op, faithful, n, now);
      OneLabelMore(op, faithful, s, more, l);
      more, now := more + [l], Step(op, now, l);
    }
  }

  lemma BeginAgain(op: Operator, faithful: bool, n: nat, s: State)
    requires SettlingInv(op, faithful, n, s) && s.pass.Idle?
    ensures Undisturbed(op, faithful, s, BeginPass) && SettlingInv(op, faithful, Nearer(n), Step(op, s, BeginPass))
    ensures Step(op, s, BeginPass).remote == s.remote
  {
    StepStays(op, faithful, n, s, BeginPass);
  }

  lemma OnePassMore(op: Operator, faithful: bool, n: nat, s: State, labels: seq<Label>) returns (more: seq<Label>)
    requires QuietRun(op, faithful, s, labels) && SettlingInv(op, faithful, n, Exec(op, s, labels))
    requires Exec(op, s, labels).pass.Idle? && "" !in Exec(op, s, labels).remote.live
    ensures QuietRun(op, faithful, s, more) && Exec(op, s, more).pass.Idle?
    ensures SettlingInv(op, faithful, Nearer(n), Exec(op, s, more))
    ensures Passes(more) == Passes(labels) + 1 && "" !in Exec(op, s, more).remote.live
  {
    BeginAgain(op, faithful, n, Exec(op, s, labels));
    OneLabelMore(op, faithful, s, labels, BeginPass);
    more := Complete(op, faithful, Nearer(n), s, labels + [BeginPass]);
  }

  /** Any number of passes can be completed, so the four that settle a resource can. */
  lemma CompletePasses(op: Operator, faithful: bool, n: nat, s: State, k: nat) returns (labels: seq<Label>)
    requires SettlingInv(op, faithful, n, s) && s.pass.Idle? && "" !in s.remote.live
    ensures QuietRun(op, faithful, s, labels) && Passes(labels) == k && Exec(op, s, labels).pass.Idle?
  {
    labels := [];
    var m, now := n, s;
    for i := 0 to k
      invariant now == Exec(op, s, labels) && QuietRun(op, faithful, s, labels) && Passes(labels) == i
      invariant now.pass.Idle? && "" !in now.remote.live && SettlingInv(op, faithful, m, now)
    {
      labels := OnePassMore(op, faithful, m, s, labels);
      m, now := Nearer(m), Exec(op, s, labels);
    }
  }
}
