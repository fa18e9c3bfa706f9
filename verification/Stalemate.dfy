/**
 The starts that module Convergence leaves out: no recorded object is there, and a lookup misses the
 pin or is ambiguous. With everyone else quiet nothing is ever sent then, and from the second pass on
 the resource says so and stays Terminal.
 */
module Stalemate {
  import opened Common
  import opened Protocol
  import opened Convergence
  import E = Errors
  import C = Conditions

  /** The user has to choose. */
  ghost predicate InStalemate(op: Operator, r: Resource, remote: Remote) {
    Active(op, r) && !There(r, remote) && Stuck(op, r, remote)
  }

  function StuckCause(r: Resource): C.Cause {
    if r.pin != "" then C.IdMismatch else C.AmbiguousCause
  }

  function StuckMessage(op: Operator, r: Resource, ids: seq<string>): C.Message
    requires Identity(op, r.spec).Ok?
  {
    if r.pin != "" then C.NoMatchForPin(r.pin, Identity(op, r.spec).value, ids)
    else C.Ambiguous(Identity(op, r.spec).value, ids)
  }

  /** The status a pass records after a lookup that listed these ids. */
  function StuckStatus(op: Operator, r: Resource, status: Status, ids: seq<string>): Status
    requires Identity(op, r.spec).Ok?
  {
    Say(status, r.generation, C.Terminal, StuckCause(r), StuckMessage(op, r, ids))
  }

  /** The status holds no id and tells the user to choose among these ids. */
  predicate Tells(op: Operator, r: Resource, ids: seq<string>)
    requires Identity(op, r.spec).Ok?
  {
    && r.finalizer && r.status.id == "" && r.status.observedGeneration == r.generation
    && C.Says(r.status.conditions, r.generation, C.Terminal, StuckCause(r), StuckMessage(op, r, ids))
  }

  /** At most this many passes before the user is told: two if an id has to be dropped first. */
  ghost predicate TellsWithin(op: Operator, n: nat, r: Resource, remote: Remote)
    requires Identity(op, r.spec).Ok?
  {
    match n
    case 0 => exists ids :: ListsAll(remote, Identity(op, r.spec).value, ids) && Tells(op, r, ids)
    case 1 => r.status.id == ""
    case _ => true
  }

  ghost predicate StalePassInv(op: Operator, n: nat, r: Resource, remote: Remote, p: Pass)
    requires p.Running? && Identity(op, r.spec).Ok?
  {
    && p.copy == r.(status := p.copy.status) && p.before == r.status
    && (!p.pc.AddFinalizer? ==> r.finalizer && Ok(p.identity) == Identity(op, r.spec) && p.generation == r.generation)
    && match p.pc
       case AddFinalizer => p.copy == r && n > 0 && TellsWithin(op, n, r, remote)
       case Resolve => p.copy == r && TellsWithin(op, n, r, remote)
       case ClearAttempt => p.copy == r && r.status.id != "" && n >= 2
       case FindNew => p.copy == r && r.status.id == ""
       case Read => p.copy == r && r.status.id != "" && n >= 2
       case SaveStatus(_) => p.copy.status.id == "" && TellsWithin(op, Nearer(n), p.copy, remote)
       case _ => false
  }

  ghost predicate StaleInv(op: Operator, n: nat, s: State) {
    && s.kube.Some? && InStalemate(op, s.kube.value, s.remote)
    && match s.pass
       case Idle(_) => TellsWithin(op, Nearer(n), s.kube.value, s.remote)
       case Running(_, _, _, _, _, _) => StalePassInv(op, n, s.kube.value, s.remote, s.pass)
  }

  ghost predicate StaleMeets(op: Operator, faithful: bool, n: nat, s: State, fate: Fate) {
    StaleInv(op, n, s) && s.pass.Running? && CanMeet(op, s, fate) && Quiet(op, faithful, s, fate)
  }

  /** Nothing but lookups is logged. */
  predicate OnlySearched(log: seq<Event>, more: seq<Event>) {
    log <= more && forall i | |log| <= i < |more| :: more[i].Searched?
  }

  /******* One effect *******/

  lemma FoundIsNoChoice(op: Operator, r: Resource, remote: Remote, p: Pass, ids: seq<string>)
    requires Identity(op, r.spec).Ok? && Stuck(op, r, remote) && p.Running? && p.copy == r &&
             Ok(p.identity) == Identity(op, r.spec)
    requires ListsAll(remote, Identity(op, r.spec).value, ids)
    ensures OnNewObject(op, p, ids) == Finish(p, StuckStatus(op, r, r.status, ids), DONE)
  {
    ListShowsTheChoice(op, r, remote, ids);
  }

  lemma StuckStatusTells(op: Operator, r: Resource, ids: seq<string>)
    requires Identity(op, r.spec).Ok? && r.finalizer && r.status.id == ""
    ensures Tells(op, r.(status := StuckStatus(op, r, r.status, ids)), ids)
  {
    C.RecordSays(r.status.conditions, r.generation, C.Terminal, StuckCause(r), StuckMessage(op, r, ids));
  }

  lemma FindStale(op: Operator, faithful: bool, n: nat, s: State, ids: seq<string>)
    requires StaleMeets(op, faithful, n, s, ListFate(Ok(ids)))
    ensures StaleInv(op, n, ListStep(op, s, Ok(ids))) && Rank(ListStep(op, s, Ok(ids)).pass) < Rank(s.pass)
  {
    var r := s.kube.value;
    FoundIsNoChoice(op, r, s.remote, s.pass, ids);
    StuckStatusTells(op, r, ids);
    assert TellsWithin(op, 0, r.(status := StuckStatus(op, r, r.status, ids)), s.remote);
  }

  lemma StoredStale(op: Operator, n: nat, r: Resource, remote: Remote, p: Pass)
    requires p.Running? && InStalemate(op, r, remote) && StalePassInv(op, n, r, remote, p)
    requires p.pc.AddFinalizer? || p.pc.ClearAttempt?
    ensures var next := AfterWrite(op, p, Some(Stored(p, r)));
            && Collected(Stored(p, r)) == Some(Stored(p, r)) && InStalemate(op, Stored(p, r), remote)
            && next.Running? && StalePassInv(op, n, Stored(p, r), remote, next) && Rank(next) < Rank(p)
  {
  }

  lemma SavedStale(op: Operator, n: nat, r: Resource, remote: Remote, p: Pass)
    requires p.Running? && InStalemate(op, r, remote) && StalePassInv(op, n, r, remote, p) && p.pc.SaveStatus?
    ensures Collected(Stored(p, r)) == Some(Stored(p, r)) && InStalemate(op, Stored(p, r), remote)
    ensures TellsWithin(op, Nearer(n), Stored(p, r), remote)
  {
    if Nearer(n) == 0 {
      var ids :| ListsAll(remote, Identity(op, r.spec).value, ids) && Tells(op, p.copy, ids);
      assert Tells(op, Stored(p, r), ids);
    }
  }

  lemma WriteStale(op: Operator, faithful: bool, n: nat, s: State)
    requires StaleMeets(op, faithful, n, s, WriteFate(Applied))
    ensures StaleInv(op, n, WriteStep(op, s, Applied)) && Rank(WriteStep(op, s, Applied).pass) < Rank(s.pass)
  {
    if s.pass.pc.SaveStatus? {
      SavedStale(op, n, s.kube.value, s.remote, s.pass);
    } else {
      StoredStale(op, n, s.kube.value, s.remote, s.pass);
    }
  }

  lemma ReadStale(op: Operator, faithful: bool, n: nat, s: State, err: Option<E.Error>)
    requires StaleMeets(op, faithful, n, s, ReadFate(err))
    ensures StaleInv(op, n, ReadStep(op, s, err)) && Rank(ReadStep(op, s, err).pass) < Rank(s.pass)
    ensures ReadStep(op, s, err).log == s.log
  {
  }

  lemma EffectStale(op: Operator, faithful: bool, n: nat, s: State, fate: Fate)
    requires StaleMeets(op, faithful, n, s, fate)
    ensures var next := EffectStep(op, s, fate);
            && StaleInv(op, n, next) && Rank(next.pass) < Rank(s.pass)
            && next.remote == s.remote && OnlySearched(s.log, next.log)
  {
    match fate
    case WriteFate(_) => WriteStale(op, faithful, n, s);
    case ListFate(found) => FindStale(op, faithful, n, s, found.value);
    case ReadFate(err) => ReadStale(op, faithful, n, s, err);
    case _ =>
  }

  lemma BeginStale(op: Operator, n: nat, s: State)
    requires StaleInv(op, n, s) && s.pass.Idle?
    ensures StaleInv(op, Nearer(n), s.(pass := Begin(op, s.kube.value)))
    ensures Possible(op, s, BeginPass) && Step(op, s, BeginPass) == s.(pass := Begin(op, s.kube.value))
  {
  }

  lemma StepStale(op: Operator, faithful: bool, n: nat, s: State, l: Label)
    requires StaleInv(op, n, s) && Undisturbed(op, faithful, s, l)
    ensures var next := Step(op, s, l);
            && StaleInv(op, if l.BeginPass? then Nearer(n) else n, next)
            && next.remote == s.remote && OnlySearched(s.log, next.log)
  {
    if l.BeginPass? {
      BeginStale(op, n, s);
    } else {
      EffectStale(op, faithful, n, s, l.fate);
      assert Step(op, s, l) == EffectStep(op, s, l.fate);
    }
  }

  /******* Whole runs *******/

  lemma {:induction false} RunStale(op: Operator, faithful: bool, n: nat, s: State, labels: seq<Label>)
    requires StaleInv(op, n, s) && QuietRun(op, faithful, s, labels)
    ensures var now := Exec(op, s, labels);
            && StaleInv(op, Left(n, Passes(labels)), now)
            && now.remote == s.remote && OnlySearched(s.log, now.log)
  {
    if labels != [] {
      var last := |labels| - 1;
      var k, now := Passes(labels[..last]), Exec(op, s, labels[..last]);
      RunStale(op, faithful, n, s, labels[..last]);
      StepStale(op, faithful, Left(n, k), now, labels[last]);
      assert Left(n, k + 1) == Nearer(Left(n, k));
      assert Passes(labels) == if labels[last].BeginPass? then k + 1 else k;
      assert Exec(op, s, labels) == Step(op, now, labels[last]);
    }
  }

  /** A start no pass can settle. */
  ghost predicate Stalled(op: Operator, s: State) {
    s.kube.Some? && s.pass.Idle? && InStalemate(op, s.kube.value, s.remote)
  }

  /** Nothing is ever sent but lookups, and SigNoz stays as it is. */
  lemma StalemateSendsNothing(op: Operator, faithful: bool, s: State, labels: seq<Label>)
    requires Stalled(op, s) && QuietRun(op, faithful, s, labels)
    ensures var now := Exec(op, s, labels);
            && now.remote == s.remote && OnlySearched(s.log, now.log)
            && now.kube.Some? && InStalemate(op, now.kube.value, now.remote)
  {
    RunStale(op, faithful, 3, s, labels);
  }

  /** After two passes, or one if no id has to be dropped, the user is told, and the outcome is Terminal. */
  lemma StalemateIsTold(op: Operator, faithful: bool, s: State, labels: seq<Label>)
    requires Stalled(op, s) && QuietRun(op, faithful, s, labels) && Exec(op, s, labels).pass.Idle?
    requires Passes(labels) >= if s.kube.value.status.id == "" then 1 else 2
    ensures var now := Exec(op, s, labels);
            && now.kube.Some? && Identity(op, now.kube.value.spec).Ok?
            && C.OutcomeOf(now.kube.value.status.conditions).Terminal?
            && exists ids ::
                 ListsAll(now.remote, Identity(op, now.kube.value.spec).value, ids) && Tells(op, now.kube.value, ids)
  {
    var n := if s.kube.value.status.id == "" then 2 else 3;
    RunStale(op, faithful, n, s, labels);
  }

  /******* Once the user is told *******/

  /** Every lookup of the run lists the matches in the same order. */
  predicate ListsAlike(labels: seq<Label>, ids: seq<string>) {
    forall i | 0 <= i < |labels| && labels[i].Effect? && labels[i].fate.ListFate? :: labels[i].fate.found == Ok(ids)
  }

  ghost predicate ToldInv(op: Operator, ids: seq<string>, s: State) {
    && StaleInv(op, 0, s) && Tells(op, s.kube.value, ids)
    && (s.pass.Running? ==> !s.pass.pc.SaveStatus?)
  }

  lemma ToldAgain(op: Operator, r: Resource, ids: seq<string>)
    requires Identity(op, r.spec).Ok? && Tells(op, r, ids)
    ensures StuckStatus(op, r, r.status, ids) == r.status
  {
    C.RecordAgainChangesNothing(r.status.conditions, r.generation, C.Terminal, StuckCause(r), StuckMessage(op, r, ids));
  }

  lemma ToldEffect(op: Operator, faithful: bool, ids: seq<string>, s: State, fate: Fate)
    requires ToldInv(op, ids, s) && StaleMeets(op, faithful, 0, s, fate) && (fate.ListFate? ==> fate.found == Ok(ids))
    ensures ToldInv(op, ids, EffectStep(op, s, fate)) && EffectStep(op, s, fate).kube == s.kube
  {
    EffectStale(op, faithful, 0, s, fate);
    if fate.ListFate? {
      FoundIsNoChoice(op, s.kube.value, s.remote, s.pass, ids);
      ToldAgain(op, s.kube.value, ids);
    }
  }

  lemma ToldStep(op: Operator, faithful: bool, ids: seq<string>, s: State, l: Label)
    requires ToldInv(op, ids, s) && Undisturbed(op, faithful, s, l)
    requires l.Effect? && l.fate.ListFate? ==> l.fate.found == Ok(ids)
    ensures ToldInv(op, ids, Step(op, s, l)) && Step(op, s, l).kube == s.kube && Step(op, s, l).remote == s.remote
  {
    StepStale(op, faithful, 0, s, l);
    if l.BeginPass? {
      BeginStale(op, 0, s);
    } else {
      ToldEffect(op, faithful, ids, s, l.fate);
      assert Step(op, s, l) == EffectStep(op, s, l.fate);
    }
  }

  /** As long as lookups list alike, nothing changes any more: not even the status is written again. */
  lemma {:induction false} ToldStaysPut(op: Operator, faithful: bool, ids: seq<string>, s: State, labels: seq<Label>)
    requires ToldInv(op, ids, s) && QuietRun(op, faithful, s, labels) && ListsAlike(labels, ids)
    ensures var now := Exec(op, s, labels);
            now.kube == s.kube && now.remote == s.remote && ToldInv(op, ids, now)
  {
    if labels != [] {
      var last := |labels| - 1;
      var now := Exec(op, s, labels[..last]);
      ToldStaysPut(op, faithful, ids, s, labels[..last]);
      ToldStep(op, faithful, ids, now, labels[last]);
      assert Exec(op, s, labels) == Step(op, now, labels[last]);
    }
  }

  /** The same from between two passes. */
  lemma StalemateStaysPut(op: Operator, faithful: bool, ids: seq<string>, s: State, labels: seq<Label>)
    requires Stalled(op, s) && Tells(op, s.kube.value, ids) &&
             ListsAll(s.remote, Identity(op, s.kube.value.spec).value, ids)
    requires QuietRun(op, faithful, s, labels) && ListsAlike(labels, ids)
    ensures Exec(op, s, labels).kube == s.kube && Exec(op, s, labels).remote == s.remote
  {
    assert TellsWithin(op, 0, s.kube.value, s.remote);
    ToldStaysPut(op, faithful, ids, s, labels);
  }

  lemma SpecStays(op: Operator, faithful: bool, s: State, l: Label)
    requires Undisturbed(op, faithful, s, l) && s.kube.Some?
    ensures Step(op, s, l).kube.Some? ==> Step(op, s, l).kube.value.spec == s.kube.value.spec
  {
  }

  /** What a lookup of an undisturbed stalemate lists, it lists by the identity of the start. */
  lemma StaleLookup(op: Operator, faithful: bool, n: nat, s: State, l: Label)
    requires StaleInv(op, n, s) && Undisturbed(op, faithful, s, l) && l.Effect? && l.fate.ListFate?
    ensures l.fate.found.Ok? && ListsAll(s.remote, Identity(op, s.kube.value.spec).value, l.fate.found.value)
  {
  }

  lemma Members(ids: seq<string>)
    requires NoRepeats(ids)
    ensures ids != [] ==> ids[0] in ids
    ensures |ids| > 1 ==> exists x, y :: x in ids && y in ids && x != y
  {
    if |ids| > 1 {
      assert ids[0] in ids && ids[1] in ids && ids[0] != ids[1];
    }
  }

  lemma OneOrder(remote: Remote, name: string, ids: seq<string>, others: seq<string>)
    requires |ids| <= 1 && ListsAll(remote, name, ids) && ListsAll(remote, name, others)
    ensures ids == others
  {
    Members(others);
    Members(ids);
    assert forall id :: id in others <==> id in ids;
    assert |others| == |ids|;
  }

  ghost predicate ListsFew(op: Operator, ids: seq<string>, s: State) {
    && |ids| <= 1 && s.kube.Some? && Identity(op, s.kube.value.spec).Ok?
    && ListsAll(s.remote, Identity(op, s.kube.value.spec).value, ids)
  }

  lemma FewMatchesStep(op: Operator, faithful: bool, n: nat, s: State, l: Label, ids: seq<string>)
    requires StaleInv(op, n, s) && Undisturbed(op, faithful, s, l) && ListsFew(op, ids, s)
    ensures ListsFew(op, ids, Step(op, s, l)) && (l.Effect? && l.fate.ListFate? ==> l.fate.found == Ok(ids))
  {
    StepStale(op, faithful, n, s, l);
    SpecStays(op, faithful, s, l);
    if l.Effect? && l.fate.ListFate? {
      StaleLookup(op, faithful, n, s, l);
      OneOrder(s.remote, Identity(op, s.kube.value.spec).value, ids, l.fate.found.value);
    }
  }

  /** With at most one match there is only one order to list in. */
  lemma {:induction false} FewMatchesListAlike(op: Operator, faithful: bool, s: State, labels: seq<Label>,
                                               ids: seq<string>)
    requires Stalled(op, s) && QuietRun(op, faithful, s, labels) && ListsFew(op, ids, s)
    ensures ListsAlike(labels, ids) && ListsFew(op, ids, Exec(op, s, labels))
  {
    if labels != [] {
      var last := |labels| - 1;
      var now := Exec(op, s, labels[..last]);
      FewMatchesListAlike(op, faithful, s, labels[..last], ids);
      RunStale(op, faithful, 3, s, labels[..last]);
      FewMatchesStep(op, faithful, Left(3, Passes(labels[..last])), now, labels[last], ids);
      assert Exec(op, s, labels) == Step(op, now, labels[last]);
      assert labels == labels[..last] + [labels[last]];
    }
  }

  /** So a pin that the only match misses, or that nothing matches, is a stalemate that rests once it is told. */
  lemma FewMatchesStayPut(op: Operator, faithful: bool, ids: seq<string>, s: State, labels: seq<Label>)
    requires Stalled(op, s) && Tells(op, s.kube.value, ids) &&
             ListsAll(s.remote, Identity(op, s.kube.value.spec).value, ids)
    requires |ids| <= 1 && QuietRun(op, faithful, s, labels)
    ensures Exec(op, s, labels).kube == s.kube && Exec(op, s, labels).remote == s.remote
  {
    FewMatchesListAlike(op, faithful, s, labels, ids);
    StalemateStaysPut(op, faithful, ids, s, labels);
  }

  /******* Passes can be completed *******/

  lemma StaleFate(op: Operator, faithful: bool, n: nat, s: State) returns (fate: Fate)
    requires StaleInv(op, n, s) && s.pass.Running? && "" !in s.remote.live
    ensures CanMeet(op, s, fate) && Quiet(op, faithful, s, fate)
  {
    match s.pass.pc {
      case Resolve => fate := ResolveFate(None);
      case FindNew =>
        var ids := TheMatches(op, s.kube.value, s.remote);
        fate := ListFate(Ok(ids));
      case Read => fate := ReadFate(Some(E.Base(E.NotFound, "", None)));
      case _ => fate := WriteFate(Applied);
    }
  }

  lemma StaleGoesOn(op: Operator, faithful: bool, n: nat, s: State) returns (l: Label)
    requires StaleInv(op, n, s) && s.pass.Running? && "" !in s.remote.live
    ensures l.Effect? && Undisturbed(op, faithful, s, l)
    ensures StaleInv(op, n, Step(op, s, l)) && Step(op, s, l).remote == s.remote &&
            Rank(Step(op, s, l).pass) < Rank(s.pass)
  {
    var fate := StaleFate(op, faithful, n, s);
    l := Effect(fate);
    EffectStale(op, faithful, n, s, fate);
    assert Undisturbed(op, faithful, s, l) && Step(op, s, l) == EffectStep(op, s, fate);
  }

  lemma OneStalePass(op: Operator, faithful: bool, s: State, labels: seq<Label>) returns (more: seq<Label>)
    requires QuietRun(op, faithful, s, labels) && Stalled(op, Exec(op, s, labels)) &&
             "" !in Exec(op, s, labels).remote.live
    ensures QuietRun(op, faithful, s, more) && Passes(more) == Passes(labels) + 1
    ensures Stalled(op, Exec(op, s, more)) && "" !in Exec(op, s, more).remote.live
  {
    var now := Exec(op, s, labels);
    BeginStale(op, 3, now);
    OneLabelMore(op, faithful, s, labels, BeginPass);
    more, now := labels + [BeginPass], now.(pass := Begin(op, now.kube.value));
    while now.pass.Running?
      invariant now == Exec(op, s, more) && QuietRun(op, faithful, s, more) && Passes(more) == Passes(labels) + 1
      invariant StaleInv(op, 2, now) && "" !in now.remote.live
      decreases Rank(now.pass)
    {
      var l := StaleGoesOn(op, faithful, 2, now);
      OneLabelMore(op, faithful, s, more, l);
      more, now := more + [l], Step(op, now, l);
    }
  }

  /** Any number of passes can be completed, and none settles the resource. */
  lemma StalePasses(op: Operator, faithful: bool, s: State, k: nat) returns (labels: seq<Label>)
    requires Stalled(op, s) && "" !in s.remote.live
    ensures QuietRun(op, faithful, s, labels) && Passes(labels) == k && Stalled(op, Exec(op, s, labels))
  {
    labels := [];
    var now := s;
    for i := 0 to k
      invariant now == Exec(op, s, labels) && QuietRun(op, faithful, s, labels) && Passes(labels) == i
      invariant Stalled(op, now) && "" !in now.remote.live
    {
      labels := OneStalePass(op, faithful, s, labels);
      now := Exec(op, s, labels);
    }
  }
}
