/**
 The status conditions of a mirrored resource: internal/resources/condition.go over the list
 semantics of apimachinery's SetStatusCondition and RemoveStatusCondition.
 */
module Conditions {
  import opened Common
  import Errors

  datatype Outcome = Synced | Pending | Recoverable | Terminal | Suspended

  datatype Cause =
    | SyncedCause
    | PendingCause
    | Created
    | Updated
    | InvalidSpec
    | Rejected
    | AmbiguousCause
    | IdMismatch
    | ImmutableFieldChanged
    | Unauthorized
    | ProviderConfigNotReady
    | BackendError
    | BackendUnreachable
    | SuspendedCause
    | CompareFailed
    | ForeignCause(text: string)

  /** What a condition message quotes; Fixed is a text the cause alone decides. */
  datatype Message =
    | Fixed
    | Quoting(err: Errors.Error)
    | NoIdentity(err: Errors.Error)
    | NoHash(err: Errors.Error)
    | NoMatchForPin(pin: string, identity: string, candidates: seq<string>)
    | Ambiguous(identity: string, candidates: seq<string>)
    | ImmutableChanged(changed: seq<string>, listed: seq<string>)
    | Conflict(identity: string)
    | ForeignText(text: string)

  datatype ConditionType =
    | ReadyType
    | SyncedType
    | TerminalType
    | RecoverableType
    | SuspendedType
    | ForeignType(name: string)

  datatype TriState = True | False | Unset

  datatype Condition = Condition(kind: ConditionType, status: TriState, cause: Cause, message: Message, generation: int)

  /** The first condition of a type. */
  function Lookup(conditions: seq<Condition>, kind: ConditionType): Option<Condition> {
    if conditions == [] then None
    else if conditions[0].kind == kind then Some(conditions[0])
    else Lookup(conditions[1..], kind)
  }

  /** SetStatusCondition: overwrite the first entry of that type, or append. */
  function Put(conditions: seq<Condition>, c: Condition): seq<Condition> {
    if conditions == [] then [c]
    else if conditions[0].kind == c.kind then [c] + conditions[1..]
    else [conditions[0]] + Put(conditions[1..], c)
  }

  /** RemoveStatusCondition: drop every entry of that type. */
  function Remove(conditions: seq<Condition>, kind: ConditionType): seq<Condition> {
    if conditions == [] then []
    else (if conditions[0].kind == kind then [] else [conditions[0]]) + Remove(conditions[1..], kind)
  }

  /** Ready and Synced are always present; the others only when True. */
  predicate Stays(c: Condition) {
    c.kind.ReadyType? || c.kind.SyncedType? || c.status.True?
  }

  /** The list after one condition has been applied. */
  function Apply(conditions: seq<Condition>, c: Condition): seq<Condition> {
    if !Stays(c) then Remove(conditions, c.kind)
    else Put(conditions, c)
  }

  function SyncedStatus(outcome: Outcome): TriState {
    match outcome
    case Synced => True
    case Terminal => False
    case _ => Unset
  }

  function ReadyStatus(outcome: Outcome): TriState {
    match outcome
    case Synced => True
    case Terminal => False
    case Suspended => False
    case _ => Unset
  }

  function Presence(on: bool): TriState {
    if on then True else False
  }

  /** The condition list after an outcome has been recorded. */
  function Record(conditions: seq<Condition>, generation: int, outcome: Outcome, cause: Cause,
                  message: Message): seq<Condition> {
    var c1 := Apply(conditions, Condition(SyncedType, SyncedStatus(outcome), cause, message, generation));
    var c2 := Apply(c1, Condition(SuspendedType, Presence(outcome.Suspended?), cause, message, generation));
    var c3 := Apply(c2, Condition(TerminalType, Presence(outcome.Terminal?), cause, message, generation));
    var c4 := Apply(c3, Condition(RecoverableType, Presence(outcome.Recoverable?), cause, message, generation));
    Apply(c4, Condition(ReadyType, ReadyStatus(outcome), cause, message, generation))
  }

  lemma {:induction false} LookupAfterPut(conditions: seq<Condition>, c: Condition, kind: ConditionType)
    ensures Lookup(Put(conditions, c), kind) == if kind == c.kind then Some(c) else Lookup(conditions, kind)
  {
    if conditions != [] && conditions[0].kind != c.kind {
      LookupAfterPut(conditions[1..], c, kind);
    }
  }

  lemma {:induction false} LookupAfterRemove(conditions: seq<Condition>, gone: ConditionType, kind: ConditionType)
    ensures Lookup(Remove(conditions, gone), kind) == if kind == gone then None else Lookup(conditions, kind)
  {
    if conditions != [] {
      LookupAfterRemove(conditions[1..], gone, kind);
      assert conditions[0].kind != gone ==> Remove(conditions, gone) == [conditions[0]] + Remove(conditions[1..], gone);
      assert conditions[0].kind == gone ==> Remove(conditions, gone) == Remove(conditions[1..], gone);
    }
  }

  lemma LookupAfterApply(conditions: seq<Condition>, c: Condition, kind: ConditionType)
    ensures Lookup(Apply(conditions, c), kind) ==
            if kind != c.kind then Lookup(conditions, kind)
            else if Stays(c) then Some(c) else None
  {
    LookupAfterPut(conditions, c, kind);
    LookupAfterRemove(conditions, c.kind, kind);
  }

  predicate Shows(conditions: seq<Condition>, c: Condition) {
    Lookup(conditions, c.kind) ==
    if Stays(c) then Some(c) else None
  }

  /** The owned conditions say this outcome, and nothing else. */
  predicate Says(conditions: seq<Condition>, generation: int, outcome: Outcome, cause: Cause, message: Message) {
    && Shows(conditions, Condition(SyncedType, SyncedStatus(outcome), cause, message, generation))
    && Shows(conditions, Condition(SuspendedType, Presence(outcome.Suspended?), cause, message, generation))
    && Shows(conditions, Condition(TerminalType, Presence(outcome.Terminal?), cause, message, generation))
    && Shows(conditions, Condition(RecoverableType, Presence(outcome.Recoverable?), cause, message, generation))
    && Shows(conditions, Condition(ReadyType, ReadyStatus(outcome), cause, message, generation))
  }

  /** Recording an outcome makes the list say it. */
  lemma RecordSays(conditions: seq<Condition>, generation: int, outcome: Outcome, cause: Cause, message: Message)
    ensures Says(Record(conditions, generation, outcome, cause, message), generation, outcome, cause, message)
  {
    var s1 := Condition(SyncedType, SyncedStatus(outcome), cause, message, generation);
    var s2 := Condition(SuspendedType, Presence(outcome.Suspended?), cause, message, generation);
    var s3 := Condition(TerminalType, Presence(outcome.Terminal?), cause, message, generation);
    var s4 := Condition(RecoverableType, Presence(outcome.Recoverable?), cause, message, generation);
    var s5 := Condition(ReadyType, ReadyStatus(outcome), cause, message, generation);
    var c1 := Apply(conditions, s1);
    var c2 := Apply(c1, s2);
    var c3 := Apply(c2, s3);
    var c4 := Apply(c3, s4);
    forall kind
      ensures Lookup(Apply(c4, s5), kind) == if kind != s5.kind then Lookup(c4, kind) else Some(s5)
      ensures kind != s4.kind ==> Lookup(c4, kind) == Lookup(c3, kind)
      ensures kind != s3.kind ==> Lookup(c3, kind) == Lookup(c2, kind)
      ensures kind != s2.kind ==> Lookup(c2, kind) == Lookup(c1, kind)
      ensures kind != s1.kind ==> Lookup(c1, kind) == Lookup(conditions, kind)
    {
      LookupAfterApply(c4, s5, kind);
      LookupAfterApply(c3, s4, kind);
      LookupAfterApply(c2, s3, kind);
      LookupAfterApply(c1, s2, kind);
      LookupAfterApply(conditions, s1, kind);
    }
    LookupAfterApply(c3, s4, RecoverableType);
    LookupAfterApply(c2, s3, TerminalType);
    LookupAfterApply(c1, s2, SuspendedType);
    LookupAfterApply(conditions, s1, SyncedType);
  }

  /** The status of the condition of that type, if it is there. */
  function StatusOf(conditions: seq<Condition>, kind: ConditionType): Option<TriState> {
    match Lookup(conditions, kind)
    case Some(c) => Some(c.status)
    case None => None
  }

  /** What each outcome looks like, whatever the list held before. */
  lemma ConditionsTellTheOutcome(conditions: seq<Condition>, generation: int, outcome: Outcome, cause: Cause,
                                 message: Message)
    ensures var after := Record(conditions, generation, outcome, cause, message);
            && StatusOf(after, ReadyType) == Some(match outcome
                                                  case Synced => True
                                                  case Terminal => False
                                                  case Suspended => False
                                                  case _ => Unset)
            && StatusOf(after, SyncedType) == Some(match outcome
                                                   case Synced => True
                                                   case Terminal => False
                                                   case _ => Unset)
            && StatusOf(after, TerminalType) == (if outcome.Terminal? then Some(True) else None)
            && StatusOf(after, RecoverableType) == (if outcome.Recoverable? then Some(True) else None)
            && StatusOf(after, SuspendedType) == (if outcome.Suspended? then Some(True) else None)
  {
    RecordSays(conditions, generation, outcome, cause, message);
  }

  lemma {:induction false} ApplyShownChangesNothing(conditions: seq<Condition>, c: Condition)
    requires Shows(conditions, c)
    ensures Apply(conditions, c) == conditions
  {
    if conditions != [] {
      if conditions[0].kind == c.kind {
        assert [c] + conditions[1..] == conditions;
      } else {
        ApplyShownChangesNothing(conditions[1..], c);
        assert [conditions[0]] + conditions[1..] == conditions;
      }
    }
  }

  /** Recording what the list already says changes nothing, so it causes no status write. */
  lemma RecordAgainChangesNothing(conditions: seq<Condition>, generation: int, outcome: Outcome, cause: Cause,
                                  message: Message)
    requires Says(conditions, generation, outcome, cause, message)
    ensures Record(conditions, generation, outcome, cause, message) == conditions
  {
    ApplyShownChangesNothing(conditions, Condition(SyncedType, SyncedStatus(outcome), cause, message, generation));
    ApplyShownChangesNothing(conditions,
                             Condition(SuspendedType, Presence(outcome.Suspended?), cause, message, generation));
    ApplyShownChangesNothing(conditions,
                             Condition(TerminalType, Presence(outcome.Terminal?), cause, message, generation));
    ApplyShownChangesNothing(conditions,
                             Condition(RecoverableType, Presence(outcome.Recoverable?), cause, message, generation));
    ApplyShownChangesNothing(conditions, Condition(ReadyType, ReadyStatus(outcome), cause, message, generation));
  }

  function Count(conditions: seq<Condition>, kind: ConditionType): nat {
    if conditions == [] then 0
    else (if conditions[0].kind == kind then 1 else 0) + Count(conditions[1..], kind)
  }

  /** Apply works on the head, or leaves it and works on the rest. */
  lemma ApplyOnHead(head: Condition, tail: seq<Condition>, c: Condition)
    ensures Apply([head] + tail, c) ==
            if head.kind != c.kind then [head] + Apply(tail, c)
            else if Stays(c) then [c] + tail
            else Apply(tail, c)
  {
    assert ([head] + tail)[1..] == tail;
  }

  lemma {:induction false} CountAfterApply(conditions: seq<Condition>, c: Condition, kind: ConditionType)
    ensures Count(Apply(conditions, c), kind) ==
            if kind != c.kind then Count(conditions, kind)
            else if !Stays(c) then 0
            else if Count(conditions, kind) == 0 then 1 else Count(conditions, kind)
  {
    if conditions != [] {
      var head, tail := conditions[0], conditions[1..];
      assert conditions == [head] + tail;
      ApplyOnHead(head, tail, c);
      CountAfterApply(tail, c, kind);
      assert ([c] + tail)[1..] == tail;
      assert ([head] + Apply(tail, c))[1..] == Apply(tail, c);
    }
  }

  /** The entries of types the operator does not own, in order. */
  function Foreign(conditions: seq<Condition>): seq<Condition> {
    if conditions == [] then []
    else (if conditions[0].kind.ForeignType? then [conditions[0]] else []) + Foreign(conditions[1..])
  }

  lemma {:induction false} ApplyKeepsForeign(conditions: seq<Condition>, c: Condition)
    requires !c.kind.ForeignType?
    ensures Foreign(Apply(conditions, c)) == Foreign(conditions)
  {
    if conditions != [] {
      var head, tail := conditions[0], conditions[1..];
      assert conditions == [head] + tail;
      ApplyOnHead(head, tail, c);
      ApplyKeepsForeign(tail, c);
      assert ([c] + tail)[1..] == tail;
      assert ([head] + Apply(tail, c))[1..] == Apply(tail, c);
    }
  }

  datatype Verdict = Verdict(outcome: Outcome, cause: Cause, message: Message, generation: int)

  function RecordAll(conditions: seq<Condition>, verdicts: seq<Verdict>): seq<Condition> {
    if verdicts == [] then conditions
    else
      var last := verdicts[|verdicts| - 1];
      Record(RecordAll(conditions, verdicts[..|verdicts| - 1]), last.generation, last.outcome, last.cause, last.message)
  }

  /** What the owned conditions promise a reader, whatever the outcome. */
  ghost predicate Coherent(conditions: seq<Condition>) {
    var ready, synced := Lookup(conditions, ReadyType), Lookup(conditions, SyncedType);
    && ready.Some? && synced.Some?
    && (ready.value.status.True? <==> synced.value.status.True?)
    && (synced.value.status.False? <==> Lookup(conditions, TerminalType).Some?)
    && (forall k1, k2 | k1 in {TerminalType, RecoverableType, SuspendedType} &&
        k2 in {TerminalType, RecoverableType, SuspendedType} ::
          Lookup(conditions, k1).Some? && Lookup(conditions, k2).Some? ==> k1 == k2)
    && (forall k | k in {TerminalType, RecoverableType, SuspendedType} && Lookup(conditions, k).Some? ::
          Lookup(conditions, k).value.status.True?)
    && (forall k: ConditionType | !k.ForeignType? && Lookup(conditions, k).Some? ::
          var c := Lookup(conditions, k).value;
          c.cause == ready.value.cause && c.message == ready.value.message && c.generation == ready.value.generation)
  }

  lemma SayingIsCoherent(conditions: seq<Condition>, generation: int, outcome: Outcome, cause: Cause, message: Message)
    requires Says(conditions, generation, outcome, cause, message)
    ensures Coherent(conditions)
  {
  }

  /** One verdict keeps an entry per type unique, and touches no foreign entry. */
  lemma RecordKeepsTheRest(conditions: seq<Condition>, v: Verdict)
    ensures var after := Record(conditions, v.generation, v.outcome, v.cause, v.message);
            && Foreign(after) == Foreign(conditions)
            && forall kind :: Count(conditions, kind) <= 1 ==> Count(after, kind) <= 1
  {
    var s1 := Condition(SyncedType, SyncedStatus(v.outcome), v.cause, v.message, v.generation);
    var s2 := Condition(SuspendedType, Presence(v.outcome.Suspended?), v.cause, v.message, v.generation);
    var s3 := Condition(TerminalType, Presence(v.outcome.Terminal?), v.cause, v.message, v.generation);
    var s4 := Condition(RecoverableType, Presence(v.outcome.Recoverable?), v.cause, v.message, v.generation);
    var s5 := Condition(ReadyType, ReadyStatus(v.outcome), v.cause, v.message, v.generation);
    var c1 := Apply(conditions, s1);
    var c2 := Apply(c1, s2);
    var c3 := Apply(c2, s3);
    var c4 := Apply(c3, s4);
    ApplyKeepsForeign(conditions, s1);
    ApplyKeepsForeign(c1, s2);
    ApplyKeepsForeign(c2, s3);
    ApplyKeepsForeign(c3, s4);
    ApplyKeepsForeign(c4, s5);
    forall kind
      ensures Count(conditions, kind) <= 1 ==> Count(c1, kind) <= 1
      ensures Count(c1, kind) <= 1 ==> Count(c2, kind) <= 1
      ensures Count(c2, kind) <= 1 ==> Count(c3, kind) <= 1
      ensures Count(c3, kind) <= 1 ==> Count(c4, kind) <= 1
      ensures Count(c4, kind) <= 1 ==> Count(Apply(c4, s5), kind) <= 1
    {
      CountAfterApply(conditions, s1, kind);
      CountAfterApply(c1, s2, kind);
      CountAfterApply(c2, s3, kind);
      CountAfterApply(c3, s4, kind);
      CountAfterApply(c4, s5, kind);
    }
  }

  /**
   After any sequence of verdicts over any list with one entry per type: still one entry per type,
   the foreign entries as they were, and the owned ones coherent and saying the last verdict.
   */
  lemma {:induction false} AnySequenceIsCoherent(conditions: seq<Condition>, verdicts: seq<Verdict>)
    requires forall kind :: Count(conditions, kind) <= 1
    ensures forall kind :: Count(RecordAll(conditions, verdicts), kind) <= 1
    ensures Foreign(RecordAll(conditions, verdicts)) == Foreign(conditions)
    ensures verdicts != [] ==>
              var last := verdicts[|verdicts| - 1];
              && Coherent(RecordAll(conditions, verdicts))
              && Says(RecordAll(conditions, verdicts), last.generation, last.outcome, last.cause, last.message)
  {
    if verdicts != [] {
      var before := RecordAll(conditions, verdicts[..|verdicts| - 1]);
      var last := verdicts[|verdicts| - 1];
      AnySequenceIsCoherent(conditions, verdicts[..|verdicts| - 1]);
      RecordKeepsTheRest(before, last);
      RecordSays(before, last.generation, last.outcome, last.cause, last.message);
      SayingIsCoherent(RecordAll(conditions, verdicts), last.generation, last.outcome, last.cause, last.message);
    }
  }

  /** The outcome a list stands for, read back from its conditions alone. */
  function OutcomeOf(conditions: seq<Condition>): Outcome {
    if Lookup(conditions, TerminalType).Some? then Terminal
    else if Lookup(conditions, RecoverableType).Some? then Recoverable
    else if Lookup(conditions, SuspendedType).Some? then Suspended
    else if Lookup(conditions, SyncedType).Some? && Lookup(conditions, SyncedType).value.status.True? then Synced
    else Pending
  }

  /** Conditions lose no outcome: reading them back gives the outcome recorded last. */
  lemma OutcomeReadsBack(conditions: seq<Condition>, generation: int, outcome: Outcome, cause: Cause, message: Message)
    ensures OutcomeOf(Record(conditions, generation, outcome, cause, message)) == outcome
  {
    RecordSays(conditions, generation, outcome, cause, message);
  }

  /** The verdict on an adapter error. */
  function VerdictOn(err: Errors.Error): (Outcome, Cause) {
    if Errors.FirstReason(err).None? then (Recoverable, BackendUnreachable)
    else if Errors.ReasonForError(err).Unreachable? then (Recoverable, BackendUnreachable)
    else if Errors.IsRetryable(err) then (Recoverable, BackendError)
    else if Errors.ReasonForError(err).Unauthorized? || Errors.ReasonForError(err).Forbidden? then
        (Recoverable, Unauthorized)
    else (Terminal, Rejected)
  }

  /** An HTTP status ends Terminal exactly on 400 and 409; every other failure is retried. */
  lemma StatusVerdictIsTotal(status: int, detail: string)
    ensures Errors.NewFromHTTPResponse(status, detail).None? <==> 200 <= status <= 299
    ensures !(200 <= status <= 299) ==>
              (VerdictOn(Errors.NewFromHTTPResponse(status, detail).value).0 ==
               if status == 400 || status == 409 then Terminal else Recoverable)
  {
    var e := Errors.NewFromHTTPResponse(status, detail);
    assert e.Some? ==> Errors.FirstReason(e.value) == Some(e.value.reason);
  }

  /** Which outcome and cause an error is recorded with. */
  lemma VerdictNamesTheCause(err: Errors.Error)
    ensures var reason := Errors.FirstReason(err);
            && (VerdictOn(err) == (Recoverable, BackendUnreachable) <==> reason in {None, Some(Errors.Unreachable)})
            && (VerdictOn(err) == (Recoverable, Unauthorized) <==>
                reason in {Some(Errors.Unauthorized), Some(Errors.Forbidden)})
            && (VerdictOn(err) == (Terminal, Rejected) <==>
                reason in {Some(Errors.InvalidInput), Some(Errors.AlreadyExists)})
            && (VerdictOn(err) == (Recoverable, BackendError) <==>
                reason in {Some(Errors.Unknown), Some(Errors.NotFound), Some(Errors.TooManyRequests),
                           Some(Errors.Internal)})
  {
  }

  /** However deep it is wrapped, an error is Terminal only for a first reason no retry can fix. */
  lemma {:induction false} TerminalIffReasonSays(err: Errors.Error)
    ensures VerdictOn(err).0.Terminal? <==>
            Errors.FirstReason(err) in {Some(Errors.InvalidInput), Some(Errors.AlreadyExists)}
    ensures !VerdictOn(err).0.Terminal? ==> VerdictOn(err).0.Recoverable?
  {
  }

  /** CoreStatus of a resource, updated in place by the reconciler. */
  class CoreStatus {
    var id: string
    var observedHash: string
    var observedGeneration: int
    var conditions: seq<Condition>

    constructor (id: string, observedHash: string, observedGeneration: int, conditions: seq<Condition>)
      ensures this.id == id && this.observedHash == observedHash
      ensures this.observedGeneration == observedGeneration && this.conditions == conditions
    {
      this.id, this.observedHash := id, observedHash;
      this.observedGeneration, this.conditions := observedGeneration, conditions;
    }

    method ApplyCondition(c: Condition)
      modifies this`conditions
      ensures conditions == Apply(old(conditions), c)
    {
      if !c.kind.ReadyType? && !c.kind.SyncedType? && !c.status.True? {
        conditions := Remove(conditions, c.kind);
        return;
      }
      conditions := Put(conditions, c);
    }

    method SetConditionsOnOutcome(generation: int, outcome: Outcome, cause: Cause, message: Message)
      modifies this`conditions, this`observedGeneration
      ensures observedGeneration == generation
      ensures conditions == Record(old(conditions), generation, outcome, cause, message)
    {
      observedGeneration := generation;
      var synced := Unset;
      match outcome {
        case Synced => synced := True;
        case Terminal => synced := False;
        case _ =>
      }
      ApplyCondition(Condition(SyncedType, synced, cause, message, generation));
      ApplyCondition(Condition(SuspendedType, Presence(outcome.Suspended?), cause, message, generation));
      ApplyCondition(Condition(TerminalType, Presence(outcome.Terminal?), cause, message, generation));
      ApplyCondition(Condition(RecoverableType, Presence(outcome.Recoverable?), cause, message, generation));
      var ready := Unset;
      match outcome {
        case Synced => ready := True;
        case Terminal => ready := False;
        case Suspended => ready := False;
        case _ =>
      }
      ApplyCondition(Condition(ReadyType, ready, cause, message, generation));
    }

    method SetConditionsOnErr(generation: int, err: Errors.Error) returns (outcome: Outcome)
      modifies this`conditions, this`observedGeneration
      ensures outcome == VerdictOn(err).0 && observedGeneration == generation
      ensures conditions == Record(old(conditions), generation, VerdictOn(err).0, VerdictOn(err).1, Quoting(err))
    {
      if Errors.FirstReason(err).None? {
        SetConditionsOnOutcome(generation, Recoverable, BackendUnreachable, Quoting(err));
        return Recoverable;
      }
      if Errors.ReasonForError(err).Unreachable? {
        SetConditionsOnOutcome(generation, Recoverable, BackendUnreachable, Quoting(err));
        return Recoverable;
      }
      if Errors.IsRetryable(err) {
        SetConditionsOnOutcome(generation, Recoverable, BackendError, Quoting(err));
        return Recoverable;
      }
      if Errors.ReasonForError(err).Unauthorized? || Errors.ReasonForError(err).Forbidden? {
        SetConditionsOnOutcome(generation, Recoverable, Unauthorized, Quoting(err));
        return Recoverable;
      }
      SetConditionsOnOutcome(generation, Terminal, Rejected, Quoting(err));
      return Terminal;
    }
  }
}
