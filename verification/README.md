# Proofs about the SigNoz operator

The operator mirrors a Kubernetes custom resource onto one object in SigNoz. The create is a POST that
is not idempotent (section 9.2.2 of RFC 9110) and the server assigns the id, so everything rests on the
order of durable writes: finalizer, `create-attempt` annotation, POST, `status.signozResource.id`, and
only one pass later the removal of the annotation. This project models that protocol and the parts it
leans on, and proves what they promise for every run or every input.

`dafny verify dfyconfig.toml` checks everything.

## How the model is laid out

| module | what it models |
|---|---|
| `JsonTree`, `JsonDiff`, `JsonCompare`, `PathReporting`, `JsonUpdate` | drift detection: the asymmetric equality, the reported paths, the field report, and what an update leaves |
| `Errors`, `Transport`, `Conditions` | error chains and their reasons, what a create makes of a reply, the status conditions |
| `Find` | the lookup loops |
| `ProviderConfig`, `Resolver` | what a provider config resolves to, and the cache that serves one resolution |
| `Protocol` | the machine: durable resource, SigNoz, the volatile pass, and one step per effect |
| `Cluster`, `Reconciler` | the reconciler as written, imperative, proved to take exactly the machine's steps |
| `Safety`, `History`, `Attempt`, `RecordedHash`, `Outcomes`, `Requeue`, `Suspension` | theorems over all runs of the machine |
| `Convergence`, `Stalemate`, `ConvergenceExact`, `Deletion` | undisturbed runs: how many passes settle a resource, exactly, when none does, and when one finishes a deletion |
| `Hypotheses` | which hypotheses each safety theorem needs, exactly |
| `Witnesses`, `HashWitnesses`, `PinWitnesses`, `ConvergenceWitness` | runs and starts that show the hypotheses and bounds cannot be dropped |

`Protocol.Step` interleaves two kinds of labels. The operator's effects are Kubernetes writes, config
resolution, lookups, and the four requests to SigNoz; each meets a fate (applied, refused, reply lost,
POST still in flight, and so on). Everyone else may at any point edit or delete the resource, hold it with
another finalizer, create, rename, edit or delete objects in SigNoz, let a lost POST land or vanish, and
crash the operator, which loses the pass. `Reconciler.CommonReconciler` is the same code with fields,
methods, early returns and loops, running against a `Cluster.World` whose script decides everything
else; each of its effects has to be the one the machine is waiting for, so every run of the code is a run
of the machine and inherits the theorems (`Reconciler.Operate`).

## Hypotheses

They are the fields of `Protocol.Assumptions`, one Boolean each, so that every theorem names those it needs.

* `visible`: a lookup returns exactly the matching objects, and a POST whose reply was lost has taken
  effect by then or never will. `Find.WalkListsAll` derives the first half for the paged lookup.
* `honest404`: an object reported as not found is gone.
* `cleanRefusal`: a POST answered with 400, 401 or 403 created nothing.
* `noPin`, `fixedIdentity`, `deletePolicy`, `payload`: the user sets no pin, keeps the identity derivable and
  the same, keeps the reclaim policy Delete, gives every body an updatable field.
* `noRename`: nobody else renames an object this resource created.
* `steady`: the body does not change between the start of a pass and a write of that pass.

At most one object needs `visible`, `fixedIdentity` and `noRename`; write-ahead needs the three and
`honest404`, `cleanRefusal` and `noPin`; the absence of leaks needs the six and `deletePolicy`. Module
`Hypotheses` shows each set exact: the property holds of every run under a choice of assumptions if and only
if the choice includes the set.

Built into the machine, and so assumed by every theorem over runs:

* a run starts between passes, from any resource (finalizer, annotation, pin, status and conditions as they
  may be) and any store of objects of others; a recorded id is one that SigNoz has assigned;
* one worker per resource, and each pass starts from a fresh read;
* nobody else strips the operator's finalizer, writes the status or touches the create-attempt annotation;
* a create reply that names an id names the object that landed, a PUT or DELETE that succeeds was applied,
  and a read that succeeds returns the live body (a 2xx without `data`, which Compare would take for null,
  does not occur);
* a Kubernetes write takes effect before its reply is missed, or never. The annotation patches carry no
  precondition, so one that cleared the annotation late, after a later pass had set it again and lost a
  POST, would break the write-ahead discipline.

## What the code does that its documentation does not say

* `docs/idempotency.md:89-102` describes a grace period after an empty lookup.
  The code has none: `internal/resources/reconcilers/common_reconciler.go:207-209` creates on an empty lookup
  even while the annotation is set. At most one object is therefore created only under `visible`, and
  `Witnesses.VisibilityIsNeeded` is a run with two.
* `docs/idempotency.md:84` clears the annotation on every other 4xx. The code keeps it for all of them but
  400, 401 and 403 (`Transport.AttemptClearedIffSurelyNothingCreated`).
* `docs/idempotency.md:98` says that the pinned object is the one adopted while no id is recorded, and that
  a pin outside the matches goes Terminal. Only the lookup that a pass makes to adopt looks at the pin:
  the lookups after a conflict and for a reclaim take a single match whatever the pin says
  (`History.LookupsDecide`, `PinWitnesses.AdoptsAroundThePin`, `PinWitnesses.ReclaimsAroundThePin`).
* A patch of the annotation replaces the copy in memory by what is stored, while the hash was taken
  before. A body edited in between is sent under the hash of the older one
  (`HashWitnesses.SteadyIsNeeded`). A reply backs the hash recorded from it exactly when that is still the
  hash of the body in memory, and a body was sent or compared clean (`RecordedHash.ReplyBacksIffCurrent`).
* A body without any updatable field is never sent, yet the pass records its hash and reports Updated; the
  drift stays (`JsonUpdate.NilPayloadKeepsDrift`, `HashWitnesses.PayloadIsNeeded`).
* A remote key that contains a dot, or is empty, can be reported as a change of a field that neither side
  has; nothing else makes a report wrong (`JsonCompare.ExactIffNothingAliases`).

## How many passes settle a resource

Take a live resource that is not suspended and has an identity and a hash, and let nobody disturb its
passes. `Convergence.WithinPasses` reads a distance off the start, from 0 to 4 or none, and
`ConvergenceExact.SettlesInIffWithin` shows it exact: every undisturbed run of n passes settles the resource
if and only if the start is within n, whatever SigNoz makes of a POST.

* It settles at all if and only if its recorded object is there, or a lookup leaves no choice to the user:
  the pin is among the matches, however many there are, or there is no pin and at most one match
  (`ConvergenceExact.SettlesAtAllIff`). Four passes are enough then.
* The fourth pass is needed exactly when the recorded object is gone, there is no pin and no match, there is
  something to send, and some updatable field is not immutable as well
  (`ConvergenceWitness.ThreePassesSettleIffNotThatCase`): one pass drops the id, one creates, one updates
  what was stored differently, and one more turns the reason from Updated to Synced.
* Otherwise nothing is ever sent, and after two passes the resource is Terminal and lists the candidates
  (module `Stalemate`). The list follows the order of the lookup, so with several matches the status is
  written again whenever SigNoz lists them in another order, and only then.

## Model

| member | source | states |
|---|---|---|
| Safety.WriteAhead | internal/resources/reconcilers/common_reconciler.go:377-438 | In every state of every run, with or without the finalizer, crashes, lost replies, failed patches and foreign steps included, a live object the operator created is named by the durable id, or no id is durable and the annotation is. |
| Safety.AtMostOneCreated | internal/resources/reconcilers/common_reconciler.go:165-209 | Under visible, fixedIdentity and noRename alone, in every state of every run at most one live object was created by the operator, whatever pins, false not-founds and unclean refusals there are, because each POST follows a complete empty lookup of the same pass. |
| Hypotheses.AtMostOneIffKeepsOne | internal/resources/reconcilers/common_reconciler.go:165-209 | At most one object holds of every run under a choice of assumptions, if and only if the choice includes these three. |
| Hypotheses.WrittenAheadIffTrusted | internal/resources/reconcilers/common_reconciler.go:377-438 | Write-ahead does, if and only if it includes these three, honest404, cleanRefusal and noPin. |
| Hypotheses.NeverLeaksIffTrustedDelete | internal/resources/reconcilers/common_reconciler.go:440-519 | The absence of leaks does, if and only if it includes all six and deletePolicy. |
| Safety.NothingOutlivesTheFinalizer | internal/resources/reconcilers/common_reconciler.go:440-519 | Under policy Delete, once the finalizer or the resource is gone no object of ours is live and no lost POST can still land, however often finalizing failed, crashed or was entered again. |
| Safety.StepKeepsInv | internal/resources/reconcilers/common_reconciler.go:47-80 | The invariant behind the three is kept by every step of the operator and of everyone else, from any state that has it. |
| Safety.LookupFindsOurs | internal/resources/reconcilers/common_reconciler.go:484-503 | A complete lookup that returns nothing proves that nothing of ours exists; one that returns a single id proves that nothing of ours exists but that. |
| Witnesses.VisibilityIsNeeded | internal/resources/reconcilers/common_reconciler.go:207-209 | A run that keeps to all other assumptions and ends with two live objects of ours: without visibility at-most-one fails. |
| Witnesses.FixedIdentityIsNeeded | internal/resources/reconcilers/common_reconciler.go:103-114 | The same for an identity the user changes between two passes. |
| Witnesses.NoRenameIsNeeded | internal/resources/reconcilers/common_reconciler.go:165-209 | The same for an object somebody renames before its id is durable. |
| Witnesses.CleanRefusalIsNeeded | internal/resources/reconcilers/common_reconciler.go:395-400 | A run in which a refused POST created something after all, and the annotation is taken back. |
| Witnesses.Honest404IsNeeded | internal/resources/reconcilers/common_reconciler.go:232-246 | A run in which a false not-found drops the id of a live object. |
| Witnesses.NoPinIsNeeded | internal/resources/reconcilers/common_reconciler.go:175-200 | A run in which a pin makes the operator adopt another object than the one it created. |
| Witnesses.DeletePolicyIsNeeded | internal/resources/reconcilers/common_reconciler.go:449-452 | A run in which an object of ours outlives the resource under policy Orphan. |
| Attempt.ClearedOnlyWhenSettled | internal/resources/reconcilers/common_reconciler.go:387-402 | Without any of the named hypotheses, the step that takes the annotation back finds an id durable, or follows, as the operator's next effect, a create whose body could not be rendered, whose request was not sent, or that got a usable 400, 401 or 403; under cleanRefusal that create landed nothing. |
| Attempt.TakesBackIffMadeNothing | internal/resources/reconcilers/common_reconciler.go:387-402 | A pass that has announced its create waits to take the annotation back after the reply, if and only if the body failed to render as InvalidInput, Unauthorized or Forbidden, the request was not sent, or a usable 400, 401 or 403 came back. |
| Attempt.TakenBackIffMadeNothing | internal/resources/reconcilers/common_reconciler.go:395-400 | The same in every run, where each create is announced; and after such a create, whatever others do in the meantime, the operator's next write leaves no durable annotation if it is applied. |
| Transport.AttemptClearedIffSurelyNothingCreated | internal/resources/adapters/common_transport.go:19-42 | Through exchange, status table and retryability, a create ends as one to take back if and only if its body failed to render for a non-retryable reason, was not sent, or met a usable 400, 401 or 403. |
| Transport.ConflictIffUsable409 | internal/errors/http.go:26-37 | A create ends as a conflict if and only if a usable 409 came back, or its body failed to render as one. |
| Transport.CreatedIffReadableSuccess | internal/jsonbody/extract.go:20-27 | An id comes out of a create exactly when a 2xx carries a readable, non-empty one. |
| History.WritesAreTargeted | internal/resources/reconcilers/common_reconciler.go:305-308 | Every PUT and DELETE of every run names an id that an earlier create reply named, that an earlier lookup settled on (the pinned match of a lookup to adopt, else its only match, and for this identity if the user keeps it), or that the resource had recorded before the run. |
| History.LookupsAreForTheIdentity | internal/resources/reconcilers/common_reconciler.go:103-114 | While the user keeps the identity, every lookup of every run is for it. |
| History.CreatesFollowAnEmptyLookup | internal/resources/reconcilers/common_reconciler.go:176-209 | Every POST of every run directly follows a lookup to adopt that found nothing while no pin was set. |
| History.InconclusiveLookupsWriteNothing | internal/resources/reconcilers/common_reconciler.go:187-221 | A lookup that settles on no object, nor on creating one, is followed in the log by another lookup and by nothing else: several matches without a pin among them, or, when it was made to adopt, a pin that is not among them. |
| History.MissedPinsRarelyWrite | internal/resources/reconcilers/common_reconciler.go:484-503 | A lookup whose pin is set and not among what it found is followed by a POST, PUT or DELETE only if it was made after a conflict or for a reclaim, and found exactly one object. |
| History.LookupsDecide | internal/resources/reconcilers/common_reconciler.go:324-340 | The pass after a lookup goes for exactly the object it settles on and creates exactly when there is none to adopt; so with a pin that is missed it acts if and only if it is a conflict or reclaim lookup with one match. |
| PinWitnesses.ReclaimsAroundThePin | internal/resources/reconcilers/common_reconciler.go:501-503 | A run in which a deletion removes the only match although the pin names another object. |
| PinWitnesses.AdoptsAroundThePin | internal/resources/reconcilers/common_reconciler.go:337-340 | A run in which a conflict makes the operator adopt and write to the only match although the pin names another object. |
| RecordedHash.ReplyBacksIffCurrent | internal/resources/reconcilers/common_reconciler.go:410-418 | The reply a pass records its hash from backs that hash, if and only if it is the hash of the body in memory when the request is made and the request is a POST, a PUT, or a read that compares clean. |
| RecordedHash.OnlyRecordingSetsTheHash | internal/resources/reconcilers/common_reconciler.go:279-318 | No other reply changes the hash in memory, except to drop it; a recording one sets the pass's hash together with the id it concerns. |
| RecordedHash.RecordedHashBelongs | internal/resources/reconcilers/common_reconciler.go:410-418 | A durable hash never comes to stand without an id; in runs whose recording replies were all of that kind it is the hash of a body SigNoz accepted for that id or that compared clean with its object, or it had been recorded with that id before the run. |
| RecordedHash.SteadyRunsAreCurrent | internal/resources/reconcilers/common_reconciler.go:129-157 | They are, in steady runs with payloads. |
| History.AdoptionComparesNoHash | internal/resources/reconcilers/common_reconciler.go:435-437 | A pass that adopts reads with no recorded hash, so it never compares against another object's, if the run did not start with a hash and no id. |
| HashWitnesses.SteadyIsNeeded | internal/resources/reconcilers/common_reconciler.go:543-556 | A run in which an edit arrives with the reply of the annotation patch, and the recorded hash belongs to no body SigNoz was sent. |
| HashWitnesses.PayloadIsNeeded | internal/resources/adapters/common_transport.go:62-69 | A run in which nothing is sent, the object differs, and its hash is recorded all the same. |
| Outcomes.EndsBecause | internal/resources/reconcilers/common_reconciler.go:82-375 | In every run, for each of the causes a condition can name: a pass concludes with it if and only if it has just seen what the cause stands for (a spec, a config, the ids of a lookup, an error by its first reason, the reply to a create, a comparison), and then with the outcome, message, generation, id, hash and requeue that go with it. |
| Outcomes.OutcomeIffLeads | internal/resources/reconcilers/common_reconciler.go:82-375 | In every run a pass concludes Terminal if and only if it has seen a spec without identity or hash, an error whose first reason is InvalidInput or AlreadyExists, a missed pin, several matches without one, an immutable field that differs, or a body that cannot be compared; likewise for Recoverable, Synced, Pending and Suspended. |
| Outcomes.OpenEndsAreRetried | internal/resources/reconcilers/common_reconciler.go:129-141 | A config that does not resolve, a request without an answer and a conflict without a match always conclude Recoverable, with the retry interval, and lose neither id nor hash. |
| Outcomes.CreatedIsInSync | internal/resources/reconcilers/common_reconciler.go:405-420 | A create that names an id concludes Synced under that id, with the hash and the generation from before the annotation, and the interval. |
| Outcomes.GoneIsPending | internal/resources/reconcilers/common_reconciler.go:233-246 | A read that finds nothing concludes Pending without id and hash, for a pass a second later. |
| Outcomes.LooksAgainIffConflicted | internal/resources/reconcilers/common_reconciler.go:388-391 | A create is followed by a second lookup if and only if it met a conflict, and nothing else of the pass changes. |
| Outcomes.SendsIffDrifted | internal/resources/reconcilers/common_reconciler.go:267-309 | An update is sent if and only if no immutable field differs, an updatable one or the recorded hash does, and there is something to send; it carries the body's updatable fields. |
| Outcomes.ResolvesIffUsable | internal/resources/reconcilers/common_reconciler.go:90-141 | A pass goes on to the config if and only if its spec is not suspended and has an identity and a hash, which are what it goes on with. |
| Outcomes.PatchBringsWhatIsStored | internal/resources/reconcilers/common_reconciler.go:543-572 | A patch changes nothing durable but the annotation; its reply brings what is stored into memory, edits included, under the identity, hash and generation from before, and without a reply the pass fails with its status as it was. |
| Outcomes.UnresolvedIffNothingToReclaim | internal/resources/reconcilers/common_reconciler.go:440-471 | A deletion drops the finalizer without a provider config if and only if the policy is Orphan, or no id is recorded and no create or adoption was announced. |
| Outcomes.FinalizingWaits | internal/resources/reconcilers/common_reconciler.go:473-519 | While finalizing, the finalizer goes if and only if there is no identity to look by, no match, or a delete that succeeded or found nothing; one object named leads to its delete; everything else ends the pass with the retry interval. |
| Requeue.EndsAsItsConditionsSay | internal/resources/reconcilers/common_reconciler.go:47-157 | Every pass of every run ends in an error, with nothing left, waiting to reclaim, or with exactly the requeue that the outcome read back from the durable conditions asks for: Synced the interval, Recoverable the retry interval, Pending one second, Terminal and Suspended none. |
| Requeue.NobodyIsStranded | internal/resources/reconcilers/common_reconciler.go:440-519 | Given a positive default interval, a pass that ends without error or requeue leaves a resource that is finalized, or says Terminal or Suspended. |
| Requeue.IntervalsFallBack | internal/resources/reconcilers/common_reconciler.go:591-615 | Both intervals are the first duration that is set in the documented order, the operator's default last, and positive if that is. |
| Suspension.SuspendedIsLeftAlone | internal/resources/reconcilers/common_reconciler.go:90-101 | In every run that keeps a live resource suspended nothing is asked of SigNoz: a pass only adds the finalizer and saves a status that reads Suspended. |
| Convergence.SettlesWithin | internal/resources/reconcilers/common_reconciler.go:224-322 | Any undisturbed run of n passes from a start within n ends settled: at once, or after one pass if the object is there and needs no update, two if it is there or can be adopted, and so on. |
| Convergence.FourPassesSettle | internal/resources/reconcilers/common_reconciler.go:224-322 | Four passes settle any live, unsuspended resource with identity and hash whose recorded object is there, or for which a lookup finds the pin or, without one, at most one match. |
| ConvergenceExact.SettlesInIffWithin | internal/resources/reconcilers/common_reconciler.go:159-322 | For every n and every live, unsuspended resource with identity and hash, pinned or not and with any number of matches, every undisturbed run of n passes settles it if and only if its start is within n. |
| ConvergenceExact.SettlesAtAllIff | internal/resources/reconcilers/common_reconciler.go:175-221 | Some number of passes settles it for sure if and only if its object is there, its pin is among the matches, or it has no pin and at most one match. |
| ConvergenceWitness.PinDecides | internal/resources/reconcilers/common_reconciler.go:175-200 | With two matches a pin decides: the resource settles if and only if the pin names one of them. |
| Stalemate.StalemateSendsNothing | internal/resources/reconcilers/common_reconciler.go:187-221 | When the pin is missed or several objects match without one, and no recorded object is there, no undisturbed run sends anything but lookups, and SigNoz stays as it is. |
| Stalemate.StalemateIsTold | internal/resources/reconcilers/common_reconciler.go:187-221 | After one pass, or two if a stale id has to be dropped first, the outcome reads Terminal, no id is recorded, and the conditions name the pin or the ambiguity and list exactly the matches. |
| Stalemate.StalemateStaysPut | internal/resources/reconcilers/common_reconciler.go:66-77 | Once it is told, and as long as lookups list in the same order, neither side changes any more. |
| Stalemate.FewMatchesStayPut | internal/resources/reconcilers/common_reconciler.go:66-77 | With at most one match there is only one order, so a missed pin rests for good. |
| ConvergenceExact.ThreePassesSettleIff | internal/resources/reconcilers/common_reconciler.go:232-246 | Of the starts that four passes settle, three settle all but those whose recorded object is gone while there is no pin and no match, there is something to send, and SigNoz could store something that needs sending. |
| ConvergenceWitness.DriftableIff | internal/resources/objects/zz_generated_role_object.go:56-62 | With plain field lists SigNoz could do so if and only if some updatable field is not immutable too. |
| ConvergenceWitness.ThreePassesSettleIffNotThatCase | internal/resources/reconcilers/common_reconciler.go:232-246 | The same exact condition on the start, as a test on the resource, the kind's field lists and what is live. |
| Convergence.SettledStaysPut | internal/resources/reconcilers/common_reconciler.go:66-77 | Once settled, any number of undisturbed passes changes neither side and sends no POST, PUT or DELETE. |
| Convergence.SettledIsSyncedOrTerminal | internal/resources/reconcilers/common_reconciler.go:267-321 | Settled reads Terminal exactly when an immutable field differs, else Synced with the body's hash; Synced with a payload means that every updatable field agrees. |
| Convergence.PassesEnd | internal/resources/reconcilers/common_reconciler.go:82-157 | An undisturbed pass has at most seven effects. |
| Convergence.CompletePasses | internal/resources/reconcilers/common_reconciler.go:82-157 | Any number of undisturbed passes can be completed: no pass gets stuck, so the settling runs exist. |
| Convergence.UpdateRests | internal/resources/reconcilers/common_reconciler.go:279-297 | After a replacing PUT and with the new hash recorded, the next pass has nothing to send, so there is no update loop. |
| ConvergenceWitness.FourCanBeNeeded | internal/resources/reconcilers/common_reconciler.go:232-246 | A start that four passes settle for sure and three do not. |
| ConvergenceWitness.SettledIsReached | internal/resources/reconcilers/common_reconciler.go:224-322 | Some undisturbed run of four passes settles that start, so the convergence theorems are not about nothing. |
| Deletion.DeletesIffNotAmbiguous | internal/resources/reconcilers/common_reconciler.go:440-507 | For every deleted resource that still has its finalizer: every undisturbed run of a pass or more finishes the deletion if and only if it is not so that policy is Delete, no id is recorded, the annotation is set, and several objects match the identity. |
| Deletion.OnePassDeletes | internal/resources/reconcilers/common_reconciler.go:440-519 | It is finished when the finalizer is gone and exactly what it accounts for is gone from SigNoz: the recorded object and no other, however many share its identity; else the only match of an announced one; else, or under policy Orphan, nothing. |
| Deletion.AmbiguousDeletionWaits | internal/resources/reconcilers/common_reconciler.go:501-506 | With several matches for an announced object no undisturbed run changes the resource or SigNoz. |
| Deletion.DeletionCompletes | internal/resources/reconcilers/common_reconciler.go:440-519 | A pass that finishes a deletion can always be completed, in at most four effects. |
| JsonTree.EqualIffTrimmed | internal/jsonbody/diff.go:10-26 | Equality is exactly equality up to keys only the remote has whose values are deep zeros, at every depth where the two line up. |
| JsonTree.DeepZeroIsClosed | internal/jsonbody/diff.go:53-77 | Being a deep zero is kept in both directions by adding ignorable keys. |
| JsonTree.DeepZeroIffZeroLeaves | internal/jsonbody/diff.go:53-77 | A value is a deep zero if and only if everything in it that is not an object is null, false, zero, the empty string or the empty array. |
| JsonTree.AbsentKeyIsIgnoredIff | internal/jsonbody/diff.go:10-19 | An object equals itself with one more key on the remote side if and only if the leaves of the value there are such; never the other way round. |
| JsonTree.EqualIsReflexive | internal/jsonbody/diff.go:21-26 | Every tree is equal to itself. |
| JsonTree.EqualIsTransitive | internal/jsonbody/diff.go:21-26 | The asymmetric equality is transitive. |
| JsonTree.EqualIsAntisymmetric | internal/jsonbody/diff.go:21-26 | Two trees equal in both directions are the same: it is a partial order. |
| JsonDiff.DiffIsEmptyIffEqual | internal/jsonbody/diff.go:28-34 | No path is reported if and only if the two trees are equal, however arrays that differ are aligned. |
| JsonDiff.DiffAtIsEmptyIffAgree | internal/jsonbody/diff.go:28-34 | The same at one key, presence included. |
| JsonDiff.AbsentKeyIsSilentIff | internal/jsonbody/diff.go:53-77 | A key that only the remote has is not reported if and only if the leaves of its value are null, false, zero, the empty string or the empty array. |
| JsonDiff.ZippingAligns | internal/jsonbody/diff.go:121-134 | What is assumed of array alignment can be met. |
| JsonCompare.ReportIsExact | internal/jsonbody/diff.go:36-51 | A plain field is reported if and only if the values under it disagree, presence included, when no top-level key aliases it. |
| JsonCompare.UnreportedAgrees | internal/jsonbody/diff.go:36-51 | Whatever keys there are, a plain field that is not reported agrees, and the remote is an object: aliasing keys only ever add false reports. |
| JsonCompare.ExactIffNothingAliases | internal/jsonbody/diff.go:79-119 | Over a set of keys the report about a plain field is right for all objects if and only if no key is empty or starts with the field and a dot. |
| JsonCompare.AliasIsMisreported | internal/jsonbody/diff.go:106-119 | The false report: a remote with only an aliasing key, and neither side with the field. |
| JsonCompare.CompareIsExact | internal/resources/objects/zz_generated_role_object.go:82-94 | Compare lists exactly the updatable and immutable fields that disagree, and all of them when the remote is no object. |
| JsonCompare.OverlapsIffOneLeadsThrough | internal/jsonbody/diff.go:79-85 | Two dotted paths of plain keys overlap if and only if one of them leads through the other, key by key. |
| JsonCompare.FormatPathJoins | internal/jsonbody/diff.go:106-119 | A path is its segments joined by dots. |
| JsonCompare.ItoaReadsBack | internal/jsonbody/diff.go:106-119 | An index in a path is its decimal digits, without a leading zero. |
| JsonCompare.Intersect | internal/jsonbody/diff.go:38-51 | The nested loops return the fields some path overlaps, in field order, each as often as listed. |
| PathReporting.PathReporter.PushStep | internal/jsonbody/diff.go:92-94 | A step goes onto the current path. |
| PathReporting.PathReporter.Report | internal/jsonbody/diff.go:96-100 | A mismatch adds the current path, a match nothing. |
| PathReporting.PathReporter.PopStep | internal/jsonbody/diff.go:102-104 | The current path loses its last step. |
| PathReporting.Walk | internal/jsonbody/diff.go:28-34 | Driven through two trees, the reporter gains exactly the paths of the declarative difference below its current path, and its path is restored. |
| PathReporting.CompareBodies | internal/resources/objects/zz_generated_role_object.go:82-94 | Walk and two intersections give what the declarative comparison gives. |
| JsonUpdate.ExtractFields | internal/jsonbody/extract.go:29-43 | The payload is the body's listed fields, and none at all when it has none of them. |
| JsonUpdate.PayloadIsTheListedPart | internal/jsonbody/extract.go:29-43 | A field is in the payload if and only if it is listed and the body has it, with the body's value. |
| JsonUpdate.CleanIffFieldsAgree | internal/jsonbody/diff.go:36-51 | Without aliasing keys nothing is reported if and only if every listed field agrees. |
| JsonUpdate.OneUpdateSuffices | internal/resources/reconcilers/common_reconciler.go:279-321 | After a PUT that sets what was sent and zeroes omitted updatable fields, no updatable field is reported. |
| JsonUpdate.UpdateSettlesIffPayloadOrClean | internal/resources/adapters/common_transport.go:59-81 | Update leaves no drift if and only if there was something to send or no drift to begin with. |
| JsonUpdate.NilPayloadKeepsDrift | internal/resources/adapters/common_transport.go:62-69 | The drift that an update without payload never ends. |
| Conditions.AnySequenceIsCoherent | internal/resources/condition.go:37-62 | After any sequence of outcomes: one entry per type, Ready and Synced present and True together, Synced False iff Terminal present, at most one of Terminal, Recoverable and Suspended and only True, one shared reason, message and generation, foreign entries untouched. |
| Conditions.RecordSays | internal/resources/condition.go:37-62 | Recording an outcome makes each owned condition show exactly that outcome. |
| Conditions.ConditionsTellTheOutcome | internal/resources/condition.go:37-62 | Which of the five conditions are there after an outcome, and which of True, False and Unknown each says. |
| Conditions.RecordAgainChangesNothing | internal/resources/condition.go:37-62 | Recording what the list already says leaves it as it is, so no status write follows. |
| Conditions.OutcomeReadsBack | internal/resources/condition.go:11-26 | The outcome can be read back from the conditions alone. |
| Conditions.StatusVerdictIsTotal | internal/errors/http.go:9-43 | Every status outside 200 to 299 is Terminal if it is 400 or 409, and else Recoverable. |
| Conditions.TerminalIffReasonSays | internal/errors/error.go:68-102 | However wrapped, an error is Terminal if and only if its first reason is InvalidInput or AlreadyExists; a chain without a reason is Recoverable. |
| Conditions.VerdictNamesTheCause | internal/resources/condition.go:64-92 | For each of the four verdicts on an error, exactly the first reasons that lead to it. |
| Errors.ReasonIsTheFirst | internal/errors/error.go:68-102 | The reason of an error is that of the first link of its chain that carries one, else Unknown; a retry may fix all but InvalidInput, Unauthorized, Forbidden and AlreadyExists. |
| Errors.StatusNamesTheReason | internal/errors/http.go:9-43 | A failing status reads as NotFound exactly for 404, AlreadyExists for 409, InvalidInput for 400, Unauthorized for 401, Forbidden for 403, TooManyRequests for 429, Internal from 500 on. |
| Conditions.CoreStatus.ApplyCondition | internal/resources/condition.go:94-108 | The list afterwards is the one with that condition set, or with its type removed. |
| Conditions.CoreStatus.SetConditionsOnOutcome | internal/resources/condition.go:37-62 | The status afterwards is the recorded one, generation included, and id and hash are untouched. |
| Conditions.CoreStatus.SetConditionsOnErr | internal/resources/condition.go:64-92 | The outcome and the conditions are those of the verdict on the error. |
| Find.FindByPage | internal/resources/adapters/common_find.go:61-108 | Watched for any number of requests, the walk has stopped at the first page that ends it, after as many requests, with what the pages up to it hold: the matching ids in order, or the error; or no page so far ends it and it is still going on. |
| Find.WalkIsOkIff | internal/resources/adapters/common_find.go:69-107 | A walk that stops at a page succeeds if and only if each reply up to it is a 2xx with a list and no match on them lacks an id. |
| Find.WalkFailsAsItsReply | internal/resources/adapters/common_find.go:70-92 | It fails with the error of a request without reply, and for a failing status with one that is Terminal exactly for 400 and 409. |
| Find.StopsIffSomePageEnds | internal/resources/adapters/common_find.go:69-107 | The walk comes to an end if and only if some page ends it: an error, an empty page, a total reached, or a match without an id. |
| Find.StableWalksEnd | internal/resources/adapters/common_find.go:103-106 | Over a list that holds still it does, however much the total overcounts. |
| Find.FindByField | internal/resources/adapters/common_find.go:19-55 | It succeeds if and only if there is an identity, the reply is a 2xx with a list, and no match lacks an id, and then with the matching ids in order; a request without reply fails as such, and a failing status is Terminal exactly for 400 and 409. |
| Find.StableWalk | internal/resources/adapters/common_find.go:57-108 | Over a list that holds still the walk returns the matching ids of what it saw, or an error exactly when one of those has no id, in exactly the counted number of requests. |
| Find.CompleteIffNothingHidden | internal/resources/adapters/common_find.go:103-106 | It returns all matches of the list if and only if none lacks an id and none lies beyond what the total lets it see. |
| Find.HonestTotals | internal/resources/adapters/common_find.go:103-106 | A total that does not undercount hides nothing and costs at most one request more than there are pages; an exact one costs none. |
| Find.WalkListsAll | internal/resources/adapters/common_find.go:57-108 | Paging through an unchanging enumeration of SigNoz gives the complete lookup that `visible` speaks of. |
| Find.GetIds | api/resources/v1alpha1/core.go:119-130 | The usable ids, in order. |
| Find.IdsDropOnlyTheEmpty | api/resources/v1alpha1/core.go:111-130 | Exactly the non-empty ids are handed on; all of them, in place, if and only if no entry lacks one. |
| ProviderConfig.ValueMeans | internal/providerconfig/resolvers/cache.go:192-243 | A field resolves to the trimmed inline value, or to the trimmed text under the key of exactly the Secret or else ConfigMap it names, and if and only if that is there. |
| ProviderConfig.EndpointMeans | internal/providerconfig/resolvers/cache.go:102-123 | The endpoint is the parse of such a value, if and only if it is http or https and has a host. |
| ProviderConfig.AuthenticationMeans | internal/providerconfig/resolvers/cache.go:126-152 | The credential is such a value, if and only if it is not empty, under the given header or SIGNOZ-API-KEY, with the given scheme. |
| ProviderConfig.TrustMeans | internal/providerconfig/resolvers/cache.go:154-187 | Trust is insecure as given, with the certificates of the named bundle, if and only if that is there and has any. |
| ProviderConfig.ResolutionMeans | internal/providerconfig/resolvers/cached_resolver.go:68-112 | A config resolves to exactly those three, and fails if and only if there are no such three. |
| ProviderConfig.FailuresAreNamed | internal/providerconfig/resolvers/cache.go:192-243 | A field that says nothing is invalid under its path; a missing object, one that cannot be read and a missing key are told apart and named by the path of the reference, a Secret before a ConfigMap. |
| ProviderConfig.EmptyCredentialIsRejected | internal/providerconfig/resolvers/cache.go:126-152 | A credential that trims to nothing is rejected as empty. |
| Resolver.Resolve | internal/providerconfig/resolvers/cached_resolver.go:68-112 | In any order of names it returns a config exactly if all sources are there and fit, and then the one they make; it agrees with the uncached resolution in its errors too, reads no object twice, reads everything named before anything is resolved, and returns exactly the versions of the successful reads even when it fails. |
| Resolver.NamedIsReadAhead | internal/providerconfig/resolvers/cached_resolver.go:82-90 | With no empty name in the spec nothing is read after the prefetch, and what is read is exactly what is referenced. |
| Resolver.Cache.Secret | internal/providerconfig/resolvers/cache.go:51-74 | It answers as a direct read of the Secret would, reads only what was not read before, and keeps the cache true. |
| Resolver.Cache.ConfigMap | internal/providerconfig/resolvers/cache.go:77-100 | The same for a ConfigMap; one of the same name as a Secret is another object. |
| Resolver.Cache.Fail | internal/providerconfig/resolvers/cache.go:32-40 | The error is kept under its kind and key, the rest stays. |
| Resolver.Cache.Observe | internal/providerconfig/resolvers/cache.go:42-48 | The version is kept under its kind and key, the rest stays. |
| Resolver.Cache.ResolveValue | internal/providerconfig/resolvers/cache.go:192-243 | The value is the trimmed text its source provides, exactly if there is one; in its errors too it is the uncached one; and at most the field's own source is read. |
| Resolver.Cache.ResolveEndpoint | internal/providerconfig/resolvers/cache.go:102-123 | The endpoint is the one its source makes, exactly if there is one, with the uncached errors. |
| Resolver.Cache.ResolveAuthentication | internal/providerconfig/resolvers/cache.go:126-152 | So is the header. |
| Resolver.Cache.ResolveTrust | internal/providerconfig/resolvers/cache.go:154-187 | So are the TLS settings. |
| Resolver.Cache.Prefetch | internal/providerconfig/resolvers/cached_resolver.go:84-90 | Whatever the order, exactly the given names of one kind are read in addition. |
| Resolver.ReferencedNames | api/resources/v1alpha1/providerconfig_types.go:160-182 | The non-empty names of one kind among the sources of a spec. |
| Resolver.ValueSources | api/resources/v1alpha1/providerconfig_types.go:184-196 | Every place a value may come from, the CA bundle included. |
| Reconciler.Operate | internal/resources/reconcilers/common_reconciler.go:47-80 | Any number of passes of the code among any steps of everyone else is a run of the machine, each pass ends, and at every moment of it at most one object, write-ahead and the absence of leaks hold, each under its own hypotheses. |
| Reconciler.CommonReconciler.Reconcile | internal/resources/reconcilers/common_reconciler.go:47-80 | From a fresh read, the code performs exactly the effects the machine asks for and returns the result with which the machine's pass ends. |
| Reconciler.CommonReconciler.ReconcileLive | internal/resources/reconcilers/common_reconciler.go:82-127 | Suspension, identity and hash are settled as the machine does, the status in memory included. |
| Reconciler.CommonReconciler.ReconcileIdentified | internal/resources/reconcilers/common_reconciler.go:129-157 | Config, recorded id and annotation lead to the same branch. |
| Reconciler.CommonReconciler.OnNewObject | internal/resources/reconcilers/common_reconciler.go:159-222 | Pin, one match, none and several lead to the machine's adopt, create and Terminal. |
| Reconciler.CommonReconciler.OnExistingObject | internal/resources/reconcilers/common_reconciler.go:224-265 | Read and comparison leave the object in memory and the result as the machine wants them. |
| Reconciler.CommonReconciler.OnComparedObject | internal/resources/reconcilers/common_reconciler.go:267-297 | So do the immutable, the in-sync and the drifted case. |
| Reconciler.CommonReconciler.UpdateObject | internal/resources/reconcilers/common_reconciler.go:299-322 | And the update, sent or not. |
| Reconciler.CommonReconciler.Update | internal/resources/adapters/common_transport.go:59-81 | The PUT carries the extracted fields; without any there is no request and no error. |
| Reconciler.CommonReconciler.OnConflict | internal/resources/reconcilers/common_reconciler.go:324-366 | A conflict looks up again and adopts, retries or gives up as the machine does. |
| Reconciler.CommonReconciler.OnAdapterError | internal/resources/reconcilers/common_reconciler.go:368-375 | The verdict on the error is in the status, and only a recoverable one requeues. |
| Reconciler.CommonReconciler.Create | internal/resources/reconcilers/common_reconciler.go:377-385 | The annotation is durable before the POST. |
| Reconciler.CommonReconciler.CreateMarked | internal/resources/reconcilers/common_reconciler.go:387-421 | The POST, and on success id, hash and conditions as the machine records them. |
| Reconciler.CommonReconciler.OnCreateFailed | internal/resources/reconcilers/common_reconciler.go:388-403 | Conflict, rejection and uncertain failure lead to the machine's three branches. |
| Reconciler.CommonReconciler.ClearIfRejected | internal/resources/reconcilers/common_reconciler.go:395-400 | The annotation is taken back exactly when the machine does so, that is for an error that no retry can fix. |
| Reconciler.CommonReconciler.Adopt | internal/resources/reconcilers/common_reconciler.go:423-438 | The annotation is durable before the id is taken over. |
| Reconciler.CommonReconciler.Finalize | internal/resources/reconcilers/common_reconciler.go:440-507 | Every branch of finalizing ends as the machine's. |
| Reconciler.CommonReconciler.Reclaim | internal/resources/reconcilers/common_reconciler.go:509-519 | The finalizer goes only after a delete that succeeded or found nothing. |
| Reconciler.CommonReconciler.AddFinalizer | internal/resources/reconcilers/common_reconciler.go:521-530 | Without the finalizer durable the pass goes no further. |
| Reconciler.CommonReconciler.RemoveFinalizer | internal/resources/reconcilers/common_reconciler.go:532-541 | A failed update is an error of the pass. |
| Reconciler.CommonReconciler.AddCreateAttemptAnnotation | internal/resources/reconcilers/common_reconciler.go:543-556 | The reply of the patch replaces the object in memory; a failure leaves all but the annotation. |
| Reconciler.CommonReconciler.RemoveCreateAttemptAnnotation | internal/resources/reconcilers/common_reconciler.go:558-572 | No request when the annotation is not there. |

## Left out

- Find.FindByPage: is watched for a given number of requests, because the original may walk forever; a list that changes between two pages is covered by its own contract only, not by the completeness results.
- Reconciler.Operate: crashes in the middle of a pass are steps of the machine but not of this method, which cannot be cut short; the theorems over runs cover them.
- RecordedHash.RecordedHashBelongs: has no converse over a whole run, because an earlier request may back a hash that a later one records by chance; the exact statement is the one about each reply.
- Convergence.FourPassesSettle: leaves out suspended resources, which module Suspension covers, unidentifiable ones, and configs that do not resolve.
- Time: timeouts are effects that fail, `ReconciledAt`, transition times and the value of the annotation are opaque, and the requeue of controller-runtime after an error is not counted.
- Informer staleness, watches, leader election, flags, logging, metrics and the wiring of controllers.
- A second life of the resource under the same name; a run follows one custom resource until it is gone.
- HTTP, URL building, TLS and authentication headers; a request is not sent, unanswered, or answered with a status and a classified body.
- The internals of go-cmp, gjson, encoding/json and sha256: the alignment of differing arrays and the hash are parameters, numbers are reals, repeated JSON keys and gjson path syntax inside field names are not modelled.
- Lookups that return an empty id, as those of the saved-view and user adapters may: candidates carry ids.
- Error codes and message texts beyond what they quote; the two finders' wording of a malformed reply.
- `ResolveRef`, which picks the spec and the namespace to resolve in, and the provider config's own reconciler: single branches.
- The other nine generated objects, which have the shape of Role, and the adapters that only pass a path.
