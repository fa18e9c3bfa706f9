/**
 What a POST could store that needs an update, read off the field lists; and a start that does take four
 passes to settle.
 */
module ConvergenceWitness {
  import opened Common
  import opened JsonTree
  import opened Protocol
  import opened Convergence
  import opened ConvergenceExact
  import W = Witnesses
  import JsonDiff
  import JsonCompare
  import JsonUpdate

  /** The body with one field taken away, or set if it has none. */
  function Toggled(body: Json, f: string): Json
    requires body.Obj?
  {
    Obj(if f in body.fields then body.fields - {f} else body.fields[f := Bool(true)])
  }

  lemma ToggledAt(align: JsonDiff.Aligner, body: Json, f: string, k: string)
    requires JsonDiff.Aligns(align) && body.Obj?
    ensures JsonDiff.DiffAt(align, body, Toggled(body, f), k) == if k == f then {[]} else {}
  {
    if k != f && k in body.fields {
      EqualIsReflexive(body.fields[k]);
      JsonDiff.DiffIsEmptyIffEqual(align, body.fields[k], body.fields[k]);
    }
  }

  lemma ToggledDiff(align: JsonDiff.Aligner, body: Json, f: string)
    requires JsonDiff.Aligns(align) && body.Obj?
    ensures JsonDiff.Diff(align, body, Toggled(body, f)) == {[JsonDiff.Key(f)]}
  {
    var other := Toggled(body, f);
    var diff := JsonDiff.Diff(align, body, other);
    forall q | q in diff ensures q == [JsonDiff.Key(f)] {
      var k, p :| k in body.fields.Keys + other.fields.Keys && p in JsonDiff.DiffAt(align, body, other, k) &&
          q == [JsonDiff.Key(k)] + p;
      ToggledAt(align, body, f, k);
    }
    ToggledAt(align, body, f, f);
    assert [] in JsonDiff.DiffAt(align, body, other, f) && f in body.fields.Keys + other.fields.Keys;
    assert [JsonDiff.Key(f)] + [] in diff;
    assert [JsonDiff.Key(f)] + [] == [JsonDiff.Key(f)];
  }

  lemma ToggledDiffersAtTheField(align: JsonDiff.Aligner, body: Json, f: string)
    requires JsonDiff.Aligns(align) && body.Obj?
    ensures JsonCompare.DiffPaths(align, body, Toggled(body, f)) == {f}
  {
    ToggledDiff(align, body, f);
    assert JsonCompare.FormatPath([JsonDiff.Key(f)]) == f;
    assert [JsonDiff.Key(f)] in JsonDiff.Diff(align, body, Toggled(body, f));
  }

  lemma PlainFieldsDoNotOverlap(f: string, g: string)
    requires JsonCompare.PlainField(f) && JsonCompare.PlainField(g) && f != g
    ensures !JsonCompare.Overlaps(g, f)
  {
    JsonCompare.DottedPrefixIsNotPlain(f, g);
    JsonCompare.DottedPrefixIsNotPlain(g, f);
  }

  lemma ToggledDrifts(op: Operator, spec: Spec, f: string)
    requires spec.body.Ok? && spec.body.value.Obj? && JsonDiff.Aligns(op.align)
    requires f in op.updatable && f !in op.immutable && JsonCompare.PlainField(f)
    requires forall g | g in op.immutable :: JsonCompare.PlainField(g)
    ensures Drifts(op, spec, Toggled(spec.body.value, f))
  {
    ToggledDiffersAtTheField(op.align, spec.body.value, f);
    JsonCompare.OverlappingMembers({f}, op.updatable, f);
    forall g | g in op.immutable ensures !JsonCompare.Overlaps(g, f) {
      PlainFieldsDoNotOverlap(f, g);
    }
    JsonUpdate.OverlappingIsEmptyIffNone({f}, op.immutable);
  }

  /**
   With plain field lists, a POST can leave something to update exactly if some updatable field is not
   immutable too.
   */
  lemma DriftableIff(op: Operator, spec: Spec)
    requires spec.body.Ok? && spec.body.value.Obj? && JsonDiff.Aligns(op.align)
    requires forall f | f in op.updatable + op.immutable :: JsonCompare.PlainField(f)
    ensures Driftable(op, spec) <==> exists f | f in op.updatable :: f !in op.immutable
  {
    if f :| f in op.updatable && f !in op.immutable {
      ToggledDrifts(op, spec, f);
    } else if Driftable(op, spec) {
      var stored :| Drifts(op, spec, stored);
      var paths := JsonCompare.DiffPaths(op.align, spec.body.value, stored);
      var f := Compared(op, spec, stored).updatable[0];
      JsonCompare.OverlappingMembers(paths, op.updatable, f);
      JsonCompare.OverlappingMembers(paths, op.immutable, f);
    }
  }

  /**
   The case that takes four passes, read off the resource, the kind and SigNoz: the recorded object is
   gone, nothing matches, the body has an updatable field, and some updatable field is not immutable too.
   */
  predicate NeedsFour(op: Operator, r: Resource, remote: Remote)
    requires Identity(op, r.spec).Ok? && r.spec.body.Ok?
  {
    && r.status.id != "" && r.status.id !in remote.live && Creatable(op, r, remote)
    && (exists f | f in op.updatable :: f in JsonCompare.Keys(r.spec.body.value))
    && (exists f | f in op.updatable :: f !in op.immutable)
  }

  /** With plain field lists, three passes settle every run if and only if it is not that case. */
  lemma ThreePassesSettleIffNotThatCase(op: Operator, s: State)
    requires Startable(op, s) && Before(op, s)
    requires forall f | f in op.immutable :: JsonCompare.PlainField(f)
    ensures SettlesIn(op, false, 3, s) <==> !NeedsFour(op, s.kube.value, s.remote)
  {
    var r := s.kube.value;
    ThreePassesSettleIff(op, s);
    var sent := Sent(op, r.spec);
    assert sent != map[] <==> exists f | f in op.updatable :: f in JsonCompare.Keys(r.spec.body.value) by {
      if sent != map[] {
        var f :| f in sent;
        assert f in op.updatable && f in JsonCompare.Keys(r.spec.body.value);
      }
      if f :| f in op.updatable && f in JsonCompare.Keys(r.spec.body.value) {
        assert f in sent;
      }
    }
    if r.spec.body.value.Obj? {
      DriftableIff(op, r.spec);
    }
  }

  /******* A start that takes four passes *******/

  /** The recorded object is gone, and nothing matches. */
  function Start(): State {
    State(Some(W.Fresh().(status := Status("gone", "", 0, []))), Remote(map[], {"gone"}, []), Idle(DONE), [])
  }

  lemma StartIsBefore()
    ensures Before(W.Kind(), Start())
  {
    assert JsonCompare.PlainField("field");
    JsonDiff.ZippingAligns();
  }

  /** Four passes settle it for sure, and three do not. */
  lemma FourCanBeNeeded()
    ensures Before(W.Kind(), Start())
    ensures SettlesIn(W.Kind(), false, 4, Start()) && !SettlesIn(W.Kind(), false, 3, Start())
  {
    var r := Start().kube.value;
    StartIsBefore();
    assert JsonCompare.PlainField("field");
    assert "field" in Sent(W.Kind(), r.spec);
    DriftableIff(W.Kind(), r.spec);
    assert "field" in W.Kind().updatable && "field" !in W.Kind().immutable;
    ThreePassesSettleIff(W.Kind(), Start());
    SettlesInIffWithin(W.Kind(), false, 4, Start());
  }

  /** Settled states are reached, from here by some four passes. */
  lemma SettledIsReached()
    ensures exists labels ::
              && QuietRun(W.Kind(), false, Start(), labels) && Passes(labels) == 4
              && Exec(W.Kind(), Start(), labels).pass.Idle? && IsSettled(W.Kind(), Exec(W.Kind(), Start(), labels))
  {
    StartIsBefore();
    var labels := CompletePasses(W.Kind(), false, 5, Start(), 4);
    FourPassesSettle(W.Kind(), false, Start(), labels);
  }

  /******* A start that a pin decides *******/

  /** Two objects match. */
  function TwoMatches(pin: string): State {
    State(Some(W.Fresh().(pin := pin)),
          Remote(map["1" := Entry("n", Null, false), "2" := Entry("n", Null, false)], {"1", "2"}, []), Idle(DONE), [])
  }

  /** It settles if and only if the pin names one of them. */
  lemma PinDecides(pin: string)
    ensures (exists n :: SettlesIn(W.Kind(), false, n, TwoMatches(pin))) <==> pin == "1" || pin == "2"
  {
    var s := TwoMatches(pin);
    assert JsonCompare.PlainField("field");
    JsonDiff.ZippingAligns();
    assert "1" in Matches(s.remote, "n") && "2" in Matches(s.remote, "n");
    SettlesAtAllIff(W.Kind(), false, s);
  }
}
