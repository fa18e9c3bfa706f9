/**
 The update payload (ExtractFields in internal/jsonbody/extract.go) and what one replace-style PUT
 of it does to the next comparison.
 */
module JsonUpdate {
  import opened Common
  import opened JsonTree
  import opened JsonDiff
  import opened JsonCompare

  /** The listed fields the body has, with the body's values. */
  function Projection(body: Json, fields: seq<string>): map<string, Json> {
    map f | f in fields && f in Keys(body) :: body.fields[f]
  }

  /** The payload has exactly the listed fields that the body has, and what the body has there. */
  lemma PayloadIsTheListedPart(body: Json, fields: seq<string>, f: string)
    ensures f in Projection(body, fields) <==> f in fields && At(body, f).Some?
    ensures f in Projection(body, fields) ==> At(body, f) == Some(Projection(body, fields)[f])
  {
  }

  /** A payload with no field is no payload at all: None is the nil that Update silently skips. */
  method ExtractFields(body: Json, fields: seq<string>) returns (payload: Option<Json>)
    ensures payload == if Projection(body, fields) == map[] then None else Some(Obj(Projection(body, fields)))
  {
    var collected: map<string, Json> := map[];
    for i := 0 to |fields|
      invariant collected == Projection(body, fields[..i])
    {
      assert fields[..i + 1] == fields[..i] + [fields[i]];
      if body.Obj? && fields[i] in body.fields {
        collected := collected[fields[i] := body.fields[fields[i]]];
      }
    }
    assert fields[..|fields|] == fields;
    if |collected| == 0 {
      return None;
    }
    return Some(Obj(collected));
  }

  /** What a replace-style PUT leaves: sent fields hold what was sent, omitted updatable ones are zeroed. */
  ghost predicate Replaces(updatable: seq<string>, sent: map<string, Json>, after: Json) {
    && after.Obj?
    && (forall f | f in sent :: f in after.fields && Equal(sent[f], after.fields[f]))
    && (forall f | f in updatable && f !in sent && f in after.fields :: IsDeepZero(after.fields[f]))
  }

  /** The field list is plain, and no top-level key of the two bodies reads like a path under it. */
  predicate Unaliased(fields: seq<string>, body: Json, remote: Json) {
    forall f | f in fields :: PlainField(f) && forall k | k in Keys(body) + Keys(remote) :: !Aliases(k, f)
  }

  /** No listed field is reported. */
  predicate Clean(align: Aligner, body: Json, remote: Json, fields: seq<string>) {
    Overlapping(DiffPaths(align, body, remote), fields) == []
  }

  lemma OverlappingIsEmptyIffNone(paths: set<string>, fields: seq<string>)
    ensures Overlapping(paths, fields) == [] <==>
            forall f | f in fields :: !(exists p | p in paths :: Overlaps(f, p))
  {
    var listed := Overlapping(paths, fields);
    forall f ensures f in listed <==> f in fields && exists p | p in paths :: Overlaps(f, p) {
      OverlappingMembers(paths, fields, f);
    }
    if listed != [] {
      assert listed[0] in listed;
    }
  }

  lemma CleanIffFieldsAgree(align: Aligner, body: Json, remote: Json, fields: seq<string>)
    requires Aligns(align) && body.Obj? && remote.Obj? && Unaliased(fields, body, remote)
    ensures Clean(align, body, remote, fields) <==> forall f | f in fields :: AgreeAt(body, remote, f)
  {
    OverlappingIsEmptyIffNone(DiffPaths(align, body, remote), fields);
    forall f | f in fields ensures Reported(align, body, remote, f) <==> !AgreeAt(body, remote, f) {
      ReportIsExact(align, body, remote, f);
    }
  }

  /** After one PUT of the payload, no updatable field is reported any more. */
  lemma OneUpdateSuffices(align: Aligner, body: Json, updatable: seq<string>, after: Json)
    requires Aligns(align) && body.Obj? && Unaliased(updatable, body, after)
    requires Replaces(updatable, Projection(body, updatable), after)
    ensures Clean(align, body, after, updatable)
  {
    forall f | f in updatable ensures AgreeAt(body, after, f) {
      var sent := Projection(body, updatable);
      assert f in body.fields ==> f in sent && sent[f] == body.fields[f];
    }
    CleanIffFieldsAgree(align, body, after, updatable);
  }

  type Put = (map<string, Json>, Json) -> Json

  /** The remote body after Update: a nil payload is never sent, so it changes nothing. */
  function AfterUpdate(put: Put, body: Json, updatable: seq<string>, remote: Json): Json {
    var sent := Projection(body, updatable);
    if sent == map[] then remote else put(sent, remote)
  }

  /** Against a replacing server Update ends the drift, unless there was drift and nothing to send. */
  lemma UpdateSettlesIffPayloadOrClean(align: Aligner, put: Put, body: Json, updatable: seq<string>, remote: Json)
    requires Aligns(align) && body.Obj?
    requires Replaces(updatable, Projection(body, updatable), put(Projection(body, updatable), remote))
    requires Unaliased(updatable, body, put(Projection(body, updatable), remote))
    ensures Clean(align, body, AfterUpdate(put, body, updatable, remote), updatable) <==>
            Projection(body, updatable) != map[] || Clean(align, body, remote, updatable)
  {
    if Projection(body, updatable) != map[] {
      OneUpdateSuffices(align, body, updatable, put(Projection(body, updatable), remote));
    }
  }

  /** The case that never settles is real: a body with no updatable field, a remote that has one. */
  lemma NilPayloadKeepsDrift(align: Aligner, put: Put)
    requires Aligns(align)
    ensures var body, remote := Obj(map[]), Obj(map["description" := Str("x")]);
            && !Clean(align, body, remote, ["description"])
            && AfterUpdate(put, body, ["description"], remote) == remote
  {
    var body, remote := Obj(map[]), Obj(map["description" := Str("x")]);
    assert At(remote, "description") == Some(Str("x"));
    assert !AgreeAt(body, remote, "description");
    assert PlainField("description");
    assert Unaliased(["description"], body, remote);
    assert "description" in ["description"];
    CleanIffFieldsAgree(align, body, remote, ["description"]);
  }
}
