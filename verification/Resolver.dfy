/**
 The cache that serves one resolution of a provider config (internal/providerconfig/resolvers), and what
 is read through it.
 */
module Resolver {
  import opened Common
  import opened ProviderConfig

  /******* What is referenced *******/

  function OptionalSource(from: Option<ValueSource>): set<ValueSource> {
    if from.Some? then {from.value} else {}
  }

  /** Every place a value may come from, the CA bundle included. */
  function Sources(spec: Spec): set<ValueSource> {
    OptionalSource(spec.endpoint.from) +
    (if spec.header.Some? then OptionalSource(spec.header.value.credential.from) else {}) +
    (if spec.tls.Some? && spec.tls.value.caSecretRef.Some? then {ValueSource(spec.tls.value.caSecretRef, None)} else {})
  }

  function NamesIn(sources: set<ValueSource>, kind: Kind): set<string> {
    set s | s in sources && RefOf(s, kind).Some? && RefOf(s, kind).value.name != "" :: RefOf(s, kind).value.name
  }

  function RefOf(s: ValueSource, kind: Kind): Option<KeyRef> {
    match kind
    case SecretKind => s.secretKeyRef
    case ConfigMapKind => s.configMapKeyRef
  }

  /** What is read before anything is resolved. */
  predicate Prefetched(namespace: string, spec: Spec, ref: Ref) {
    ref.key.namespace == namespace && ref.key.name in NamesIn(Sources(spec), ref.kind)
  }

  /** A source may be consulted: some field names it. */
  predicate Names(namespace: string, s: ValueSource, ref: Ref) {
    ref.key.namespace == namespace && RefOf(s, ref.kind).Some? && RefOf(s, ref.kind).value.name == ref.key.name
  }

  method ValueSources(spec: Spec) returns (sources: seq<Option<ValueSource>>)
    ensures (set s | s in sources && s.Some? :: s.value) == Sources(spec)
  {
    sources := [spec.endpoint.from];
    if spec.header.Some? {
      sources := sources + [spec.header.value.credential.from];
    }
    if spec.tls.Some? && spec.tls.value.caSecretRef.Some? {
      sources := sources + [Some(ValueSource(spec.tls.value.caSecretRef, None))];
    }
  }

  /** SecretNames and ConfigMapNames. */
  method ReferencedNames(spec: Spec, kind: Kind) returns (names: set<string>)
    ensures names == NamesIn(Sources(spec), kind)
  {
    names := {};
    var sources := ValueSources(spec);
    for i := 0 to |sources|
      invariant names == NamesIn((set s | s in sources[..i] && s.Some? :: s.value), kind)
    {
      ghost var before := set s | s in sources[..i] && s.Some? :: s.value;
      assert sources[..i + 1] == sources[..i] + [sources[i]];
      var source := sources[i];
      assert (set s | s in sources[..i + 1] && s.Some? :: s.value) == before + OptionalSource(source);
      if source.Some? && RefOf(source.value, kind).Some? && RefOf(source.value, kind).value.name != "" {
        names := names + {RefOf(source.value, kind).value.name};
      }
    }
    assert sources[..|sources|] == sources;
  }

  /******* The cache *******/

  /** A nested map as Go reads it: a missing inner map holds nothing. */
  predicate Holds<T>(m: map<Kind, map<Key, T>>, ref: Ref) {
    ref.kind in m && ref.key in m[ref.kind]
  }

  function Put<T>(m: map<Kind, map<Key, T>>, ref: Ref, value: T): map<Kind, map<Key, T>> {
    m[ref.kind := (if ref.kind in m then m[ref.kind] else map[])[ref.key := value]]
  }

  /** The versions are exactly those of the successful reads. */
  ghost predicate Observed(reader: Reader, asked: seq<Ref>, versions: map<Kind, map<Key, string>>) {
    forall ref: Ref ::
      && (Holds(versions, ref) <==> ref in asked && Read(reader, ref).Ok?)
      && (Holds(versions, ref) ==> versions[ref.kind][ref.key] == Read(reader, ref).value.version)
  }

  /** The objects kept are exactly those of one kind that were read. */
  ghost predicate Kept(reader: Reader, asked: seq<Ref>, kind: Kind, objects: map<Key, Object>) {
    forall key ::
      && (key in objects <==> Ref(kind, key) in asked && Read(reader, Ref(kind, key)).Ok?)
      && (key in objects ==> Ok(objects[key]) == Read(reader, Ref(kind, key)))
  }

  /** The errors kept are exactly those of the failed reads. */
  ghost predicate Failed(reader: Reader, asked: seq<Ref>, errs: map<Kind, map<Key, Failure>>) {
    forall ref: Ref ::
      && (Holds(errs, ref) <==> ref in asked && Read(reader, ref).Err?)
      && (Holds(errs, ref) ==> Err(errs[ref.kind][ref.key]) == Read(reader, ref))
  }

  lemma ReadIsRecorded(reader: Reader, asked: seq<Ref>, errs: map<Kind, map<Key, Failure>>,
                       versions: map<Kind, map<Key, string>>, ref: Ref)
    requires Failed(reader, asked, errs) && Observed(reader, asked, versions) && ref !in asked
    ensures match Read(reader, ref)
            case Ok(stored) =>
              && Failed(reader, asked + [ref], errs)
              && Observed(reader, asked + [ref], Put(versions, ref, stored.version))
            case Err(err) =>
              && Failed(reader, asked + [ref], Put(errs, ref, err))
              && Observed(reader, asked + [ref], versions)
  {
  }

  lemma ReadIsKept(reader: Reader, asked: seq<Ref>, kind: Kind, objects: map<Key, Object>, ref: Ref)
    requires Kept(reader, asked, kind, objects) && ref !in asked
    ensures Kept(reader, asked + [ref], kind,
                 if ref.kind == kind && Read(reader, ref).Ok? then objects[ref.key := Read(reader, ref).value]
                     else objects)
  {
  }

  class Cache {
    const reader: Reader
    const namespace: string
    var secrets: map<Key, Object>
    var configMaps: map<Key, Object>
    var errs: map<Kind, map<Key, Failure>>
    var versions: map<Kind, map<Key, string>>
    /** Every call of the reader, in order. */
    ghost var asked: seq<Ref>

    ghost predicate Valid()
      reads this
    {
      && Kept(reader, asked, SecretKind, secrets) && Kept(reader, asked, ConfigMapKind, configMaps)
      && Failed(reader, asked, errs) && Observed(reader, asked, versions) && NoRepeats(asked)
    }

    constructor (reader: Reader, namespace: string)
      ensures Valid() && this.reader == reader && this.namespace == namespace && asked == []
    {
      this.reader, this.namespace := reader, namespace;
      secrets, configMaps, errs, versions := map[], map[], map[], map[];
      asked := [];
    }

    method Fail(ref: Ref, err: Failure)
      modifies this`errs
      ensures errs == Put(old(errs), ref, err)
    {
      if ref.kind !in errs {
        errs := errs[ref.kind := map[]];
      }
      errs := errs[ref.kind := errs[ref.kind][ref.key := err]];
    }

    method Observe(ref: Ref, version: string)
      modifies this`versions
      ensures versions == Put(old(versions), ref, version)
    {
      if ref.kind !in versions {
        versions := versions[ref.kind := map[]];
      }
      versions := versions[ref.kind := versions[ref.kind][ref.key := version]];
    }

    /** What a memoised read leaves: what the reader says, asked at most once. */
    twostate predicate Memoised(ref: Ref, new result: Result<Object, Failure>)
      reads this
    {
      && Valid() && result == Read(reader, ref)
      && asked == if ref in old(asked) then old(asked) else old(asked) + [ref]
    }

    method Secret(key: Key) returns (result: Result<Object, Failure>)
      requires Valid()
      modifies this
      ensures Memoised(Ref(SecretKind, key), result)
    {
      var ref := Ref(SecretKind, key);
      if Holds(errs, ref) {
        return Err(errs[SecretKind][key]);
      }
      if key in secrets {
        return Ok(secrets[key]);
      }
      assert ref !in asked;
      ReadIsRecorded(reader, asked, errs, versions, ref);
      ReadIsKept(reader, asked, SecretKind, secrets, ref);
      ReadIsKept(reader, asked, ConfigMapKind, configMaps, ref);
      result := Read(reader, ref);
      asked := asked + [ref];
      if result.Err? {
        Fail(ref, result.error);
        return;
      }
      secrets := secrets[key := result.value];
      Observe(ref, result.value.version);
    }

    method ConfigMap(key: Key) returns (result: Result<Object, Failure>)
      requires Valid()
      modifies this
      ensures Memoised(Ref(ConfigMapKind, key), result)
    {
      var ref := Ref(ConfigMapKind, key);
      if Holds(errs, ref) {
        return Err(errs[ConfigMapKind][key]);
      }
      if key in configMaps {
        return Ok(configMaps[key]);
      }
      assert ref !in asked;
      ReadIsRecorded(reader, asked, errs, versions, ref);
      ReadIsKept(reader, asked, SecretKind, secrets, ref);
      ReadIsKept(reader, asked, ConfigMapKind, configMaps, ref);
      result := Read(reader, ref);
      asked := asked + [ref];
      if result.Err? {
        Fail(ref, result.error);
        return;
      }
      configMaps := configMaps[key := result.value];
      Observe(ref, result.value.version);
    }

    /** Reads only add to what was read, and only what one of the sources names. */
    twostate predicate ReadsOnly(sources: set<ValueSource>)
      reads this
    {
      && Valid() && old(asked) <= asked
      && forall ref | ref in asked && ref !in old(asked) :: exists s | s in sources :: Names(namespace, s, ref)
    }

    method ResolveValue(lib: Library, path: string, sourced: Sourced) returns (result: Result<string, Failure>)
      requires Valid()
      modifies this
      ensures ReadsOnly(OptionalSource(sourced.from))
      ensures result == Value(lib, reader, namespace, path, sourced)
      ensures forall value :: result == Ok(value) <==> IsValue(lib, reader, namespace, sourced, value)
    {
      forall value
        ensures Value(lib, reader, namespace, path, sourced) == Ok(value) <==>
                IsValue(lib, reader, namespace, sourced, value)
      {
        ValueMeans(lib, reader, namespace, path, sourced, value);
      }
      if sourced.from.None? {
        if sourced.value == "" {
          return Err(SpecInvalid(path));
        }
        return Ok(lib.trim(sourced.value));
      }
      var from := sourced.from.value;
      if from.secretKeyRef.Some? {
        var ref := from.secretKeyRef.value;
        var fieldPath := path + ".valueFrom.secretKeyRef";
        var secret := Secret(Key(namespace, ref.name));
        assert Names(namespace, from, Ref(SecretKind, Key(namespace, ref.name)));
        if secret.Err? {
          return Err(AtField(fieldPath, secret.error));
        }
        if ref.key !in secret.value.data {
          return Err(KeyMissing(fieldPath, ref.name, ref.key));
        }
        return Ok(lib.trim(secret.value.data[ref.key]));
      }
      if from.configMapKeyRef.Some? {
        var ref := from.configMapKeyRef.value;
        var fieldPath := path + ".valueFrom.configMapKeyRef";
        var configMap := ConfigMap(Key(namespace, ref.name));
        assert Names(namespace, from, Ref(ConfigMapKind, Key(namespace, ref.name)));
        if configMap.Err? {
          return Err(AtField(fieldPath, configMap.error));
        }
        if ref.key !in configMap.value.data {
          return Err(KeyMissing(fieldPath, ref.name, ref.key));
        }
        return Ok(lib.trim(configMap.value.data[ref.key]));
      }
      return Err(SpecInvalid(path + ".valueFrom"));
    }

    method ResolveEndpoint(lib: Library, spec: Spec) returns (result: Result<Url, Failure>)
      requires Valid()
      modifies this
      ensures ReadsOnly(Sources(spec))
      ensures result == Endpoint(lib, reader, namespace, spec)
      ensures forall endpoint :: result == Ok(endpoint) <==> IsEndpoint(lib, reader, namespace, spec, endpoint)
    {
      forall endpoint
        ensures Endpoint(lib, reader, namespace, spec) == Ok(endpoint) <==>
                IsEndpoint(lib, reader, namespace, spec, endpoint)
      {
        EndpointMeans(lib, reader, namespace, spec, endpoint);
      }
      var raw := ResolveValue(lib, "spec.endpoint", spec.endpoint);
      if raw.Err? {
        return Err(raw.error);
      }
      var endpoint := lib.parse(raw.value);
      if endpoint.None? {
        return Err(EndpointInvalid("value is not a valid URL"));
      }
      if endpoint.value.scheme != "http" && endpoint.value.scheme != "https" {
        return Err(EndpointInvalid("URL scheme must be http or https"));
      }
      if endpoint.value.host == "" {
        return Err(EndpointInvalid("URL has no host"));
      }
      return Ok(endpoint.value);
    }

    method ResolveAuthentication(lib: Library, spec: Spec) returns (result: Result<Header, Failure>)
      requires Valid()
      modifies this
      ensures ReadsOnly(Sources(spec))
      ensures result == Authentication(lib, reader, namespace, spec.header)
      ensures forall header :: result == Ok(header) <==> IsHeader(lib, reader, namespace, spec, header)
    {
      forall header
        ensures Authentication(lib, reader, namespace, spec.header) == Ok(header) <==>
                IsHeader(lib, reader, namespace, spec, header)
      {
        AuthenticationMeans(lib, reader, namespace, spec, header);
      }
      if spec.header.None? {
        return Err(SpecInvalid("spec.auth"));
      }
      var header := spec.header.value;
      var value := ResolveValue(lib, "spec.auth.header", header.credential);
      if value.Err? {
        return Err(value.error);
      }
      if value.value == "" {
        return Err(ValueEmpty("spec.auth.header"));
      }
      var name := header.name;
      if name == "" {
        name := DEFAULT_HEADER;
      }
      return Ok(Header(name, header.scheme, Sourced(value.value, None)));
    }

    method ResolveTrust(lib: Library, spec: Spec) returns (result: Result<Option<ResolvedTLS>, Failure>)
      requires Valid()
      modifies this
      ensures ReadsOnly(Sources(spec))
      ensures result == Trust(lib, reader, namespace, spec.tls)
      ensures forall tls :: result == Ok(tls) <==> IsTrust(lib, reader, namespace, spec, tls)
    {
      forall tls
        ensures Trust(lib, reader, namespace, spec.tls) == Ok(tls) <==> IsTrust(lib, reader, namespace, spec, tls)
      {
        TrustMeans(lib, reader, namespace, spec, tls);
      }
      if spec.tls.None? {
        return Ok(None);
      }
      var config := spec.tls.value;
      if config.caSecretRef.None? {
        return Ok(Some(ResolvedTLS(config.insecure, None)));
      }
      var path := "spec.tls.caSecretRef";
      var ref := config.caSecretRef.value;
      var secret := Secret(Key(namespace, ref.name));
      assert Names(namespace, ValueSource(config.caSecretRef, None), Ref(SecretKind, Key(namespace, ref.name)));
      if secret.Err? {
        return Err(AtField(path, secret.error));
      }
      if ref.key !in secret.value.data {
        return Err(KeyMissing(path, ref.name, ref.key));
      }
      var pool := lib.certificates(secret.value.data[ref.key]);
      if pool.None? {
        return Err(BundleInvalid(path, ref.name, ref.key));
      }
      return Ok(Some(ResolvedTLS(config.insecure, pool)));
    }

    /** The two loops at the head of Resolve, over one kind of names in any order. */
    method Prefetch(kind: Kind, names: set<string>)
      requires Valid()
      modifies this
      ensures Valid() && old(asked) <= asked
      ensures forall ref :: ref in asked <==>
                ref in old(asked) || (ref.kind == kind && ref.key.namespace == namespace && ref.key.name in names)
    {
      var pending := names;
      while pending != {}
        invariant pending <= names && Valid() && old(asked) <= asked
        invariant forall ref :: ref in asked <==>
                    ref in old(asked) || (ref.kind == kind && ref.key.namespace == namespace &&
                                          ref.key.name in names - pending)
        decreases pending
      {
        var name :| name in pending;
        if kind.SecretKind? {
          var _ := Secret(Key(namespace, name));
        } else {
          var _ := ConfigMap(Key(namespace, name));
        }
        pending := pending - {name};
      }
    }
  }

  ghost predicate Consulted(namespace: string, spec: Spec, ref: Ref) {
    exists s | s in Sources(spec) :: Names(namespace, s, ref)
  }

  /** Once the prefetch is over, what is read is consulted, but has no name to prefetch it by. */
  ghost predicate ReadAhead(namespace: string, spec: Spec, asked: seq<Ref>, ahead: nat) {
    && ahead <= |asked|
    && (forall ref :: ref in asked[..ahead] <==> Prefetched(namespace, spec, ref))
    && (forall ref | ref in asked[ahead..] :: ref.key.name == "" && Consulted(namespace, spec, ref))
  }

  lemma StillReadAhead(namespace: string, spec: Spec, asked: seq<Ref>, more: seq<Ref>, ahead: nat)
    requires ReadAhead(namespace, spec, asked, ahead) && asked <= more && NoRepeats(more)
    requires forall ref | ref in more && ref !in asked :: Consulted(namespace, spec, ref)
    ensures ReadAhead(namespace, spec, more, ahead)
  {
    assert more[..ahead] == asked[..ahead];
    forall i | ahead <= i < |more| ensures more[i].key.name == "" && Consulted(namespace, spec, more[i]) {
      assert more[i] !in asked[..ahead];
      if i < |asked| {
        assert asked[ahead..][i - ahead] == more[i];
      } else {
        assert Consulted(namespace, spec, more[i]);
      }
    }
  }

  lemma SomeMember(refs: seq<Ref>)
    ensures refs == [] || exists ref :: ref in refs
  {
    if refs != [] {
      assert refs[0] in refs;
    }
  }

  /** With no empty name in the spec nothing is read after the prefetch. */
  lemma NamedIsReadAhead(namespace: string, spec: Spec, asked: seq<Ref>, ahead: nat)
    requires ReadAhead(namespace, spec, asked, ahead)
    requires forall s, kind | s in Sources(spec) && RefOf(s, kind).Some? :: RefOf(s, kind).value.name != ""
    ensures ahead == |asked|
    ensures forall ref :: Consulted(namespace, spec, ref) <==> ref in asked
  {
    SomeMember(asked[ahead..]);
    forall ref | Consulted(namespace, spec, ref) ensures Prefetched(namespace, spec, ref) {
      var s :| s in Sources(spec) && Names(namespace, s, ref);
      assert RefOf(s, ref.kind).value.name != "";
    }
    assert forall ref :: ref !in asked[ahead..];
    assert asked[..ahead] == asked;
  }

  /**
   Resolve agrees with the uncached resolution, whatever order the names come in. No object is read
   twice, everything with a name is read ahead, and the versions are those of the successful reads,
   whether or not the resolution succeeds.
   */
  method Resolve(lib: Library, reader: Reader, namespace: string, spec: Spec)
    returns (resolved: Result<Resolved, Failure>, versions: map<Kind, map<Key, string>>, ghost asked: seq<Ref>,
             ghost ahead: nat)
    ensures resolved == Resolution(lib, reader, namespace, spec)
    ensures forall r :: resolved == Ok(r) <==> IsResolved(lib, reader, namespace, spec, r)
    ensures NoRepeats(asked) && ReadAhead(namespace, spec, asked, ahead)
    ensures Observed(reader, asked, versions)
  {
    forall r
      ensures Resolution(lib, reader, namespace, spec) == Ok(r) <==> IsResolved(lib, reader, namespace, spec, r)
    {
      ResolutionMeans(lib, reader, namespace, spec, r);
    }
    var c := new Cache(reader, namespace);
    var secretNames := ReferencedNames(spec, SecretKind);
    c.Prefetch(SecretKind, secretNames);
    var configMapNames := ReferencedNames(spec, ConfigMapKind);
    c.Prefetch(ConfigMapKind, configMapNames);
    ahead := |c.asked|;
    ghost var before := c.asked;
    assert forall ref :: ref in before <==> Prefetched(namespace, spec, ref);
    assert before[..ahead] == before;
    assert ReadAhead(namespace, spec, before, ahead);

    var endpoint := c.ResolveEndpoint(lib, spec);
    StillReadAhead(namespace, spec, before, c.asked, ahead);
    before := c.asked;
    if endpoint.Err? {
      return Err(endpoint.error), c.versions, c.asked, ahead;
    }
    var header := c.ResolveAuthentication(lib, spec);
    StillReadAhead(namespace, spec, before, c.asked, ahead);
    before := c.asked;
    if header.Err? {
      return Err(header.error), c.versions, c.asked, ahead;
    }
    var tls := c.ResolveTrust(lib, spec);
    StillReadAhead(namespace, spec, before, c.asked, ahead);
    if tls.Err? {
      return Err(tls.error), c.versions, c.asked, ahead;
    }
    return Ok(Resolved(endpoint.value, header.value, tls.value)), c.versions, c.asked, ahead;
  }
}
