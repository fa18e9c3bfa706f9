/**
 Resolving a provider config, without a cache: every reference is read where it is needed
 (internal/providerconfig/resolvers). What the result is, in terms of the spec, the objects in the
 cluster and the library functions it is built with; and that it resolves exactly when all of these are
 there.
 */
module ProviderConfig {
  import opened Common

  datatype Kind = SecretKind | ConfigMapKind

  /** The name of an object within its kind. */
  datatype Key = Key(namespace: string, name: string)

  datatype Ref = Ref(kind: Kind, key: Key)

  datatype Object = Object(version: string, data: map<string, string>)

  datatype ReadError = Missing | Unreadable(text: string)

  /** Kubernetes as one Resolve call sees it: the same answer however often an object is read. */
  type Reader = Ref -> Result<Object, ReadError>

  datatype Failure =
    | RefMissing(ref: Ref)
    | RefUnreadable(ref: Ref, text: string)
    | AtField(path: string, inner: Failure)
    | KeyMissing(path: string, name: string, key: string)
    | SpecInvalid(path: string)
    | ValueEmpty(path: string)
    | EndpointInvalid(detail: string)
    | BundleInvalid(path: string, name: string, key: string)

  datatype KeyRef = KeyRef(name: string, key: string)

  datatype ValueSource = ValueSource(secretKeyRef: Option<KeyRef>, configMapKeyRef: Option<KeyRef>)

  datatype Sourced = Sourced(value: string, from: Option<ValueSource>)

  datatype Header = Header(name: string, scheme: string, credential: Sourced)

  datatype TLSConfig = TLSConfig(insecure: bool, caSecretRef: Option<KeyRef>)

  datatype Spec = Spec(endpoint: Sourced, header: Option<Header>, tls: Option<TLSConfig>)

  datatype Url = Url(scheme: string, host: string, rest: string)

  datatype ResolvedTLS = ResolvedTLS(insecure: bool, pool: Option<string>)

  datatype Resolved = Resolved(endpoint: Url, header: Header, tls: Option<ResolvedTLS>)

  /** strings.TrimSpace, url.Parse and the certificates AppendCertsFromPEM takes from a bundle. */
  datatype Library = Library(trim: string -> string, parse: string -> Option<Url>,
                             certificates: string -> Option<string>)

  const DEFAULT_HEADER := "SIGNOZ-API-KEY"

  /******* The resolution *******/

  function Read(reader: Reader, ref: Ref): Result<Object, Failure> {
    match reader(ref)
    case Ok(stored) => Ok(stored)
    case Err(Missing) => Err(RefMissing(ref))
    case Err(Unreadable(text)) => Err(RefUnreadable(ref, text))
  }

  /** One key of one object. */
  function Fetch(reader: Reader, path: string, ref: Ref, key: string): Result<string, Failure> {
    match Read(reader, ref)
    case Err(err) => Err(AtField(path, err))
    case Ok(stored) => if key in stored.data then Ok(stored.data[key]) else Err(KeyMissing(path, ref.key.name, key))
  }

  function Value(lib: Library, reader: Reader, namespace: string, path: string, sourced: Sourced)
    : Result<string, Failure>
  {
    match sourced.from
    case None => if sourced.value == "" then Err(SpecInvalid(path)) else Ok(lib.trim(sourced.value))
    case Some(from) =>
      if from.secretKeyRef.None? && from.configMapKeyRef.None? then Err(SpecInvalid(path + ".valueFrom"))
      else
        var fetched :=
          if from.secretKeyRef.Some? then
            Fetch(reader, path + ".valueFrom.secretKeyRef",
                  Ref(SecretKind, Key(namespace, from.secretKeyRef.value.name)), from.secretKeyRef.value.key)
          else
            Fetch(reader, path + ".valueFrom.configMapKeyRef",
                  Ref(ConfigMapKind, Key(namespace, from.configMapKeyRef.value.name)), from.configMapKeyRef.value.key);
        match fetched
        case Err(err) => Err(err)
        case Ok(text) => Ok(lib.trim(text))
  }

  function Endpoint(lib: Library, reader: Reader, namespace: string, spec: Spec): Result<Url, Failure> {
    match Value(lib, reader, namespace, "spec.endpoint", spec.endpoint)
    case Err(err) => Err(err)
    case Ok(raw) => CheckUrl(lib.parse(raw))
  }

  function CheckUrl(parsed: Option<Url>): Result<Url, Failure> {
    if parsed.None? then Err(EndpointInvalid("value is not a valid URL"))
    else if parsed.value.scheme != "http" && parsed.value.scheme != "https" then
        Err(EndpointInvalid("URL scheme must be http or https"))
    else if parsed.value.host == "" then Err(EndpointInvalid("URL has no host"))
    else Ok(parsed.value)
  }

  function Authentication(lib: Library, reader: Reader, namespace: string, header: Option<Header>): Result<Header,
                                                                                                           Failure> {
    match header
    case None => Err(SpecInvalid("spec.auth"))
    case Some(h) =>
      match Value(lib, reader, namespace, "spec.auth.header", h.credential)
      case Err(err) => Err(err)
      case Ok(value) =>
        if value == "" then Err(ValueEmpty("spec.auth.header"))
        else Ok(Header(if h.name == "" then DEFAULT_HEADER else h.name, h.scheme, Sourced(value, None)))
  }

  function Trust(lib: Library, reader: Reader, namespace: string, tls: Option<TLSConfig>): Result<Option<ResolvedTLS>,
                                                                                                  Failure> {
    match tls
    case None => Ok(None)
    case Some(TLSConfig(insecure, None)) => Ok(Some(ResolvedTLS(insecure, None)))
    case Some(TLSConfig(insecure, Some(ref))) =>
      match Fetch(reader, "spec.tls.caSecretRef", Ref(SecretKind, Key(namespace, ref.name)), ref.key)
      case Err(err) => Err(err)
      case Ok(bundle) =>
        if lib.certificates(bundle).None? then Err(BundleInvalid("spec.tls.caSecretRef", ref.name, ref.key))
        else Ok(Some(ResolvedTLS(insecure, lib.certificates(bundle))))
  }

  /** The uncached resolution: every reference is read where it is needed, the first failure wins. */
  function Resolution(lib: Library, reader: Reader, namespace: string, spec: Spec): Result<Resolved, Failure> {
    match Endpoint(lib, reader, namespace, spec)
    case Err(err) => Err(err)
    case Ok(endpoint) =>
      match Authentication(lib, reader, namespace, spec.header)
      case Err(err) => Err(err)
      case Ok(header) =>
        match Trust(lib, reader, namespace, spec.tls)
        case Err(err) => Err(err)
        case Ok(tls) => Ok(Resolved(endpoint, header, tls))
  }

  /******* What it means *******/

  /** An object of that kind and name holds the text under the key. */
  predicate Held(reader: Reader, ref: Ref, key: string, text: string) {
    reader(ref).Ok? && key in reader(ref).value.data && reader(ref).value.data[key] == text
  }

  /** The text a field stands for: its inline value, or a key of one Secret or else one ConfigMap. */
  predicate Provides(reader: Reader, namespace: string, sourced: Sourced, text: string) {
    match sourced.from
    case None => sourced.value != "" && text == sourced.value
    case Some(ValueSource(Some(ref), _)) => Held(reader, Ref(SecretKind, Key(namespace, ref.name)), ref.key, text)
    case Some(ValueSource(None, Some(ref))) => Held(reader, Ref(ConfigMapKind, Key(namespace, ref.name)), ref.key, text)
    case Some(ValueSource(None, None)) => false
  }

  lemma FetchMeans(reader: Reader, path: string, ref: Ref, key: string, text: string)
    ensures Fetch(reader, path, ref, key) == Ok(text) <==> Held(reader, ref, key, text)
  {
  }

  /** The text, trimmed. */
  ghost predicate IsValue(lib: Library, reader: Reader, namespace: string, sourced: Sourced, value: string) {
    exists text :: Provides(reader, namespace, sourced, text) && value == lib.trim(text)
  }

  /** A field resolves to the trimmed text it stands for, and only if it stands for any. */
  lemma ValueMeans(lib: Library, reader: Reader, namespace: string, path: string, sourced: Sourced, value: string)
    ensures Value(lib, reader, namespace, path, sourced) == Ok(value) <==>
            IsValue(lib, reader, namespace, sourced, value)
  {
    if Value(lib, reader, namespace, path, sourced) == Ok(value) {
      match sourced.from
      case None => assert Provides(reader, namespace, sourced, sourced.value);
      case Some(ValueSource(Some(ref), _)) =>
        assert Provides(reader, namespace, sourced,
                        reader(Ref(SecretKind, Key(namespace, ref.name))).value.data[ref.key]);
      case Some(ValueSource(None, Some(ref))) =>
        assert Provides(reader, namespace, sourced,
                        reader(Ref(ConfigMapKind, Key(namespace, ref.name))).value.data[ref.key]);
      case _ =>
    }
  }

  /** The endpoint is a URL over http or https with a host. */
  ghost predicate IsEndpoint(lib: Library, reader: Reader, namespace: string, spec: Spec, endpoint: Url) {
    && endpoint.scheme in {"http", "https"} && endpoint.host != ""
    && exists raw :: IsValue(lib, reader, namespace, spec.endpoint, raw) && lib.parse(raw) == Some(endpoint)
  }

  lemma EndpointMeans(lib: Library, reader: Reader, namespace: string, spec: Spec, endpoint: Url)
    ensures Endpoint(lib, reader, namespace, spec) == Ok(endpoint) <==>
            IsEndpoint(lib, reader, namespace, spec, endpoint)
  {
    var value := Value(lib, reader, namespace, "spec.endpoint", spec.endpoint);
    if value.Ok? {
      ValueMeans(lib, reader, namespace, "spec.endpoint", spec.endpoint, value.value);
    }
    if IsEndpoint(lib, reader, namespace, spec, endpoint) {
      var raw :| IsValue(lib, reader, namespace, spec.endpoint, raw) && lib.parse(raw) == Some(endpoint);
      ValueMeans(lib, reader, namespace, "spec.endpoint", spec.endpoint, raw);
    }
  }

  /** The header carries a credential that is not empty, under the given name or the default one. */
  ghost predicate IsHeader(lib: Library, reader: Reader, namespace: string, spec: Spec, header: Header) {
    && spec.header.Some?
    && var given := spec.header.value;
       && header.name == (if given.name == "" then "SIGNOZ-API-KEY" else given.name)
       && header.scheme == given.scheme
       && header.credential.from == None && header.credential.value != ""
       && IsValue(lib, reader, namespace, given.credential, header.credential.value)
  }

  lemma AuthenticationMeans(lib: Library, reader: Reader, namespace: string, spec: Spec, header: Header)
    ensures Authentication(lib, reader, namespace, spec.header) == Ok(header) <==>
            IsHeader(lib, reader, namespace, spec, header)
  {
    if spec.header.Some? {
      var credential := spec.header.value.credential;
      var value := Value(lib, reader, namespace, "spec.auth.header", credential);
      if value.Ok? {
        ValueMeans(lib, reader, namespace, "spec.auth.header", credential, value.value);
      }
      ValueMeans(lib, reader, namespace, "spec.auth.header", credential, header.credential.value);
    }
  }

  /** Trust is as the spec says, with the certificates of the bundle if one is named. */
  ghost predicate IsTrust(lib: Library, reader: Reader, namespace: string, spec: Spec, tls: Option<ResolvedTLS>) {
    match spec.tls
    case None => tls.None?
    case Some(config) =>
      && tls.Some? && tls.value.insecure == config.insecure
      && match config.caSecretRef
         case None => tls.value.pool.None?
         case Some(ref) =>
           && tls.value.pool.Some?
           && exists bundle ::
                && Held(reader, Ref(SecretKind, Key(namespace, ref.name)), ref.key, bundle)
                && lib.certificates(bundle) == tls.value.pool
  }

  lemma TrustMeans(lib: Library, reader: Reader, namespace: string, spec: Spec, tls: Option<ResolvedTLS>)
    ensures Trust(lib, reader, namespace, spec.tls) == Ok(tls) <==> IsTrust(lib, reader, namespace, spec, tls)
  {
    if spec.tls.Some? && spec.tls.value.caSecretRef.Some? {
      var named := spec.tls.value.caSecretRef.value;
      var ref := Ref(SecretKind, Key(namespace, named.name));
      var fetched := Fetch(reader, "spec.tls.caSecretRef", ref, named.key);
      if fetched.Ok? {
        FetchMeans(reader, "spec.tls.caSecretRef", ref, named.key, fetched.value);
      }
      if IsTrust(lib, reader, namespace, spec, tls) {
        var bundle :| Held(reader, ref, named.key, bundle) && lib.certificates(bundle) == tls.value.pool;
        FetchMeans(reader, "spec.tls.caSecretRef", ref, named.key, bundle);
      }
    }
  }

  /** All three. */
  ghost predicate IsResolved(lib: Library, reader: Reader, namespace: string, spec: Spec, resolved: Resolved) {
    && IsEndpoint(lib, reader, namespace, spec, resolved.endpoint)
    && IsHeader(lib, reader, namespace, spec, resolved.header)
    && IsTrust(lib, reader, namespace, spec, resolved.tls)
  }

  /**
   A config resolves to exactly what its sources make of it, and fails exactly when one of them is
   missing or unfit.
   */
  lemma ResolutionMeans(lib: Library, reader: Reader, namespace: string, spec: Spec, resolved: Resolved)
    ensures Resolution(lib, reader, namespace, spec) == Ok(resolved) <==>
            IsResolved(lib, reader, namespace, spec, resolved)
    ensures Resolution(lib, reader, namespace, spec).Err? <==>
            !exists r :: IsResolved(lib, reader, namespace, spec, r)
  {
    EndpointMeans(lib, reader, namespace, spec, resolved.endpoint);
    AuthenticationMeans(lib, reader, namespace, spec, resolved.header);
    TrustMeans(lib, reader, namespace, spec, resolved.tls);
    var result := Resolution(lib, reader, namespace, spec);
    if result.Ok? {
      EndpointMeans(lib, reader, namespace, spec, result.value.endpoint);
      AuthenticationMeans(lib, reader, namespace, spec, result.value.header);
      TrustMeans(lib, reader, namespace, spec, result.value.tls);
      assert IsResolved(lib, reader, namespace, spec, result.value);
    }
    if r :| IsResolved(lib, reader, namespace, spec, r) {
      EndpointMeans(lib, reader, namespace, spec, r.endpoint);
      AuthenticationMeans(lib, reader, namespace, spec, r.header);
      TrustMeans(lib, reader, namespace, spec, r.tls);
    }
  }

  /** The text behind the reference that a field names first, a Secret before a ConfigMap. */
  function RefIn(namespace: string, path: string, sourced: Sourced): Option<(Ref, string, string)> {
    match sourced.from
    case Some(ValueSource(Some(ref), _)) =>
      Some((Ref(SecretKind, Key(namespace, ref.name)), ref.key, path + ".valueFrom.secretKeyRef"))
    case Some(ValueSource(None, Some(ref))) =>
      Some((Ref(ConfigMapKind, Key(namespace, ref.name)), ref.key, path + ".valueFrom.configMapKeyRef"))
    case _ => None
  }

  /**
   A field fails under its own path: as invalid when it says nothing, and by the path of its reference when
   the object is missing, cannot be read, or has no such key.
   */
  lemma FailuresAreNamed(lib: Library, reader: Reader, namespace: string, path: string, sourced: Sourced)
    ensures var value, named := Value(lib, reader, namespace, path, sourced), RefIn(namespace, path, sourced);
            match named
            case None =>
              value.Err? ==> value.error == SpecInvalid(if sourced.from.None? then path else path + ".valueFrom")
            case Some((ref, key, at)) =>
              && (reader(ref) == Err(Missing) ==> value == Err(AtField(at, RefMissing(ref))))
              && (forall text :: reader(ref) == Err(Unreadable(text)) ==>
                                   value == Err(AtField(at, RefUnreadable(ref, text))))
              && (reader(ref).Ok? && key !in reader(ref).value.data ==> value == Err(KeyMissing(at, ref.key.name, key)))
  {
  }

  /** A header without a credential to send is told from one that has no value. */
  lemma EmptyCredentialIsRejected(lib: Library, reader: Reader, namespace: string, header: Header)
    requires IsValue(lib, reader, namespace, header.credential, "")
    ensures Authentication(lib, reader, namespace, Some(header)) == Err(ValueEmpty("spec.auth.header"))
  {
    ValueMeans(lib, reader, namespace, "spec.auth.header", header.credential, "");
  }
}
