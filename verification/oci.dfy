/** The OCI registry client: its one-slot token store, the version probe, the
    Bearer-token handshake and manifest retrieval. Every network exchange is
    replaced by the response the client observes, so each operation is a pure
    function from the client's state and those observations to an outcome and
    the new state. */
module Oci {
  import opened Base
  import opened Http
  import opened Challenge

  /** The header a v2 registry answers its base endpoint with. */
  const VersionHeader := "Docker-Distribution-Api-Version"

  /** The manifest media types asked for, single manifest first. */
  const AcceptManifests :=
    "application/vnd.docker.distribution.manifest.v2+json,application/vnd.docker.distribution.manifest.list.v2+json"

  const BearerPrefix := "Bearer "

  /** What the message of an unexpected status starts with; the code follows. */
  const UnexpectedPrefix := "An unexpected error occured: code="

  /** A token granted by a registry's token endpoint. Its expiry and issue time
      (seconds since the epoch) are kept but never consulted. */
  datatype RegistryToken = RegistryToken(accessToken: string, expiresIn: Option<u32>, issuedAt: Option<int>)

  /** The client: at most one token, replaced only by a successful handshake. */
  datatype Client = Client(token: Option<RegistryToken>)

  /** A client holding no token. */
  function Default(): Client {
    Client(None)
  }

  /** What the client asks of an image reference: its registry host, its
      repository path, and the manifest URL it builds. */
  datatype Reference = Reference(registry: string, repository: string, manifestUrl: string)

  /** A manifest as decoded from a successful response. */
  datatype Manifest = Manifest(schemaVersion: int, layers: seq<string>)

  /** A decoded error envelope; each entry as it is displayed. */
  datatype Envelope = Envelope(errors: seq<string>)

  /** The failures the client reports as errors. */
  datatype OciError =
    | MissingVersionHeader
    | HeaderNotText
    | MalformedChallenge
    | AuthRejected(reason: string)
    | UndecodableBody
    | ClientError(entry: string, url: string)
    | ServerError(url: string)
    | UnexpectedStatus(code: StatusCode, body: string)

  /** The places where the client panics instead of returning an error. */
  datatype Panic =
    | NoBearerChallenge
    | MissingRealm
    | MissingService
    | EmptyErrorEnvelope

  /** The result of one client call. */
  datatype Outcome<+T> = Ok(value: T) | Err(error: OciError) | Panicked(panic: Panic)

  /** The text of the errors whose message the client formats itself; `None`
      for errors whose text comes from the transport, header or JSON crates. */
  function Message(e: OciError): (r: Option<string>)
    ensures r.Some? <==> !(e.HeaderNotText? || e.MalformedChallenge? || e.UndecodableBody?)
    ensures e.AuthRejected? ==> |r.value| >= |e.reason| && r.value[|r.value| - |e.reason|..] == e.reason
    ensures e.ClientError? ==>
      && |r.value| >= |e.entry| + |e.url|
      && r.value[..|e.entry|] == e.entry
      && r.value[|r.value| - |e.url|..] == e.url
    ensures e.ServerError? ==> |r.value| >= |e.url| && r.value[|r.value| - |e.url|..] == e.url
    ensures e.UnexpectedStatus? ==>
      && |r.value| > |UnexpectedPrefix| + 3 + |e.body|
      && r.value[..|UnexpectedPrefix|] == UnexpectedPrefix
      && r.value[|UnexpectedPrefix|..|UnexpectedPrefix| + 3] == StatusDigits(e.code)
      && r.value[|r.value| - |e.body| - 1 .. |r.value| - 1] == e.body
  {
    match e
    case MissingVersionHeader => Some("no header v2 found")
    case HeaderNotText => None
    case MalformedChallenge => None
    case AuthRejected(reason) => Some("failed to authenticate: " + reason)
    case UndecodableBody => None
    case ClientError(entry, url) => Some(entry + " on " + url)
    case ServerError(url) => Some("Server error at " + url)
    case UnexpectedStatus(code, body) =>
      Some(UnexpectedPrefix + StatusDigits(code) + ", message='" + body + "'")
  }

  // ----- Bearer token -----

  /** The `Authorization` value for a token: the word `Bearer`, one space, then
      the access token unchanged. */
  function BearerToken(t: RegistryToken): (r: string)
    ensures |r| == |BearerPrefix| + |t.accessToken|
    ensures r[..|BearerPrefix|] == BearerPrefix
    ensures r[|BearerPrefix|..] == t.accessToken
  {
    BearerPrefix + t.accessToken
  }

  /** The access token carried by an `Authorization` value, when it is a Bearer one. */
  function BearerCredential(header: string): (r: Option<string>)
    ensures r.Some? <==> |header| >= |BearerPrefix| && header[..|BearerPrefix|] == BearerPrefix
    ensures r.Some? ==> BearerPrefix + r.value == header
  {
    if |header| >= |BearerPrefix| && header[..|BearerPrefix|] == BearerPrefix
    then Some(header[|BearerPrefix|..])
    else None
  }

  /** The credential can be read back from the header value the client sends. */
  lemma BearerTokenRoundTrip(t: RegistryToken)
    ensures BearerCredential(BearerToken(t)) == Some(t.accessToken)
  {
  }

  // ----- Version probe -----

  /** The anonymous GET on a registry's base endpoint, sent by both the version
      probe and the handshake. */
  function ProbeRequest(host: string): Request {
    Request("https://" + host + "/v2/", [], map[])
  }

  /** What the version probe observes: the status, and the raw value of the
      version header if the response has one. */
  datatype VersionResponse = VersionResponse(status: StatusCode, versionHeader: Option<seq<byte>>)

  /** The request a version probe sends and what it makes of the response. */
  datatype VersionResult = VersionResult(request: Request, outcome: Outcome<string>)

  /** The version probe of `host`: an anonymous GET on its base endpoint; the
      header's text exactly, an error when the header is missing, whatever the
      status, or when it is not text. */
  function Version(host: string, resp: VersionResponse): (r: VersionResult)
    ensures r.request.url == "https://" + host + "/v2/"
    ensures r.request.query == [] && AuthorizationHeader !in r.request.headers
    ensures !r.outcome.Panicked?
    ensures r.outcome.Ok? <==> resp.versionHeader.Some? && AllVisible(resp.versionHeader.value)
    ensures r.outcome.Ok? ==> SameText(r.outcome.value, resp.versionHeader.value)
    ensures resp.versionHeader.None? ==> r.outcome == Err(MissingVersionHeader)
    ensures resp.versionHeader.Some? && !r.outcome.Ok? ==> r.outcome == Err(HeaderNotText)
  {
    var outcome :=
      match resp.versionHeader
      case None => Err(MissingVersionHeader)
      case Some(h) =>
        match ToStr(h)
        case None => Err(HeaderNotText)
        case Some(text) => Ok(text);
    VersionResult(ProbeRequest(host), outcome)
  }

  /** The status of the probe response plays no part in the version probe. */
  lemma VersionIgnoresStatus(host: string, resp: VersionResponse, status: StatusCode)
    ensures Version(host, resp.(status := status)) == Version(host, resp)
  {
  }

  /** A registry advertising `registry/2.0` is reported as exactly that version. */
  lemma VersionReadsHeader(host: string, status: StatusCode)
    ensures Version(host, VersionResponse(status, Some(Octets("registry/2.0")))).outcome == Ok("registry/2.0")
  {
    ToStrOctets("registry/2.0");
  }

  // ----- Authentication handshake -----

  /** The `WWW-Authenticate` header as the header crate delivers it: text it
      could not parse, or the raw challenges it filed under the scheme `Bearer`
      (`None` when no challenge of that scheme is present). */
  datatype ChallengeHeader = Unparseable | Parsed(bearer: Option<seq<RawChallenge>>)

  /** What the handshake observes from the base endpoint. */
  datatype ProbeResponse = ProbeResponse(wwwAuthenticate: Option<ChallengeHeader>)

  /** What the handshake observes from the token endpoint: the status, the body
      decoded as a token (`None` when it does not decode), and the body as text. */
  datatype TokenResponse = TokenResponse(status: StatusCode, token: Option<RegistryToken>, text: string)

  /** The read-only scope requested for a repository. */
  function PullScope(repository: string): (r: string)
    ensures |r| == |"repository:"| + |repository| + |":pull"|
    ensures r[..|"repository:"|] == "repository:"
    ensures r[|"repository:"| .. |r| - |":pull"|] == repository
    ensures r[|r| - |":pull"|..] == ":pull"
  {
    "repository:" + repository + ":pull"
  }

  /** The token request for a challenge's realm and service. It carries no
      `Authorization` header whatever the client holds. */
  function TokenRequest(realm: string, service: string, scope: string): Request {
    Request(realm, [("service", service), ("scope", scope)], map[])
  }

  /** What the probe response decides, before any token request. */
  datatype AuthPlan =
    | Anonymous
    | Rejected(error: OciError)
    | Aborted(panic: Panic)
    | FetchToken(request: Request)

  /** The challenge the handshake uses: the first one the header crate recognised. */
  function FirstChallenge(probe: ProbeResponse): Option<BearerChallenge> {
    match probe.wwwAuthenticate
    case Some(Parsed(Some(raws))) =>
      var found := Recognised(raws);
      if |found| == 0 then None else Some(found[0])
    case _ => None
  }

  /** True when the probe response carries no Bearer challenge scheme at all. */
  predicate NoBearerScheme(probe: ProbeResponse) {
    probe.wwwAuthenticate.None? || probe.wwwAuthenticate == Some(Parsed(None))
  }

  /** The probe half of the handshake: no header or no Bearer scheme needs no
      token; an unparseable header is an error; a Bearer scheme with no usable
      challenge, or whose first challenge lacks its realm or service, is a
      panic; otherwise a token request for the repository's pull scope. */
  function PlanAuth(image: Reference, probe: ProbeResponse): (p: AuthPlan)
    ensures p.Anonymous? <==> NoBearerScheme(probe)
    ensures p.Rejected? <==> probe.wwwAuthenticate == Some(Unparseable)
    ensures p.Rejected? ==> p.error == MalformedChallenge
    ensures p.FetchToken? <==>
      FirstChallenge(probe).Some? && FirstChallenge(probe).value.realm.Some?
      && FirstChallenge(probe).value.service.Some?
    ensures p.FetchToken? ==>
      var c := FirstChallenge(probe).value;
      p.request == TokenRequest(c.realm.value, c.service.value, PullScope(image.repository))
    ensures p.Aborted? ==>
      match FirstChallenge(probe)
      case None => p.panic == NoBearerChallenge
      case Some(c) => p.panic == (if c.realm.None? then MissingRealm else MissingService)
  {
    match probe.wwwAuthenticate
    case None => Anonymous
    case Some(Unparseable) => Rejected(MalformedChallenge)
    case Some(Parsed(None)) => Anonymous
    case Some(Parsed(Some(raws))) =>
      var found := Recognised(raws);
      if |found| == 0 then Aborted(NoBearerChallenge)
      else
        var challenge := found[0];
        match challenge.realm
        case None => Aborted(MissingRealm)
        case Some(realm) =>
          match challenge.service
          case None => Aborted(MissingService)
          case Some(service) => FetchToken(TokenRequest(realm, service, PullScope(image.repository)))
  }

  /** An outcome together with the client state after the call. */
  datatype AuthResult = AuthResult(outcome: Outcome<()>, client: Client)

  /** The token half of the handshake: a 200 whose body decodes replaces any
      token held; any other status is an error carrying the body text and keeps
      the token held. */
  function FinishAuth(client: Client, resp: TokenResponse): (r: AuthResult)
    ensures r.outcome.Ok? <==> resp.status == StatusOk && resp.token.Some?
    ensures r.outcome.Ok? ==> r.client.token == resp.token
    ensures !r.outcome.Ok? ==> r.client == client
    ensures resp.status != StatusOk ==> r.outcome == Err(AuthRejected(resp.text))
    ensures resp.status == StatusOk && resp.token.None? ==> r.outcome == Err(UndecodableBody)
  {
    if resp.status == StatusOk then
      match resp.token
      case None => AuthResult(Err(UndecodableBody), client)
      case Some(t) => AuthResult(Ok(()), Client(Some(t)))
    else
      AuthResult(Err(AuthRejected(resp.text)), client)
  }

  /** A whole handshake: the requests it sent in order, its outcome, and the
      client state after it. */
  datatype Handshake = Handshake(sent: seq<Request>, outcome: Outcome<()>, client: Client)

  /** The whole handshake: it probes the registry's base endpoint, then, when
      the probe asks for it, sends the token request; `tokenResponse` is what
      the token endpoint answers, and is consulted only when that request is
      sent. Neither request carries the token the client holds. */
  function Auth(client: Client, image: Reference, probe: ProbeResponse, tokenResponse: TokenResponse): (r: Handshake)
    ensures 1 <= |r.sent| <= 2
    ensures r.sent[0] == ProbeRequest(image.registry)
    ensures r.sent[0].url == "https://" + image.registry + "/v2/" && r.sent[0].query == []
    ensures forall i :: 0 <= i < |r.sent| ==> AuthorizationHeader !in r.sent[i].headers
    ensures |r.sent| == 2 <==> PlanAuth(image, probe).FetchToken?
    ensures |r.sent| == 2 ==> r.sent[1] == PlanAuth(image, probe).request
    ensures NoBearerScheme(probe) ==> r.outcome == Ok(()) && r.client == client
    ensures PlanAuth(image, probe).Rejected? ==> r.outcome == Err(MalformedChallenge) && r.client == client
    ensures r.outcome.Panicked? <==> PlanAuth(image, probe).Aborted?
    ensures r.client.token != client.token ==>
      && PlanAuth(image, probe).FetchToken?
      && r.outcome.Ok? && tokenResponse.status == StatusOk && r.client.token == tokenResponse.token
    ensures !r.outcome.Ok? ==> r.client == client
    ensures PlanAuth(image, probe).FetchToken? && tokenResponse.status == StatusOk && tokenResponse.token.Some? ==>
      r.outcome == Ok(()) && r.client == Client(tokenResponse.token)
    ensures PlanAuth(image, probe).FetchToken? && tokenResponse.status == StatusOk && tokenResponse.token.None? ==>
      r.outcome == Err(UndecodableBody) && r.client == client
    ensures PlanAuth(image, probe).FetchToken? && tokenResponse.status != StatusOk ==>
      r.outcome == Err(AuthRejected(tokenResponse.text))
  {
    var probed := [ProbeRequest(image.registry)];
    match PlanAuth(image, probe)
    case Anonymous => Handshake(probed, Ok(()), client)
    case Rejected(e) => Handshake(probed, Err(e), client)
    case Aborted(why) => Handshake(probed, Panicked(why), client)
    case FetchToken(request) =>
      var finished := FinishAuth(client, tokenResponse);
      Handshake(probed + [request], finished.outcome, finished.client)
  }

  /** A Bearer challenge missing its realm or its service never lets the
      handshake succeed: it panics. */
  lemma MissingRealmOrServicePanics(client: Client, image: Reference, raws: seq<RawChallenge>, i: int, tokenResponse: TokenResponse)
    requires FirstFields(raws, i)
    requires FromRaw(raws[i]).value.realm.None? || FromRaw(raws[i]).value.service.None?
    ensures Auth(client, image, ProbeResponse(Some(Parsed(Some(raws)))), tokenResponse).outcome.Panicked?
  {
    RecognisedHead(raws, i);
  }

  /** The handshake reads only the first recognised challenge: the request it
      sends names that challenge's realm and service and the pull scope. */
  lemma TokenRequestFromFirstChallenge(image: Reference, raws: seq<RawChallenge>, i: int)
    requires FirstFields(raws, i)
    requires FromRaw(raws[i]).value.realm.Some? && FromRaw(raws[i]).value.service.Some?
    ensures
      var c := FromRaw(raws[i]).value;
      PlanAuth(image, ProbeResponse(Some(Parsed(Some(raws))))) ==
        FetchToken(Request(c.realm.value, [("service", c.service.value), ("scope", "repository:" + image.repository + ":pull")], map[]))
  {
    RecognisedHead(raws, i);
  }

  // ----- Manifest retrieval -----

  /** The manifest GET: the reference's manifest URL, the two manifest media
      types, and the token held as a Bearer credential, or no credential at all. */
  function ManifestRequest(client: Client, image: Reference): (r: Request)
    ensures r.url == image.manifestUrl
    ensures r.query == []
    ensures r.headers.Keys <= {AcceptHeader, AuthorizationHeader}
    ensures AcceptHeader in r.headers && r.headers[AcceptHeader] == AcceptManifests
    ensures AuthorizationHeader in r.headers <==> client.token.Some?
    ensures client.token.Some? ==>
      BearerCredential(r.headers[AuthorizationHeader]) == Some(client.token.value.accessToken)
  {
    var accept := map[AcceptHeader := AcceptManifests];
    match client.token
    case None => Request(image.manifestUrl, [], accept)
    case Some(t) =>
      BearerTokenRoundTrip(t);
      Request(image.manifestUrl, [], accept[AuthorizationHeader := BearerToken(t)])
  }

  /** The four classes a manifest response status falls into. */
  datatype StatusClass = Success | ClientFault | ServerFault | Unexpected

  /** Every status falls in exactly one class: 200 alone is success, any 4xx a
      client fault, any 5xx a server fault, and everything else unexpected. */
  function Classify(s: StatusCode): (c: StatusClass)
    ensures c == Success <==> s == 200
    ensures c == ClientFault <==> 400 <= s < 500
    ensures c == ServerFault <==> 500 <= s < 600
    ensures c == Unexpected <==> s != 200 && !(400 <= s < 600)
  {
    if s == StatusOk then Success
    else if IsClientError(s) then ClientFault
    else if IsServerError(s) then ServerFault
    else Unexpected
  }

  /** What manifest retrieval observes: the status, the body decoded as a
      manifest and as an error envelope (`None` when it does not decode), and
      the body as text. */
  datatype ManifestResponse = ManifestResponse(
    status: StatusCode, manifest: Option<Manifest>, envelope: Option<Envelope>, text: string)

  /** The outcome of a manifest response for the request sent to `url`. */
  function ManifestOutcome(url: string, resp: ManifestResponse): (r: Outcome<Manifest>)
    ensures r.Ok? <==> resp.status == 200 && resp.manifest.Some?
    ensures r.Ok? ==> r.value == resp.manifest.value
    ensures resp.status == 200 && resp.manifest.None? ==> r == Err(UndecodableBody)
    ensures 400 <= resp.status < 500 ==>
      match resp.envelope
      case None => r == Err(UndecodableBody)
      case Some(env) =>
        if |env.errors| == 0 then r == Panicked(EmptyErrorEnvelope)
        else r == Err(ClientError(env.errors[0], url))
    ensures 500 <= resp.status < 600 ==> r == Err(ServerError(url))
    ensures Classify(resp.status) == Unexpected ==> r == Err(UnexpectedStatus(resp.status, resp.text))
    ensures r.Panicked? ==> r.panic == EmptyErrorEnvelope
  {
    match Classify(resp.status)
    case Success =>
      (match resp.manifest
       case None => Err(UndecodableBody)
       case Some(m) => Ok(m))
    case ClientFault =>
      (match resp.envelope
       case None => Err(UndecodableBody)
       case Some(env) =>
         if |env.errors| == 0 then Panicked(EmptyErrorEnvelope)
         else Err(ClientError(env.errors[0], url)))
    case ServerFault => Err(ServerError(url))
    case Unexpected => Err(UnexpectedStatus(resp.status, resp.text))
  }

  /** A 5xx response is reported the same whatever its body. */
  lemma ServerErrorIgnoresBody(url: string, resp: ManifestResponse, other: ManifestResponse)
    requires 500 <= resp.status < 600 && other.status == resp.status
    ensures ManifestOutcome(url, resp) == ManifestOutcome(url, other)
  {
  }

  /** One manifest retrieval: the request the client sends and what it makes
      of the response. */
  datatype Pull = Pull(request: Request, outcome: Outcome<Manifest>)

  /** A pull sends the reference's manifest URL, with the client's token as its
      only credential, and every error it reports about the response names the
      URL the request went to. The token affects the request, never the outcome. */
  function PullManifest(client: Client, image: Reference, resp: ManifestResponse): (r: Pull)
    ensures r.request.url == image.manifestUrl
    ensures AuthorizationHeader in r.request.headers <==> client.token.Some?
    ensures client.token.Some? ==>
      BearerCredential(r.request.headers[AuthorizationHeader]) == Some(client.token.value.accessToken)
    ensures r.outcome.Ok? <==> resp.status == 200 && resp.manifest.Some?
    ensures r.outcome.Err? && r.outcome.error.ClientError? ==> r.outcome.error.url == r.request.url
    ensures r.outcome.Err? && r.outcome.error.ServerError? ==> r.outcome.error.url == r.request.url
    ensures r.outcome == ManifestOutcome(r.request.url, resp)
  {
    Pull(ManifestRequest(client, image), ManifestOutcome(image.manifestUrl, resp))
  }

  /** The token held changes what a pull sends, never what it makes of the response. */
  lemma PullOutcomeIgnoresToken(client: Client, other: Client, image: Reference, resp: ManifestResponse)
    ensures PullManifest(client, image, resp).outcome == PullManifest(other, image, resp).outcome
  {
  }

  /** A fresh client retrieves manifests anonymously. */
  lemma DefaultIsAnonymous(image: Reference)
    ensures AuthorizationHeader !in ManifestRequest(Default(), image).headers
  {
  }

  /** After a handshake whose token endpoint granted a token, the next manifest
      request presents that token. */
  lemma AuthThenPull(client: Client, image: Reference, probe: ProbeResponse, tokenResponse: TokenResponse)
    requires PlanAuth(image, probe).FetchToken?
    requires tokenResponse.status == 200 && tokenResponse.token.Some?
    ensures
      var authed := Auth(client, image, probe, tokenResponse);
      authed.outcome.Ok?
      && ManifestRequest(authed.client, image).headers[AuthorizationHeader] == "Bearer " + tokenResponse.token.value.accessToken
  {
  }
}
