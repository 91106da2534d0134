/** A caller driving one client through a sequence of calls. Only the handshake
    writes the token store, and every token the store ever holds was granted by
    a token endpoint answering 200. */
module Session {
  import opened Base
  import opened Http
  import opened Oci

  /** One call on the client, with the responses it observes. */
  datatype Call =
    | VersionCall(host: string, versionResponse: VersionResponse)
    | AuthCall(image: Reference, probe: ProbeResponse, tokenResponse: TokenResponse)
    | PullCall(image: Reference, manifestResponse: ManifestResponse)

  /** `call` is a handshake that sent a token request, to which the token
      endpoint answered 200 with token `t`. */
  predicate Grants(call: Call, t: RegistryToken) {
    && call.AuthCall?
    && PlanAuth(call.image, call.probe).FetchToken?
    && call.tokenResponse.status == 200
    && call.tokenResponse.token == Some(t)
  }

  /** The client after one call, and whether the call panicked. */
  datatype StepResult = StepResult(client: Client, panicked: bool)

  function Step(client: Client, call: Call): (r: StepResult)
    ensures !call.AuthCall? ==> r.client == client
    ensures r.panicked <==>
      (call.AuthCall? && Auth(client, call.image, call.probe, call.tokenResponse).outcome.Panicked?)
      || (call.PullCall? && PullManifest(client, call.image, call.manifestResponse).outcome.Panicked?)
    ensures r.client.token != client.token ==> r.client.token.Some? && Grants(call, r.client.token.value)
    ensures r.panicked ==> r.client == client
  {
    match call
    case VersionCall(host, resp) =>
      StepResult(client, Version(host, resp).outcome.Panicked?)
    case AuthCall(image, probe, tokenResponse) =>
      var result := Auth(client, image, probe, tokenResponse);
      StepResult(result.client, result.outcome.Panicked?)
    case PullCall(image, resp) =>
      StepResult(client, PullManifest(client, image, resp).outcome.Panicked?)
  }

  /** The client after a sequence of calls; a panic ends the sequence. */
  function Run(client: Client, calls: seq<Call>): Client
    decreases |calls|
  {
    if |calls| == 0 then client
    else
      var next := Step(client, calls[0]);
      if next.panicked then next.client else Run(next.client, calls[1..])
  }

  /** The token held after any sequence of calls is the one held before, or one
      some handshake in the sequence was granted. */
  lemma {:induction false} TokenProvenance(client: Client, calls: seq<Call>)
    ensures
      var t := Run(client, calls).token;
      t == client.token || (t.Some? && exists i :: 0 <= i < |calls| && Grants(calls[i], t.value))
    decreases |calls|
  {
    if |calls| > 0 {
      var next := Step(client, calls[0]);
      if !next.panicked {
        TokenProvenance(next.client, calls[1..]);
        var t := Run(client, calls).token;
        if t != next.client.token {
          var i :| 0 <= i < |calls[1..]| && Grants(calls[1..][i], t.value);
          assert Grants(calls[i + 1], t.value);
        }
      }
    }
  }

  /** A client that starts empty only ever holds a token a token endpoint granted
      with status 200. */
  lemma FreshClientTokens(calls: seq<Call>)
    ensures
      var t := Run(Default(), calls).token;
      t.Some? ==> exists i :: 0 <= i < |calls| && Grants(calls[i], t.value)
  {
    TokenProvenance(Default(), calls);
  }

  /** Without a handshake among the calls the client keeps the token it held. */
  lemma {:induction false} NoAuthKeepsToken(client: Client, calls: seq<Call>)
    requires forall i :: 0 <= i < |calls| ==> !calls[i].AuthCall?
    ensures Run(client, calls) == client
    decreases |calls|
  {
    if |calls| > 0 {
      NoAuthKeepsToken(client, calls[1..]);
    }
  }
}
