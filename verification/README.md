# OCI distribution client — a Dafny model

This project models the core of the `oci-distribution` crate's `Client`: the
client that talks to an OCI (Docker v2) registry, obtains a read-only Bearer
token through the registry's OAuth2-like handshake, and pulls image manifests.

Every network exchange is replaced by what the client observes of it, so each
operation is a pure function from the client's state and those observations to
an outcome and the new state:

- `Base`: `Option`, and the `u8`/`u32` widths the records use.
- `Http`: status codes (the three-digit range the transport allows) and their
  4xx/5xx classes, outgoing requests, and reading a header value as text (the
  transport's `HeaderValue::to_str`: visible ASCII and tab only).
- `Challenge`: the Bearer challenge (`realm`, `scope`, `service`), its codec to
  and from the header grammar's raw challenge, and the list of Bearer challenges
  the `WWW-Authenticate` crate hands back for the raw challenges filed under the
  scheme `Bearer`.
- `Oci`: the client with its one-slot token store, the version probe, the
  handshake (split into the probe half `PlanAuth` and the token half
  `FinishAuth`), and manifest retrieval (request construction and response
  classification).
- `Session`: a caller driving one client through a sequence of calls; the token
  provenance invariant over such sequences.

Outcomes are `Ok`, `Err` (the errors the client returns) or `Panicked`. The
model keeps as panics, distinct from returned errors, the four places where an
index or `unwrap` depends on what the registry sent: `challenge_opt[0]`, the
`unwrap` of `realm`, the `unwrap` of `service`, and `err.errors[0]`. The `unwrap` of
constant or token-derived header values is not among them (see "Left out").

The model follows the code, including where it departs from what a registry
client would usually be expected to do:

- A Bearer challenge missing `realm` or `service` cannot yield a token request;
  the code does not return an error but panics (`unwrap`), so the model yields `Panicked(MissingRealm)` or
  `Panicked(MissingService)`, realm checked first.
- A 4xx response with an error envelope whose list is empty is not reported
  as an error; the code indexes `errors[0]` and panics (`Panicked(EmptyErrorEnvelope)`).
- The unexpected-status error does not name the requested URL: the code's
  message carries the status code and body only, and so does `UnexpectedStatus`.
- A 2xx status other than 200 is neither success nor client/server fault, so it
  is an unexpected status.

The header crate's `get::<BearerChallenge>()` is taken to look up the scheme
`Bearer` and, when present, apply `from_raw` to each raw challenge under it in
order, dropping the ones it rejects (`Challenge.Recognised`). So a header whose
Bearer challenges are all token68 yields an empty list, and the handshake's
`challenge_opt[0]` panics (`Panicked(NoBearerChallenge)`).

## Model

| member | source | states |
|---|---|---|
| Http.ToStr | crates/oci-distribution/src/lib.rs:53-57 | reading a header value as text succeeds exactly when every octet is visible ASCII or tab, and then yields the octets unchanged |
| Http.StatusDigits | crates/oci-distribution/src/lib.rs:141-142 | the three characters a status code is displayed with are decimal digits denoting that code |
| Http.ToStrOctets | crates/oci-distribution/src/lib.rs:56 | visible text stored in a header value is read back exactly |
| Challenge.FromRaw | crates/oci-distribution/src/lib.rs:176-185 | a token68 raw challenge is rejected and a parameter list always accepted; each field is present exactly when its parameter is, with that parameter's value |
| Challenge.IntoRaw | crates/oci-distribution/src/lib.rs:187-199 | the written parameter list holds exactly the parameters for the fields present, each with the field's value |
| Challenge.FromRawIntoRaw | crates/oci-distribution/src/lib.rs:176-199 | writing a challenge and reading it back gives the same challenge |
| Challenge.IntoRawFromRaw | crates/oci-distribution/src/lib.rs:176-199 | reading a parameter list and writing it back keeps exactly its realm, scope and service parameters |
| Challenge.FromRawIgnoresOtherFields | crates/oci-distribution/src/lib.rs:179-183 | parameters other than realm, scope and service do not change the challenge read |
| Challenge.Recognised | crates/oci-distribution/src/lib.rs:79-82 | the Bearer list is no longer than the raw list, empty exactly when every raw challenge is token68, and each entry is `from_raw` of some raw challenge |
| Challenge.RecognisedHead | crates/oci-distribution/src/lib.rs:79-86 | the challenge the handshake uses is read from the first parameter-list raw challenge |
| Oci.Message | crates/oci-distribution/src/lib.rs:104-146 | the messages the client formats: an auth rejection ends with the endpoint's body text verbatim, a client error starts with the first envelope entry and ends with the URL, a server error ends with the URL, an unexpected status starts with `code=` followed by the status code's digits and ends with the quoted body |
| Oci.BearerToken | crates/oci-distribution/src/lib.rs:159-161 | the Authorization value is `Bearer `, one space, then the access token unchanged |
| Oci.BearerCredential | crates/oci-distribution/src/lib.rs:159-161 | a value is a Bearer credential exactly when it starts with `Bearer `, and the credential is the rest |
| Oci.BearerTokenRoundTrip | crates/oci-distribution/src/lib.rs:159-161 | the access token is recovered from the header value the client sends |
| Oci.Version | crates/oci-distribution/src/lib.rs:50-59 | the probe is an anonymous GET on `https://{host}/v2/`; a missing version header is an error whatever the status; a present one yields its text exactly, or an error when it is not text; the version probe never panics |
| Oci.VersionReadsHeader | crates/oci-distribution/src/lib.rs:207-213 | a registry advertising `registry/2.0` is reported as exactly `registry/2.0` |
| Oci.VersionIgnoresStatus | crates/oci-distribution/src/lib.rs:50-58 | the status of the probe response does not affect the version probe |
| Oci.PullScope | crates/oci-distribution/src/lib.rs:85 | the requested scope is `repository:`, the repository path, then `:pull` |
| Oci.PlanAuth | crates/oci-distribution/src/lib.rs:68-96 | no header or no Bearer scheme needs no token; an unparseable header is an error; a Bearer scheme with no usable challenge, or whose first challenge lacks realm or service, panics; otherwise the token request names the first challenge's realm and service and the pull scope |
| Oci.FinishAuth | crates/oci-distribution/src/lib.rs:98-108 | a 200 whose body decodes replaces the held token with the decoded one; any other status is an error carrying the body text verbatim; every failure leaves the client unchanged |
| Oci.Auth | crates/oci-distribution/src/lib.rs:65-109 | the handshake first probes `https://{registry}/v2/` and sends a second, token, request exactly when the probe asks for one, neither carrying the held token; without a Bearer scheme it succeeds and keeps the held token; an unparseable header is an error; a 200 with a decodable token succeeds and replaces the token, a 200 that does not decode is an error; the token changes only that way; a failure never changes the client; it panics exactly when the probe half aborts |
| Oci.MissingRealmOrServicePanics | crates/oci-distribution/src/lib.rs:84-88 | a first Bearer challenge lacking realm or service makes the handshake panic, never succeed |
| Oci.TokenRequestFromFirstChallenge | crates/oci-distribution/src/lib.rs:84-96 | the token request is built from the first parameter-list challenge only, with the scope `repository:{repository}:pull` |
| Oci.ManifestRequest | crates/oci-distribution/src/lib.rs:115-125 | the manifest GET goes to the reference's URL, always asks for both manifest media types, and carries an Authorization header exactly when the client holds a token, whose credential is that token |
| Oci.Classify | crates/oci-distribution/src/lib.rs:129-146 | every status is in exactly one class: 200 success, 4xx client fault, 5xx server fault, anything else unexpected |
| Oci.ManifestOutcome | crates/oci-distribution/src/lib.rs:132-146 | 200 yields the decoded manifest; 4xx names the envelope's first entry and the URL, or fails when the body is no envelope, or panics when the envelope is empty; 5xx is a server error at the URL; anything else carries the code and body text |
| Oci.ServerErrorIgnoresBody | crates/oci-distribution/src/lib.rs:140 | a 5xx outcome does not depend on the body |
| Oci.PullManifest | crates/oci-distribution/src/lib.rs:115-147 | a pull goes to the reference's manifest URL with an Authorization header exactly when a token is held, succeeds exactly on a 200 whose body decodes, and every client or server error it reports names the URL the request went to |
| Oci.PullOutcomeIgnoresToken | crates/oci-distribution/src/lib.rs:123-146 | the token held changes the request a pull sends, never the outcome it makes of the response |
| Oci.DefaultIsAnonymous | crates/oci-distribution/src/lib.rs:37-41 | a fresh client's manifest request carries no Authorization header |
| Oci.AuthThenPull | crates/oci-distribution/src/lib.rs:98-125 | after a handshake granted a token, the next manifest request carries `Bearer ` and that token |
| Session.Step | crates/oci-distribution/src/lib.rs:50-147 | only the handshake can change the client, and only to the token its token request was answered with under status 200; a panicking call leaves the client as it was |
| Session.TokenProvenance | crates/oci-distribution/src/lib.rs:98-103 | after any sequence of calls the token held is the one held before or the token some handshake in the sequence requested and was answered with under status 200 |
| Session.FreshClientTokens | crates/oci-distribution/src/lib.rs:37-41 | a client that starts empty only ever holds a token some handshake requested from a token endpoint that answered 200 |
| Session.NoAuthKeepsToken | crates/oci-distribution/src/lib.rs:50-147 | version probes and manifest pulls never change the client |

## Left out

- Networking: `reqwest`, async/await, TLS and transport errors (every `?` on a send or a body read). The responses are inputs; a failed exchange is not modelled.
- Parsing the `WWW-Authenticate` header text: it belongs to the `www_authenticate`/`hyperx` crates, so the model starts from "unparseable" or the raw challenges filed under `Bearer`. Case-insensitive matching of scheme and parameter names, and the quoting flag `into_raw` records, belong to those crates too and are not modelled.
- JSON decoding of the token, the manifest and the error envelope: the decoded value (or its absence) is an input. The manifest and envelope are reduced to the fields the client reads.
- Image references: `registry()`, `repository()` and `to_v2_manifest_url()` come from a module that is not part of this model, so a reference is just those three strings.
- `expires_in` and `issued_at` are stored in the token but never read; `issued_at` is kept as an integer instead of a `chrono` timestamp.
- The `_secret` argument of `auth`, which the source ignores.
- Header values built with `.parse().unwrap()`: they are constant or derived from the token, and their validity is not modelled.
- Oci.Message: renders the status code as its three digits, without the reason phrase the status code's display appends after them; the text of errors raised by other crates is not modelled.
- The tests at the end of the file, which talk to a live registry.
