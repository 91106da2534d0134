/** The Bearer challenge a registry sends in `WWW-Authenticate`, and its codec to
    and from the header grammar's raw challenge. Parsing the header text itself
    belongs to a separate crate; this module starts from its raw challenges. */
module Challenge {
  import opened Base

  /** What may follow an auth-scheme in a challenge (section 2.1 of RFC 7235): a
      single token68, or a list of parameters, kept as name to value. */
  datatype RawChallenge = Token68(token: string) | Fields(fields: map<string, string>)

  /** The three parameters the client reads from a Bearer challenge. */
  datatype BearerChallenge = BearerChallenge(realm: Option<string>, scope: Option<string>, service: Option<string>)

  const RealmKey := "realm"
  const ScopeKey := "scope"
  const ServiceKey := "service"

  /** The only parameter names a Bearer challenge is read from or written to. */
  const KnownKeys: set<string> := {RealmKey, ScopeKey, ServiceKey}

  /** `field` describes exactly what `fields` holds under `key`: absent, or that value. */
  predicate Carries(fields: map<string, string>, key: string, field: Option<string>) {
    match field
    case None => key !in fields
    case Some(v) => key in fields && fields[key] == v
  }

  /** The parameter names a challenge has a value for. */
  function PresentKeys(c: BearerChallenge): set<string> {
    (if c.realm.Some? then {RealmKey} else {})
    + (if c.scope.Some? then {ScopeKey} else {})
    + (if c.service.Some? then {ServiceKey} else {})
  }

  function Field(fields: map<string, string>, key: string): Option<string> {
    if key in fields then Some(fields[key]) else None
  }

  /** A token68 challenge is not a Bearer challenge; a parameter list always is,
      with each of the three fields taken from its parameter when there is one. */
  function FromRaw(raw: RawChallenge): (r: Option<BearerChallenge>)
    ensures r.None? <==> raw.Token68?
    ensures r.Some? ==> Carries(raw.fields, RealmKey, r.value.realm)
    ensures r.Some? ==> Carries(raw.fields, ScopeKey, r.value.scope)
    ensures r.Some? ==> Carries(raw.fields, ServiceKey, r.value.service)
  {
    match raw
    case Token68(_) => None
    case Fields(fields) =>
      Some(BearerChallenge(
        realm := Field(fields, RealmKey),
        scope := Field(fields, ScopeKey),
        service := Field(fields, ServiceKey)))
  }

  /** A Bearer challenge written back as a parameter list holding exactly the
      fields it has. */
  function IntoRaw(c: BearerChallenge): (r: RawChallenge)
    ensures r.Fields?
    ensures r.fields.Keys == PresentKeys(c)
    ensures Carries(r.fields, RealmKey, c.realm)
    ensures Carries(r.fields, ScopeKey, c.scope)
    ensures Carries(r.fields, ServiceKey, c.service)
  {
    var withRealm := if c.realm.Some? then map[RealmKey := c.realm.value] else map[];
    var withScope := if c.scope.Some? then withRealm[ScopeKey := c.scope.value] else withRealm;
    var withService := if c.service.Some? then withScope[ServiceKey := c.service.value] else withScope;
    Fields(withService)
  }

  /** Writing a challenge and reading it back gives the same challenge. */
  lemma FromRawIntoRaw(c: BearerChallenge)
    ensures FromRaw(IntoRaw(c)) == Some(c)
  {
  }

  /** Reading a parameter list and writing it back keeps exactly its known parameters. */
  lemma IntoRawFromRaw(fields: map<string, string>)
    ensures FromRaw(Fields(fields)).Some?
    ensures IntoRaw(FromRaw(Fields(fields)).value) == Fields(fields - (fields.Keys - KnownKeys))
  {
    var back := IntoRaw(FromRaw(Fields(fields)).value).fields;
    var kept := fields - (fields.Keys - KnownKeys);
    assert back.Keys == kept.Keys;
    forall k | k in back
      ensures back[k] == kept[k]
    {
    }
  }

  /** Parameters other than realm, scope and service do not affect the challenge read. */
  lemma FromRawIgnoresOtherFields(fields: map<string, string>, key: string, value: string)
    requires key !in KnownKeys
    ensures FromRaw(Fields(fields[key := value])) == FromRaw(Fields(fields))
  {
  }

  /** The Bearer challenges the header crate hands back for the raw challenges it
      filed under the scheme `Bearer`: each raw challenge read by `FromRaw`, in
      order, dropping those it rejects. */
  function Recognised(raws: seq<RawChallenge>): (r: seq<BearerChallenge>)
    ensures |r| <= |raws|
    ensures |r| == 0 <==> forall i :: 0 <= i < |raws| ==> raws[i].Token68?
    ensures forall j :: 0 <= j < |r| ==> exists i :: 0 <= i < |raws| && FromRaw(raws[i]) == Some(r[j])
  {
    if |raws| == 0 then []
    else
      var rest := Recognised(raws[1..]);
      assert forall i :: 1 <= i < |raws| ==> raws[i] == raws[1..][i - 1];
      match FromRaw(raws[0])
      case None => rest
      case Some(c) => [c] + rest
  }

  /** `i` is the position of the first parameter-list challenge. */
  predicate FirstFields(raws: seq<RawChallenge>, i: int) {
    0 <= i < |raws| && raws[i].Fields? && forall j :: 0 <= j < i ==> raws[j].Token68?
  }

  /** The first recognised challenge comes from the first parameter-list raw challenge. */
  lemma {:induction false} RecognisedHead(raws: seq<RawChallenge>, i: int)
    requires FirstFields(raws, i)
    ensures |Recognised(raws)| > 0
    ensures Some(Recognised(raws)[0]) == FromRaw(raws[i])
    decreases i
  {
    if i > 0 {
      assert FirstFields(raws[1..], i - 1);
      RecognisedHead(raws[1..], i - 1);
    }
  }
}
