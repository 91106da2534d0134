/** The slice of HTTP the client observes: status codes and their classes, header
    values as octets, and the shape of an outgoing GET request. */
module Http {
  import opened Base

  /** An HTTP status code. The transport only ever hands back three-digit codes. */
  type StatusCode = s: int | 100 <= s < 1000 witness 200

  const StatusOk: StatusCode := 200

  /** 4xx, as the transport's `is_client_error`. */
  predicate IsClientError(s: StatusCode) {
    400 <= s < 500
  }

  /** 5xx, as the transport's `is_server_error`. */
  predicate IsServerError(s: StatusCode) {
    500 <= s < 600
  }

  /** An outgoing GET: the URL, its query parameters in order, and its headers. */
  datatype Request = Request(url: string, query: seq<(string, string)>, headers: map<string, string>)

  const AuthorizationHeader := "Authorization"
  const AcceptHeader := "Accept"

  /** The octets a header value may hold and still be read as text: visible ASCII
      and horizontal tab. */
  predicate IsVisibleAscii(b: byte) {
    (32 <= b < 127) || b == 9
  }

  predicate AllVisible(bytes: seq<byte>) {
    forall i :: 0 <= i < |bytes| ==> IsVisibleAscii(bytes[i])
  }

  /** `String` and octets agree character by character. */
  predicate SameText(s: string, bytes: seq<byte>) {
    |s| == |bytes| && forall i :: 0 <= i < |s| ==> s[i] as int == bytes[i]
  }

  /** Reading a header value as text: it fails on the first octet that is not
      visible ASCII and otherwise yields the octets unchanged. */
  function ToStr(bytes: seq<byte>): (r: Option<string>)
    ensures r.Some? <==> AllVisible(bytes)
    ensures r.Some? ==> SameText(r.value, bytes)
  {
    if |bytes| == 0 then Some("")
    else if !IsVisibleAscii(bytes[0]) then None
    else
      match ToStr(bytes[1..])
      case None => None
      case Some(rest) => Some([bytes[0] as char] + rest)
  }

  /** Text a header value can carry: visible ASCII characters and tab. */
  predicate VisibleText(s: string) {
    forall i :: 0 <= i < |s| ==> s[i] == '\t' || ' ' <= s[i] <= '~'
  }

  /** The octets of visible text, one per character. */
  function Octets(s: string): (r: seq<byte>)
    requires VisibleText(s)
    ensures SameText(s, r)
    ensures AllVisible(r)
  {
    seq(|s|, i requires 0 <= i < |s| => s[i] as int)
  }

  /** Text made only of visible characters survives the trip through a header value. */
  lemma ToStrOctets(s: string)
    requires VisibleText(s)
    ensures ToStr(Octets(s)) == Some(s)
  {
    var bytes := Octets(s);
    var t := ToStr(bytes).value;
    forall i | 0 <= i < |s|
      ensures t[i] == s[i]
    {
      assert t[i] as int == bytes[i] == s[i] as int;
    }
    assert |t| == |s|;
    assert t == s;
  }

  /** The three decimal digits of a status code, as its `Display` begins. */
  function StatusDigits(s: StatusCode): (r: string)
    ensures |r| == 3
    ensures forall i :: 0 <= i < 3 ==> '0' <= r[i] <= '9'
    ensures (r[0] as int - '0' as int) * 100 + (r[1] as int - '0' as int) * 10 + (r[2] as int - '0' as int) == s
  {
    [Digit(s / 100), Digit(s / 10 % 10), Digit(s % 10)]
  }

  function Digit(d: int): char
    requires 0 <= d < 10
  {
    ('0' as int + d) as char
  }
}
