/**
 * The slice of the HTTP client the token code relies on: header values and
 * their conversion to text, status codes, requests as plain values, and the
 * scripted outcome of sending one.
 */
module Http {
  import opened Wrappers
  import opened Types

  newtype byte = b: int | 0 <= b < 256

  /** A byte a header value may contain when read as text: tab or visible ASCII. */
  predicate IsVisibleAscii(b: byte) {
    b == 9 || (32 <= b && b < 127)
  }

  /** Reads bytes as text when every one of them is visible ASCII. */
  function DecodeVisible(bytes: seq<byte>): (r: Option<string>)
    ensures r.Some? <==> forall i :: 0 <= i < |bytes| ==> IsVisibleAscii(bytes[i])
    ensures r.Some? ==> |r.value| == |bytes|
    ensures r.Some? ==> forall i :: 0 <= i < |bytes| ==> r.value[i] as int == bytes[i] as int
  {
    if bytes == [] then Some("")
    else if !IsVisibleAscii(bytes[0]) then None
    else
      match DecodeVisible(bytes[1..])
      case None => None
      case Some(rest) => Some([bytes[0] as int as char] + rest)
  }

  /** A character a header value may carry as text: tab or visible ASCII. */
  predicate IsVisibleChar(c: char) {
    c == '\t' || (' ' <= c && c <= '~')
  }

  /** The bytes of a visible-ASCII text, one per character. */
  function EncodeVisible(s: string): (bytes: seq<byte>)
    requires forall i :: 0 <= i < |s| ==> IsVisibleChar(s[i])
    ensures |bytes| == |s|
    ensures forall i :: 0 <= i < |s| ==> bytes[i] as int == s[i] as int
  {
    if s == [] then []
    else
      assert IsVisibleChar(s[0]);
      [s[0] as int as byte] + EncodeVisible(s[1..])
  }

  /** Reading back the bytes of a visible text gives that text. */
  lemma {:induction false} DecodeEncodeVisible(s: string)
    requires forall i :: 0 <= i < |s| ==> IsVisibleChar(s[i])
    ensures DecodeVisible(EncodeVisible(s)) == Some(s)
  {
    if s != [] {
      var bytes := EncodeVisible(s);
      var rest := EncodeVisible(s[1..]);
      assert bytes == [s[0] as int as byte] + rest;
      assert bytes[1..] == rest;
      DecodeEncodeVisible(s[1..]);
      assert IsVisibleAscii(bytes[0]);
      assert DecodeVisible(bytes) == Some([bytes[0] as int as char] + s[1..]);
      assert [bytes[0] as int as char] + s[1..] == s;
    }
  }

  /** One value of an HTTP header, as raw bytes. */
  datatype HeaderValue = HeaderValue(bytes: seq<byte>) {
    /** `HeaderValue::to_str`: fails unless every byte is visible ASCII. */
    function ToStr(): (r: Option<string>)
      ensures r.Some? <==> forall i :: 0 <= i < |bytes| ==> IsVisibleAscii(bytes[i])
    {
      DecodeVisible(bytes)
    }
  }

  /** `HeaderValue::from_str` for visible text; `ToStr` reads the text back. */
  function FromText(s: string): (h: HeaderValue)
    requires forall i :: 0 <= i < |s| ==> IsVisibleChar(s[i])
    ensures h.ToStr() == Some(s)
  {
    DecodeEncodeVisible(s);
    HeaderValue(EncodeVisible(s))
  }

  /** The text of a header value, or "" when it is not text (`to_str().unwrap_or("")`). */
  function TextOrEmpty(h: HeaderValue): (s: string)
    ensures h.ToStr().Some? ==> s == h.ToStr().value
    ensures h.ToStr().None? ==> s == ""
  {
    h.ToStr().GetOr("")
  }

  /** Every value in `hs` reads as text. */
  predicate AllText(hs: seq<HeaderValue>) {
    forall i :: 0 <= i < |hs| ==> hs[i].ToStr().Some?
  }

  type StatusCode = c: int | 100 <= c <= 999 witness 200

  /** `StatusCode::is_success`: the 2xx range. */
  predicate IsSuccess(c: StatusCode) {
    200 <= c <= 299
  }

  datatype Method = Get | Post

  datatype RequestBody = NoBody | Json(json: string) | Text(text: string)

  /**
   * A request as the client would send it. The base URL is configuration and
   * is left off `path`; `bearers` are the bearer credentials attached, in order.
   */
  datatype Request = Request(verb: Method, path: string, body: RequestBody, bearers: seq<string>)

  /** `RequestBuilder::bearer_auth`: appends one more bearer credential, nothing else changes. */
  function WithBearer(r: Request, token: string): (r': Request)
    ensures r'.bearers == r.bearers + [token]
    ensures r'.verb == r.verb && r'.path == r.path && r'.body == r.body
  {
    r.(bearers := r.bearers + [token])
  }

  /**
   * A received response: its status, the values of its `authorization`
   * header in order, and what its body decodes to as an error body, as
   * user information and as text (None where decoding fails).
   */
  datatype Response = Response(
    status: StatusCode,
    authorization: seq<HeaderValue>,
    errorBody: Option<AuthErrorBody>,
    userInfo: Option<UserInfo>,
    text: Option<string>)

  /** What sending one request yields: a transport failure or a response. */
  datatype Outcome = TransportFailure | Received(response: Response)
}
