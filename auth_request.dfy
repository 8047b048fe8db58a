/**
 * `AuthRequest`: a request wrapper that, on every send, first exchanges the
 * requester token for a fresh access token at `/auth/request`, stores it,
 * and only then sends the caller's request with that access token attached.
 *
 * Every HTTP exchange is a scripted `Outcome`; each step also reports the
 * requests it issued, in order. The functions below are the specification
 * of the steps; the class's methods are proved to follow them.
 */
module AuthRequests {
  import opened Wrappers
  import opened Types
  import opened Http
  import opened Errors
  import opened TokenStorage

  /** What one step yields: its result, the storage afterwards and the requests it issued. */
  datatype Step<T> = Step(result: Result<T, AuthError>, store: Store, sent: seq<Request>)

  const RequestPath: string := "/auth/request"

  /** The exchange request: a GET of `/auth/request` with the requester token as bearer. */
  function ExchangeRequest(requester: AuthToken): (r: Request)
    ensures r == Request(Get, RequestPath, NoBody, [requester.ToString()])
  {
    WithBearer(Request(Get, RequestPath, NoBody, []), requester.ToString())
  }

  /** `AuthRequest::new`: the stored access token, or the default token when the slot cannot be read. */
  function InitialToken(s: Store): (t: AuthToken)
    ensures TokenKey in s ==> t.ToString() == s[TokenKey]
    ensures TokenKey !in s ==> t == AuthToken.Default()
  {
    match Lookup(s, TokenKey)
    case Ok(token) => token
    case Err(_) => AuthToken.Default()
  }

  /**
   * `request_auth_token`: exchange the requester token for an access token.
   * Without a requester token nothing is sent; every failure leaves storage
   * as it was; success writes the first `authorization` value's text (or "")
   * to the access slot and nothing else.
   */
  function RequestAuthTokenStep(s: Store, exchange: Outcome): (st: Step<StatusCode>)
    ensures RequesterTokenKey !in s ==> st == Step(Err(FromErrorType(InvalidToken)), s, [])
    ensures RequesterTokenKey in s ==> st.sent == [Request(Get, RequestPath, NoBody, [s[RequesterTokenKey]])]
    ensures st.result.Err? ==> st.store == s
    ensures RequesterTokenKey in s && exchange.TransportFailure? ==> st.result == Err(Default())
    ensures RequesterTokenKey in s && exchange.Received? && !IsSuccess(exchange.response.status) ==>
              st.result == Err(FromResponse(exchange.response))
    ensures RequesterTokenKey in s && exchange.Received? && IsSuccess(exchange.response.status)
            && exchange.response.authorization == [] ==>
              st.result == Err(FromErrorType(TokenCreation))
    ensures st.result.Ok? <==>
              RequesterTokenKey in s && exchange.Received? && IsSuccess(exchange.response.status)
              && exchange.response.authorization != []
    ensures st.result.Ok? ==>
              st.result.value == exchange.response.status
              && st.store == s[TokenKey := TextOrEmpty(exchange.response.authorization[0])]
  {
    match Lookup(s, RequesterTokenKey)
    case Err(_) => Step(Err(FromErrorType(InvalidToken)), s, [])
    case Ok(requester) =>
      var sent := [ExchangeRequest(requester)];
      match exchange
      case TransportFailure => Step(Err(Default()), s, sent)
      case Received(response) =>
        if !IsSuccess(response.status) then Step(Err(FromResponse(response)), s, sent)
        else if response.authorization == [] then Step(Err(FromErrorType(TokenCreation)), s, sent)
        else
          var headerStr := TextOrEmpty(response.authorization[0]);
          Step(Ok(response.status), Stored(s, TokenKey, AuthToken.FromString(headerStr).ToString()), sent)
  }

  /**
   * `refresh_token`: the exchange, then the access slot read back. The read
   * back cannot fail after a successful exchange, so the refresh fails exactly
   * when the exchange does, with the same error; on success the new working
   * token is the one now stored.
   */
  function RefreshStep(s: Store, exchange: Outcome): (st: Step<AuthToken>)
    ensures st.store == RequestAuthTokenStep(s, exchange).store
    ensures st.sent == RequestAuthTokenStep(s, exchange).sent
    ensures st.result.Err? <==> RequestAuthTokenStep(s, exchange).result.Err?
    ensures st.result.Err? ==> st.result.error == RequestAuthTokenStep(s, exchange).result.error
    ensures st.result.Ok? ==> Lookup(st.store, TokenKey) == Ok(st.result.value)
    ensures st.result.Ok? ==>
              exchange.Received? && exchange.response.authorization != []
              && st.result.value.ToString() == TextOrEmpty(exchange.response.authorization[0])
  {
    var requested := RequestAuthTokenStep(s, exchange);
    match requested.result
    case Err(e) => Step(Err(e), requested.store, requested.sent)
    case Ok(_) =>
      match Lookup(requested.store, TokenKey)
      case Err(_) => Step(Err(FromErrorType(InvalidToken)), requested.store, requested.sent)
      case Ok(token) => Step(Ok(token), requested.store, requested.sent)
  }

  /**
   * `send`: refresh, then the caller's request with the new access token.
   * The caller's request goes out only after a successful refresh, as the
   * last request, and its new bearer credential is the access token just
   * stored. A refresh error comes back unchanged; a transport failure of
   * the caller's request is `BadRequest`; a response comes back as it is.
   * Storage changes only through the refresh.
   */
  function SendStep(s: Store, builder: Request, exchange: Outcome, reply: Outcome): (st: Step<Response>)
    ensures st.store == RequestAuthTokenStep(s, exchange).store
    ensures RefreshStep(s, exchange).result.Err? ==>
              st.result == Err(RefreshStep(s, exchange).result.error)
              && st.sent == RequestAuthTokenStep(s, exchange).sent
    ensures RefreshStep(s, exchange).result.Ok? ==>
              TokenKey in st.store
              && st.sent == RequestAuthTokenStep(s, exchange).sent + [WithBearer(builder, st.store[TokenKey])]
    ensures RefreshStep(s, exchange).result.Ok? && reply.TransportFailure? ==>
              st.result == Err(FromErrorType(BadRequest))
    ensures RefreshStep(s, exchange).result.Ok? && reply.Received? ==>
              st.result == Ok(reply.response)
  {
    var refreshed := RefreshStep(s, exchange);
    match refreshed.result
    case Err(e) => Step(Err(e), refreshed.store, refreshed.sent)
    case Ok(token) =>
      var sent := refreshed.sent + [WithBearer(builder, token.ToString())];
      match reply
      case TransportFailure => Step(Err(FromErrorType(BadRequest)), refreshed.store, sent)
      case Received(response) => Step(Ok(response), refreshed.store, sent)
  }

  /**
   * A send succeeds only when a requester token was stored and the exchange
   * returned a success status with an `authorization` value; the caller's
   * request then carries that value's text as its bearer credential.
   */
  lemma SendSucceedsOnlyAfterExchange(s: Store, builder: Request, exchange: Outcome, reply: Outcome)
    requires SendStep(s, builder, exchange, reply).result.Ok?
    ensures RequesterTokenKey in s && exchange.Received? && IsSuccess(exchange.response.status)
    ensures exchange.response.authorization != []
    ensures var st := SendStep(s, builder, exchange, reply);
            |st.sent| == 2 && st.sent[0].bearers == [s[RequesterTokenKey]]
            && st.sent[1] == WithBearer(builder, TextOrEmpty(exchange.response.authorization[0]))
            && reply == Received(st.result.value)
  {
  }

  class AuthRequest {
    var token: AuthToken
    const builder: Request
    const storage: AuthStorage

    /** `AuthRequest::new`: never fails; falls back to the default token. */
    constructor (builder: Request, storage: AuthStorage)
      ensures this.builder == builder && this.storage == storage
      ensures token == InitialToken(storage.slots)
    {
      this.builder := builder;
      this.storage := storage;
      var stored := storage.GetAuthToken();
      if stored.Err? {
        stored := Ok(AuthToken.Default());
      }
      token := stored.value;
    }

    /** `request_auth_token`. */
    static method RequestAuthToken(storage: AuthStorage, exchange: Outcome)
      returns (r: Result<StatusCode, AuthError>, sent: seq<Request>)
      modifies storage
      ensures var st := RequestAuthTokenStep(old(storage.slots), exchange);
              r == st.result && storage.slots == st.store && sent == st.sent
    {
      var requester := storage.GetRequesterToken();
      if requester.Err? {
        return Err(FromErrorType(InvalidToken)), [];
      }
      sent := [ExchangeRequest(requester.value)];
      if exchange.TransportFailure? {
        return Err(Default()), sent;
      }
      var response := exchange.response;
      if !IsSuccess(response.status) {
        return Err(FromResponse(response)), sent;
      }
      if response.authorization == [] {
        return Err(FromErrorType(TokenCreation)), sent;
      }
      var headerStr := TextOrEmpty(response.authorization[0]);
      storage.StoreAuthToken(AuthToken.FromString(headerStr));
      r := Ok(response.status);
    }

    /** `refresh_token`: on success the working token is the access token just stored. */
    method RefreshToken(exchange: Outcome) returns (r: Result<(), AuthError>, sent: seq<Request>)
      modifies this, storage
      ensures var st := RefreshStep(old(storage.slots), exchange);
              storage.slots == st.store && sent == st.sent
              && (r.Ok? <==> st.result.Ok?)
              && (r.Err? ==> r.error == st.result.error)
              && token == (if st.result.Ok? then st.result.value else old(token))
    {
      var requested;
      requested, sent := RequestAuthToken(storage, exchange);
      if requested.Err? {
        return Err(requested.error), sent;
      }
      var stored := storage.GetAuthToken();
      if stored.Err? {
        return Err(FromErrorType(InvalidToken)), sent;
      }
      token := stored.value;
      r := Ok(());
    }

    /** `send`: the caller's request goes out with the refreshed working token. */
    method Send(exchange: Outcome, reply: Outcome) returns (r: Result<Response, AuthError>, sent: seq<Request>)
      modifies this, storage
      ensures var st := SendStep(old(storage.slots), builder, exchange, reply);
              r == st.result && storage.slots == st.store && sent == st.sent
      ensures var rf := RefreshStep(old(storage.slots), exchange);
              token == (if rf.result.Ok? then rf.result.value else old(token))
      ensures r.Ok? ==> Last(sent) == WithBearer(builder, token.ToString())
    {
      var refreshed;
      refreshed, sent := RefreshToken(exchange);
      if refreshed.Err? {
        return Err(refreshed.error), sent;
      }
      sent := sent + [WithBearer(builder, token.ToString())];
      match reply {
        case TransportFailure =>
          r := Err(FromErrorType(BadRequest));
        case Received(response) =>
          r := Ok(response);
      }
    }
  }
}
