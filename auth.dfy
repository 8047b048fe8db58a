/**
 * The public auth operations of the frontend: test the auth route,
 * register, log in, reset the password, request a reset, log out. Each
 * takes the scripted outcome of its HTTP exchange(s), returns what it
 * returns plus the requests it issued, and changes only the local storage.
 */
module Auth {
  import opened Wrappers
  import opened Types
  import opened Http
  import opened Errors
  import opened TokenStorage
  import opened AuthRequests

  /** The request `test_auth_route` wraps: a GET of `/auth/test`, no credentials yet. */
  function TestRequest(): (r: Request)
    ensures r.verb == Get && r.path == "/auth/test" && r.bearers == []
  {
    Request(Get, "/auth/test", NoBody, [])
  }

  /**
   * `test_auth_route`: an authenticated GET of `/auth/test`. Any error of
   * the send becomes the default error; a non-success status is classified
   * from the response; `Ok(status)` only for a success status whose body
   * reads as text. Storage changes only through the send's refresh.
   */
  method TestAuthRoute(storage: AuthStorage, exchange: Outcome, reply: Outcome)
    returns (r: Result<StatusCode, AuthError>, sent: seq<Request>)
    modifies storage
    ensures var st := SendStep(old(storage.slots), TestRequest(), exchange, reply);
            storage.slots == st.store && sent == st.sent
            && (st.result.Err? ==> r == Err(Default()))
            && (st.result.Ok? && !IsSuccess(st.result.value.status) ==>
                  r == Err(FromResponse(st.result.value)))
            && (st.result.Ok? && IsSuccess(st.result.value.status) ==>
                  r == if st.result.value.text.Some? then Ok(st.result.value.status) else Err(Default()))
    ensures r.Ok? <==>
              SendStep(old(storage.slots), TestRequest(), exchange, reply).result.Ok?
              && IsSuccess(reply.response.status) && reply.response.text.Some?
    ensures r.Ok? ==> r.value == reply.response.status
  {
    var request := new AuthRequest(TestRequest(), storage);
    var sendResult;
    sendResult, sent := request.Send(exchange, reply);
    if sendResult.Err? {
      return Err(Default()), sent;
    }
    var response := sendResult.value;
    if !IsSuccess(response.status) {
      return Err(FromResponse(response)), sent;
    }
    if response.text.None? {
      r := Err(Default());
    } else {
      r := Ok(response.status);
    }
  }

  /**
   * `register_user`: POST the user's JSON to `/auth/register`. A transport
   * failure gives the default error and a non-success status is classified;
   * both leave storage as it was. On success the requester token(s) from the
   * `authorization` values are stored first, so a body that does not decode
   * as user information still leaves them stored and gives the default error.
   * The access slot is never touched.
   */
  method RegisterUser(storage: AuthStorage, userJson: string, reply: Outcome)
    returns (r: Result<UserInfo, AuthError>, sent: seq<Request>)
    requires reply.Received? && IsSuccess(reply.response.status) ==> AllText(reply.response.authorization)
    modifies storage
    ensures sent == [Request(Post, "/auth/register", Json(userJson), [])]
    ensures reply.TransportFailure? ==> r == Err(Default()) && storage.slots == old(storage.slots)
    ensures reply.Received? && !IsSuccess(reply.response.status) ==>
              r == Err(FromResponse(reply.response)) && storage.slots == old(storage.slots)
    ensures reply.Received? && IsSuccess(reply.response.status) ==>
              storage.slots == StoredFromHeaders(old(storage.slots), reply.response.authorization)
              && r == match reply.response.userInfo
                      case Some(info) => Ok(info)
                      case None => Err(Default())
    ensures Lookup(storage.slots, TokenKey) == Lookup(old(storage.slots), TokenKey)
  {
    sent := [Request(Post, "/auth/register", Json(userJson), [])];
    if reply.TransportFailure? {
      return Err(Default()), sent;
    }
    var response := reply.response;
    if !IsSuccess(response.status) {
      return Err(FromResponse(response)), sent;
    }
    storage.StoreFromHeaders(response.authorization);
    if response.userInfo.None? {
      return Err(Default()), sent;
    }
    r := Ok(response.userInfo.value);
  }

  /** `login_user`: as `register_user`, against `/auth/login`. */
  method LoginUser(storage: AuthStorage, userJson: string, reply: Outcome)
    returns (r: Result<UserInfo, AuthError>, sent: seq<Request>)
    requires reply.Received? && IsSuccess(reply.response.status) ==> AllText(reply.response.authorization)
    modifies storage
    ensures sent == [Request(Post, "/auth/login", Json(userJson), [])]
    ensures reply.TransportFailure? ==> r == Err(Default()) && storage.slots == old(storage.slots)
    ensures reply.Received? && !IsSuccess(reply.response.status) ==>
              r == Err(FromResponse(reply.response)) && storage.slots == old(storage.slots)
    ensures reply.Received? && IsSuccess(reply.response.status) ==>
              storage.slots == StoredFromHeaders(old(storage.slots), reply.response.authorization)
              && r == match reply.response.userInfo
                      case Some(info) => Ok(info)
                      case None => Err(Default())
    ensures Lookup(storage.slots, TokenKey) == Lookup(old(storage.slots), TokenKey)
  {
    sent := [Request(Post, "/auth/login", Json(userJson), [])];
    if reply.TransportFailure? {
      return Err(Default()), sent;
    }
    var response := reply.response;
    if !IsSuccess(response.status) {
      return Err(FromResponse(response)), sent;
    }
    storage.StoreFromHeaders(response.authorization);
    if response.userInfo.None? {
      return Err(Default()), sent;
    }
    r := Ok(response.userInfo.value);
  }

  /**
   * `reset_user`: POST the user's JSON to `/auth/reset/{key}`. Both token
   * slots are cleared exactly when the status is a success, and then the
   * status is returned; otherwise storage is as it was.
   */
  method ResetUser(storage: AuthStorage, userJson: string, key: string, reply: Outcome)
    returns (r: Result<StatusCode, AuthError>, sent: seq<Request>)
    modifies storage
    ensures sent == [Request(Post, "/auth/reset/" + key, Json(userJson), [])]
    ensures reply.TransportFailure? ==> r == Err(Default())
    ensures reply.Received? && !IsSuccess(reply.response.status) ==> r == Err(FromResponse(reply.response))
    ensures r.Ok? <==> reply.Received? && IsSuccess(reply.response.status)
    ensures r.Ok? ==> r.value == reply.response.status && storage.slots == Cleared(old(storage.slots))
    ensures r.Err? ==> storage.slots == old(storage.slots)
  {
    sent := [Request(Post, "/auth/reset/" + key, Json(userJson), [])];
    if reply.TransportFailure? {
      return Err(Default()), sent;
    }
    var response := reply.response;
    if !IsSuccess(response.status) {
      return Err(FromResponse(response)), sent;
    }
    storage.Clear();
    r := Ok(response.status);
  }

  /** `request_reset`: as `reset_user`, posting the raw email to `/auth/reset`. */
  method RequestReset(storage: AuthStorage, email: string, reply: Outcome)
    returns (r: Result<StatusCode, AuthError>, sent: seq<Request>)
    modifies storage
    ensures sent == [Request(Post, "/auth/reset", Text(email), [])]
    ensures reply.TransportFailure? ==> r == Err(Default())
    ensures reply.Received? && !IsSuccess(reply.response.status) ==> r == Err(FromResponse(reply.response))
    ensures r.Ok? <==> reply.Received? && IsSuccess(reply.response.status)
    ensures r.Ok? ==> r.value == reply.response.status && storage.slots == Cleared(old(storage.slots))
    ensures r.Err? ==> storage.slots == old(storage.slots)
  {
    sent := [Request(Post, "/auth/reset", Text(email), [])];
    if reply.TransportFailure? {
      return Err(Default()), sent;
    }
    var response := reply.response;
    if !IsSuccess(response.status) {
      return Err(FromResponse(response)), sent;
    }
    storage.Clear();
    r := Ok(response.status);
  }

  /** `logout_user`: clears both slots; it takes no outcome because it sends nothing. */
  method LogoutUser(storage: AuthStorage)
    modifies storage
    ensures storage.slots == Cleared(old(storage.slots))
  {
    storage.Clear();
  }
}
