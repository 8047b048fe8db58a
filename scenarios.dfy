/**
 * How the operations compose: a session established by login feeds the
 * next refresh, and after logout every authenticated send fails locally.
 */
module Scenarios {
  import opened Wrappers
  import opened Types
  import opened Http
  import opened Errors
  import opened TokenStorage
  import opened AuthRequests
  import opened Auth

  /** After the requester slot is written from headers, the next exchange presents the last of them. */
  lemma RefreshUsesLastStoredRequesterToken(s: Store, headers: seq<HeaderValue>, exchange: Outcome)
    requires AllText(headers) && headers != []
    ensures RequestAuthTokenStep(StoredFromHeaders(s, headers), exchange).sent
            == [Request(Get, RequestPath, NoBody, [Last(headers).ToStr().value])]
  {
  }

  /** With both slots cleared, a send fails with `InvalidToken`, issues nothing and changes nothing. */
  lemma SendAfterClearFailsLocally(s: Store, builder: Request, exchange: Outcome, reply: Outcome)
    ensures SendStep(Cleared(s), builder, exchange, reply)
            == Step(Err(FromErrorType(InvalidToken)), Cleared(s), [])
  {
  }

  /** A refresh from a session holding only `rtok`, answered by a success bearing `header`, stores its text. */
  lemma RefreshAfterLogin(rtok: string, header: HeaderValue)
    requires header.ToStr().Some?
    ensures RefreshStep(map[RequesterTokenKey := rtok], Received(Response(200, [header], None, None, None)))
            == Step(Ok(AuthToken(header.ToStr().value)),
                    map[RequesterTokenKey := rtok, TokenKey := header.ToStr().value],
                    [Request(Get, RequestPath, NoBody, [rtok])])
  {
  }

  /** The test request of that session then goes out bearing the new access token, and its response comes back. */
  lemma TestAfterLogin(rtok: string, header: HeaderValue, testReply: Response)
    requires header.ToStr().Some?
    ensures SendStep(map[RequesterTokenKey := rtok], TestRequest(),
                     Received(Response(200, [header], None, None, None)), Received(testReply))
            == Step(Ok(testReply), map[RequesterTokenKey := rtok, TokenKey := header.ToStr().value],
                    [Request(Get, RequestPath, NoBody, [rtok]),
                     Request(Get, "/auth/test", NoBody, [header.ToStr().value])])
  {
    RefreshAfterLogin(rtok, header);
    assert WithBearer(TestRequest(), header.ToStr().value) == Request(Get, "/auth/test", NoBody, [header.ToStr().value]);
  }

  /** Login answered with 200 and `authorization: rtok-abc` stores that requester token. */
  method LoginStoresRequesterToken(storage: AuthStorage) returns (user: Result<UserInfo, AuthError>, sent: seq<Request>)
    requires storage.slots == map[]
    modifies storage
    ensures user == Ok(UserInfo("u1", false))
    ensures sent == [Request(Post, "/auth/login", Json("{}"), [])]
    ensures storage.slots == map[RequesterTokenKey := "rtok-abc"]
  {
    var loginReply := Response(200, [FromText("rtok-abc")], None, Some(UserInfo("u1", false)), None);
    user, sent := LoginUser(storage, "{}", Received(loginReply));
    assert Last(loginReply.authorization).ToStr().value == "rtok-abc";
  }

  /** The test route in a session holding `rtok-abc`: the refresh stores `atok-xyz`, the test request bears it. */
  method TestAuthRouteAfterLogin(storage: AuthStorage) returns (r: Result<StatusCode, AuthError>, sent: seq<Request>)
    requires storage.slots == map[RequesterTokenKey := "rtok-abc"]
    modifies storage
    ensures r == Ok(200)
    ensures sent == [Request(Get, "/auth/request", NoBody, ["rtok-abc"]),
                     Request(Get, "/auth/test", NoBody, ["atok-xyz"])]
    ensures storage.slots == map[RequesterTokenKey := "rtok-abc", TokenKey := "atok-xyz"]
  {
    var header := FromText("atok-xyz");
    var exchange := Response(200, [header], None, None, None);
    var testReply := Response(200, [], None, None, Some("ok"));
    TestAfterLogin("rtok-abc", header, testReply);
    r, sent := TestAuthRoute(storage, Received(exchange), Received(testReply));
  }

  /**
   * Login returns requester token `rtok-abc`; the test route's refresh
   * presents it and receives access token `atok-xyz`; the test request
   * carries that token and the route answers 200.
   */
  method LoginThenTestAuthRoute() returns (r: Result<StatusCode, AuthError>, sent: seq<Request>, slots: Store)
    ensures r == Ok(200)
    ensures sent == [Request(Post, "/auth/login", Json("{}"), []),
                     Request(Get, "/auth/request", NoBody, ["rtok-abc"]),
                     Request(Get, "/auth/test", NoBody, ["atok-xyz"])]
    ensures slots == map[RequesterTokenKey := "rtok-abc", TokenKey := "atok-xyz"]
  {
    var storage := new AuthStorage(map[]);
    var user, loginSent := LoginStoresRequesterToken(storage);
    var testSent;
    r, testSent := TestAuthRouteAfterLogin(storage);
    sent := loginSent + testSent;
    slots := storage.slots;
  }
}
