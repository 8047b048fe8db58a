# Token lifecycle of the frontend client

This project models the token-lifecycle core of a browser client written in Rust. The client keeps two
credentials in local storage:
- `AUTH_REQUESTER_TOKEN` is a long-lived requester token, written when register or login succeeds.
- `AUTH_TOKEN` is a short-lived access token.

Every authenticated send first refreshes the access token. It exchanges the requester token at `/auth/request`,
stores the `authorization` value of the answer as the access token, reads it back as the working token, and only
then sends the caller's request with that token as its bearer credential. The public auth operations are
register, login, reset, request-reset, logout and test-route:
- Register and login send their request, branch on the status and, on success, write the requester slot from the
  response's `authorization` values.
- Reset and request-reset send their request and clear both slots only on a success status.
- Logout sends nothing and only clears both slots.
- Test-route sends through the request wrapper and changes storage only through its refresh.

How the model is built:
- Local storage is a `map<string, string>`. It is the field `slots` of the class `TokenStorage.AuthStorage`.
- Every HTTP exchange is a scripted `Http.Outcome` parameter, either a transport failure or a response. What the
  response body decodes to (an error body, user information, text) is part of that script. Nothing is sent.
- Every operation also returns the requests it issued, in order (`sent`). That makes "no request is issued" and
  "the bearer credential is the stored token" statements about values.
- `async` becomes plain sequencing.
- The pure functions `RequestAuthTokenStep`, `RefreshStep` and `SendStep` carry the properties in their `ensures`
  clauses. The methods of `AuthRequests.AuthRequest` are proved to follow them. The auth operations in `Auth`
  are methods over `AuthStorage` that state their results and their new storage directly.

Modules, leaves first:
- `Wrappers`: Option/Result.
- `Types`: the token newtype, the error kinds, the error body and user information from the shared `types`
  crate.
- `Http`: header values and `to_str`, status codes, requests and responses.
- `Errors`: `AuthError` and its constructors.
- `TokenStorage`: `AuthStorage`.
- `AuthRequests`: `AuthRequest`.
- `Auth`: the operations of `services/auth.rs`.
- `Scenarios`: how the operations compose.

Points where the code's behaviour is easy to misread:
- A transport failure of the refresh exchange gives the default error, not a separate kind
  (crates/frontend/src/services/mod.rs:61-64).
- `reset_user` and `request_reset` clear storage only after a success status. On any other answer storage is
  left as it was (crates/frontend/src/services/auth.rs:117-122, 138-143).
- A storage read fails only when the key is absent (mod.rs:136-143); `AuthRequest::new` turns that failure into
  the default token (mod.rs:40-42).
- During refresh, an `authorization` value that is not text is stored as `""` (mod.rs:84).
  `store_from_headers` panics on such a value (mod.rs:132); the model states that as a precondition.

## Model

| member | source | states |
|---|---|---|
| `Http.DecodeVisible` | crates/frontend/src/services/mod.rs:128 | header bytes read as text exactly when every byte is tab or visible ASCII, and then character for character |
| `Http.HeaderValue.ToStr` | crates/frontend/src/services/mod.rs:84 | a header value is text exactly when all its bytes are visible ASCII |
| `Http.TextOrEmpty` | crates/frontend/src/services/mod.rs:84 | the header's text when it is text, otherwise the empty string |
| `Http.WithBearer` | crates/frontend/src/services/mod.rs:109 | attaching a bearer credential appends exactly that credential and leaves verb, path and body alone |
| `Types.ToStringRoundTrip` | crates/frontend/src/services/mod.rs:155 | the stored text of a token builds that same token back |
| `Types.AuthToken.FromString` | crates/frontend/src/services/mod.rs:139 | a token built from a text gives that text back |
| `Types.AuthToken.Default` | crates/frontend/src/services/mod.rs:41 | the default token is the empty text |
| `Errors.AuthError.Body` | crates/frontend/src/services/mod.rs:186-188 | an error carries a server error body exactly when it was built from a parsed server response |
| `Errors.Default` | crates/frontend/src/services/mod.rs:189-193 | the default error carries no server body |
| `Errors.FromErrorType` | crates/frontend/src/services/mod.rs:181-185 | an error built from a kind carries that kind and no server body |
| `Errors.FromResponse` | crates/frontend/src/services/mod.rs:166-180 | the body is the parsed error body unchanged, with the response's status; a body that does not parse gives the default error |
| `TokenStorage.Lookup` | crates/frontend/src/services/mod.rs:136-143 | reading succeeds exactly when the key is present and gives the stored text as a token; otherwise it names the missing key |
| `TokenStorage.Stored` | crates/frontend/src/services/mod.rs:123-125 | after storing a key, reading it gives the stored token and every other key reads as before |
| `TokenStorage.Cleared` | crates/frontend/src/services/mod.rs:144-147 | clearing removes both slots and no other key |
| `TokenStorage.ClearedIdempotent` | crates/frontend/src/services/mod.rs:144-147 | clearing twice is clearing once |
| `TokenStorage.StoredFromHeaders` | crates/frontend/src/services/mod.rs:126-135 | the requester slot ends at the last `authorization` value; with none, storage is unchanged; no other key, the access slot included, is touched |
| `TokenStorage.AuthStorage.Store` | crates/frontend/src/services/mod.rs:123-125 | the stored map becomes `Stored` of the old one |
| `TokenStorage.AuthStorage.StoreFromHeaders` | crates/frontend/src/services/mod.rs:126-135 | the loop over header values leaves the map at `StoredFromHeaders` of the old one |
| `TokenStorage.AuthStorage.Get` | crates/frontend/src/services/mod.rs:136-143 | reading a key gives `Lookup` of the current map |
| `TokenStorage.AuthStorage.Clear` | crates/frontend/src/services/mod.rs:144-147 | the map becomes `Cleared` of the old one |
| `TokenStorage.AuthStorage.GetRequesterToken` | crates/frontend/src/services/mod.rs:148-150 | reads the requester slot |
| `TokenStorage.AuthStorage.GetAuthToken` | crates/frontend/src/services/mod.rs:151-153 | reads the access slot |
| `TokenStorage.AuthStorage.StoreRequesterToken` | crates/frontend/src/services/mod.rs:154-156 | writes the token's text to the requester slot only |
| `TokenStorage.AuthStorage.StoreAuthToken` | crates/frontend/src/services/mod.rs:157-159 | writes the token's text to the access slot only |
| `AuthRequests.ExchangeRequest` | crates/frontend/src/services/mod.rs:57-59 | the exchange is a GET of `/auth/request` whose only bearer credential is the requester token |
| `AuthRequests.InitialToken` | crates/frontend/src/services/mod.rs:38-47 | the working token is the stored access token, or the default token when the slot cannot be read |
| `AuthRequests.RequestAuthTokenStep` | crates/frontend/src/services/mod.rs:48-89 | no requester token: `InvalidToken`, nothing sent, storage unchanged; every failure leaves storage unchanged, and the failures are a transport failure (default error), a non-success status (`from_response`) and a success without `authorization` (`TokenCreation`); success exactly with a requester token, a success status and an `authorization` value, and then only the access slot changes, to that value's text or `""` |
| `AuthRequests.RefreshStep` | crates/frontend/src/services/mod.rs:91-102 | fails exactly when the exchange fails, with the exchange's error; on success the new working token is the stored access token, the text of the first `authorization` value |
| `AuthRequests.SendStep` | crates/frontend/src/services/mod.rs:103-115 | storage changes only through the refresh; a refresh error comes back unchanged and the caller's request is not sent; otherwise the caller's request is sent last, bearing the freshly stored access token; its transport failure gives `BadRequest`, its response comes back as it is |
| `AuthRequests.SendSucceedsOnlyAfterExchange` | crates/frontend/src/services/mod.rs:103-115 | a successful send means a requester token was presented and a success with an `authorization` value came back; exactly two requests went out, the second bearing that value's text |
| `AuthRequests.AuthRequest.constructor` | crates/frontend/src/services/mod.rs:38-47 | construction never fails; the working token is `InitialToken` of storage |
| `AuthRequests.AuthRequest.RequestAuthToken` | crates/frontend/src/services/mod.rs:48-89 | result, new storage and requests sent are those of `RequestAuthTokenStep` |
| `AuthRequests.AuthRequest.RefreshToken` | crates/frontend/src/services/mod.rs:91-102 | follows `RefreshStep`; the field `token` is updated only on success, to the refreshed token |
| `AuthRequests.AuthRequest.Send` | crates/frontend/src/services/mod.rs:103-115 | follows `SendStep`; on success the caller's request bears exactly the new `token` |
| `Auth.TestRequest` | crates/frontend/src/services/auth.rs:9-11 | the wrapped request is a GET of `/auth/test` with no credentials yet |
| `Auth.TestAuthRoute` | crates/frontend/src/services/auth.rs:8-35 | every send error becomes the default error; a non-success status goes through `from_response`; `Ok(status)` exactly for a success with a text body; storage changes only through the refresh |
| `Auth.RegisterUser` | crates/frontend/src/services/auth.rs:37-71 | a transport failure (default error) and a non-success status (`from_response`) leave storage unchanged; on success the requester slot is written from the headers before the body is decoded, so a decoding failure still keeps it; the access slot is never touched |
| `Auth.LoginUser` | crates/frontend/src/services/auth.rs:73-103 | as `RegisterUser`, against `/auth/login` |
| `Auth.ResetUser` | crates/frontend/src/services/auth.rs:105-124 | clears both slots and returns the status exactly on a success status; otherwise storage is unchanged and the error is classified |
| `Auth.RequestReset` | crates/frontend/src/services/auth.rs:126-145 | as `ResetUser`, posting the raw email to `/auth/reset` |
| `Auth.LogoutUser` | crates/frontend/src/services/auth.rs:147-150 | clears both slots and takes no exchange, so it sends nothing |
| `Scenarios.RefreshUsesLastStoredRequesterToken` | crates/frontend/src/services/mod.rs:50-59 | after the requester slot is written from headers, the next exchange presents the last header's text |
| `Scenarios.SendAfterClearFailsLocally` | crates/frontend/src/services/mod.rs:50-53 | after clearing, a send fails with `InvalidToken`, sends nothing and changes nothing |
| `Scenarios.RefreshAfterLogin` | crates/frontend/src/services/mod.rs:83-88 | in a session holding only a requester token, a success bearing a text `authorization` value stores and returns that text, adding just the access slot |
| `Scenarios.TestAfterLogin` | crates/frontend/src/services/auth.rs:8-11 | the test request of that session then goes out bearing the new access token, and its response comes back unchanged |
| `Scenarios.TestAuthRouteAfterLogin` | crates/frontend/src/services/auth.rs:8-35 | with `rtok-abc` stored and an exchange answering `atok-xyz`, the test route sends two requests with those bearers, stores `atok-xyz` and returns `Ok(200)` |
| `Scenarios.LoginStoresRequesterToken` | crates/frontend/src/services/auth.rs:91-92 | a login answered with `authorization: rtok-abc` stores that requester token |
| `Scenarios.LoginThenTestAuthRoute` | crates/frontend/src/services/auth.rs:8-35 | login, then the test route: three requests with the expected bearers, both slots set, result `Ok(200)` |

## Left out

- Process-wide HTTP client and base URL (crates/frontend/src/services/mod.rs:13-30): configuration. Requests carry their path only.
- `gloo_console` logging: it has no effect on state or results.
- `try_clone().unwrap()` on the caller's request (mod.rs:108): the request is a value and can always be copied, so the panic for a streaming body is not modelled.
- `LocalStorage::set(...).unwrap()` (mod.rs:124): storage writes always succeed.
- gloo stores values as JSON and parses them on `get`. This model keeps the text itself, so a read fails only when the key is absent. A slot holding a value that does not parse, written by other code, is not modelled.
- JSON and text decoding of response bodies are scripted `Option` fields of `Http.Response`. JSON encoding of `RegisterUser`, `LoginUser` and `ResetUser` is not modelled either: the operations take the encoded text.
- Response headers other than `authorization` are not modelled.
- `bearer_auth` with a credential that is not a valid header value makes the later send fail. That case is covered by the scripted transport failure.
- The conversion between the two `http` crates' status codes (mod.rs:176) is the identity on valid codes.
- `Errors.AuthError.Body`: the status and body that the shared `types` crate gives the default error and kind errors are not part of this model. Here only a parsed server error has a body. The model keeps `DefaultError` and `KindError` distinct, and no property depends on that.
- `Types.AuthErrorType` lists only the kinds the core raises.
- RegisterUser, LoginUser: the panic of `store_from_headers` on an `authorization` value that is not text (mod.rs:132) is a precondition on the scripted success response.
- Concurrent sends and interleavings of `async` calls: each operation runs to completion before the next starts.
- crates/frontend/src/services/user.rs, the Yew components under crates/frontend/src/components/auth/ and crates/server/src/pool.rs are not part of this model: they are call sites, UI, and database configuration.
