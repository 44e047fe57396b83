# Mizu wallet client: session and request model

This project models the core client class `Mizu` of the MizuWallet SDK
(`packages/core/src/lib/client.ts`). The class keeps a session and builds
GraphQL requests for a custodial-wallet backend, with the network call
abstracted away. The model has three parts:

- **Session state.** The six fields are `appId`, `network`, `graphqlEndPoint`,
  `userId`, `jwtToken` and `initialized`. Class `Client.Mizu` holds them and
  updates them in place in its constructor, `UpdateNetwork`, `LoginInTG` and
  `Logout`. Each of those methods is specified by a pure transition over the
  `Sessions.Session` value that `State()` returns: `Construct`,
  `AfterUpdateNetwork`, `AfterLogin` and `AfterLogout`.
- **Fail-fast guards.** `CheckInitialized` and `CheckJWTToken` are composed
  into `RequireSession`. Every authenticated operation passes that prologue
  before it issues anything.
- **Requests and results.** Each operation returns the `Wire.Request` it
  would hand to the executor: endpoint, document, variables and headers.
  Otherwise it returns the error it throws first (`Requests.*`, reachable
  through `Calls.Build` and `Mizu.Issue`). The client's reading of the answers
  is modelled as pure functions over response datatypes (`Responses.*`). These
  cover `telegramUser.length > 0`, the first sub-wallet's address, and the
  decoded order page with its `{}` fallback.
  `Mizu.IsUserExistByTgID` and `Mizu.Issue` only read `State()` and return
  the request of the corresponding `Requests`/`Calls` function; what those
  requests promise is proved about the functions.

Things outside the client are parameters:
- The executor's answer to the login mutation.
- `decodeJWT`, as `string -> Option<(string, string)>`.
- `btoa(JSON.stringify(·))`, as `Json -> Option<string>`. It is partial
  because `btoa` throws on characters outside Latin-1.
- `JSON.parse(atob(·))`, as `string -> Option<Json>`.
- `Date.now()`, as an integer count of milliseconds.

Amounts and counts are `real` and are floored with `.Floor`. Enumeration
members go over the wire as their numeric codes (`Enums`).

A few behaviours of client.ts are easy to misread; the model follows the code:
- `confirmOrder` does not check that the order id is non-empty.
- `createMultipleTransfer` sends a count that floors to zero or below
  unchanged.
- `fetchOrderList` computes its `status` filter (default `[SUCCESS]`) but
  never sends it (`Calls.StatusIsNotSent`).
- `loginInTG` has no expiry check of its own. Any decode failure inside
  `decodeJWT` is treated as a logout.
- `fetchTransfer` requires a token but sends only the `x-hasura-trans-id`
  header, without `Authorization`.

## Model

| member | source | states |
|---|---|---|
| Sessions.GraphqlUrl | packages/core/src/lib/client.ts:20-23 | each network's endpoint is non-empty (testnet and mainnet URLs as written) |
| Sessions.GraphqlUrlsDistinct | packages/core/src/lib/client.ts:20-23 | the two networks have different endpoints, so the endpoint determines the network |
| Sessions.Construct | packages/core/src/lib/client.ts:58-68 | empty appId fails with AppIdRequired before the network is looked at; unset network fails with NetworkRequired; success exactly when both are present, giving a valid session (initialized, endpoint = GRAPHQL_URL[network]) with the given appId and network and an empty userId/jwtToken pair |
| Sessions.CheckInitialized | packages/core/src/lib/client.ts:73-75 | passes exactly when initialized, otherwise fails with NotInitialized |
| Sessions.CheckJWTToken | packages/core/src/lib/client.ts:80-82 | passes exactly when the token is non-empty, otherwise fails with JwtTokenNotFound |
| Sessions.RequireSession | packages/core/src/lib/client.ts:155-157 | passes exactly when initialized and holding a token; an uninitialized client reports NotInitialized first, an initialized one without token JwtTokenNotFound |
| Sessions.AfterLogout | packages/core/src/lib/client.ts:176-179 | with no guard, empties userId and jwtToken and keeps appId, network, endpoint and initialized |
| Sessions.AfterUpdateNetwork | packages/core/src/lib/client.ts:88-92 | fails with NotInitialized exactly when not initialized; otherwise sets the network and GRAPHQL_URL[network] as endpoint and keeps appId, userId, jwtToken and initialized |
| Sessions.AfterLogin | packages/core/src/lib/client.ts:107-126 | not initialized: NotInitialized; failed request: that error, session unchanged; decoded pair: userId and jwtToken set together from it; decode failure: exactly the logged-out session |
| Sessions.LogoutIdempotent | packages/core/src/lib/client.ts:176-179 | a second logout changes nothing |
| Sessions.FailedDecodeIsLogout | packages/core/src/lib/client.ts:119-125 | an undecodable token yields the same session as logout, also when already logged out |
| Sessions.LoginKeepsConfiguration | packages/core/src/lib/client.ts:107-126 | a login changes at most userId and jwtToken |
| Sessions.TransitionsKeepValid | packages/core/src/lib/client.ts:43-68 | logout, updateNetwork and a successful login keep a constructed session valid, so initialized is never reset and updateNetwork never fails on it |
| Requests.ExpirationAt | packages/core/src/lib/client.ts:317 | the result minus 86400 is the whole second that the millisecond clock reading falls in |
| Requests.LoginInTG | packages/core/src/lib/client.ts:107-117 | only checkInitialized guards it; the login mutation goes to the session endpoint with exactly appId and initData and no headers |
| Requests.IsUserExistByTgID | packages/core/src/lib/client.ts:134-145 | NotInitialized first, then TgIdRequired for an empty id, no token needed; the request has empty variables and exactly the x-hasura-tg-id header carrying the id |
| Requests.GetUserWalletAddress | packages/core/src/lib/client.ts:155-168 | fails exactly when the session prologue fails, with its error; otherwise bearer request of the wallet query with exactly id = userId |
| Requests.CreateOrder | packages/core/src/lib/client.ts:192-206 | prologue error first, then PayloadNotEncodable when the encoder throws; success exactly when both pass, a bearer request with exactly appId and the encoded payload |
| Requests.SimulateOrder | packages/core/src/lib/client.ts:257-270 | as createOrder, with exactly the encoded payload as variables |
| Requests.ConfirmOrder | packages/core/src/lib/client.ts:281-294 | fails only on the prologue (an empty order id is sent); bearer request with exactly orderId |
| Requests.CreateTransfer | packages/core/src/lib/client.ts:308-324 | fails only on the prologue; bearer request with exactly amount (the floor of the amount), expirationAt (clock second + 86400), symbol and type = SINGLE's code |
| Requests.CreateMultipleTransfer | packages/core/src/lib/client.ts:339-356 | fails only on the prologue (no count check); as CreateTransfer plus count = floor of count and type = MULTIPLE's code |
| Requests.FetchTransfer | packages/core/src/lib/client.ts:367-380 | needs the prologue yet sends exactly the x-hasura-trans-id header with the id, and exactly id as variable |
| Requests.ClaimTransfer | packages/core/src/lib/client.ts:391-404 | fails only on the prologue; bearer request with exactly transferParam |
| Requests.ResolveParams | packages/core/src/lib/client.ts:422 | absent argument gives limit 10, offset 0, status [SUCCESS]; each present member is kept (0 included), each absent one defaulted |
| Requests.FetchOrderList | packages/core/src/lib/client.ts:418-436 | fails only on the prologue; bearer request with exactly walletUserId = userId and the resolved limit and offset |
| Responses.UserExists | packages/core/src/lib/client.ts:147 | true exactly when the answer and its telegramUser list are present and the list is non-empty |
| Responses.UserWalletAddress | packages/core/src/lib/client.ts:170 | the first sub-wallet's address exactly when the user is present with at least one sub-wallet, otherwise MalformedResponse |
| Responses.DecodePayload | packages/core/src/lib/client.ts:440-445 | the decoded document when decoding succeeds, `{}` otherwise |
| Responses.DecodeOrder | packages/core/src/lib/client.ts:447-450 | every member but payload unchanged, payload decoded or `{}` |
| Responses.DecodeOrders | packages/core/src/lib/client.ts:439-451 | same length and order as the backend list, each entry its own record with only the payload decoded |
| Responses.OrderList | packages/core/src/lib/client.ts:438-457 | pagination echoes the resolved limit and offset with total = aggregate count; data has the backend list's length and order, each record unchanged but its payload |
| Responses.DecodeOrdersAppend | packages/core/src/lib/client.ts:439-451 | decoding a list is decoding its parts and concatenating, so a record's entry depends on that record alone |
| Responses.FallbacksCountFailures | packages/core/src/lib/client.ts:439-451 | at least as many `{}` entries as undecodable records, exactly as many when the decoder never yields `{}` |
| Responses.OneBadRecord | packages/core/src/lib/client.ts:439-451 | one malformed payload among the records: the page keeps every record, the bad one with `{}`, all others decoded, and exactly one record is undecodable |
| Calls.GuardsComeFirst | packages/core/src/lib/client.ts:73-82 | every authenticated operation fails with NotInitialized when uninitialized and with JwtTokenNotFound on an empty token, issuing nothing; past the prologue only an unencodable payload can stop it |
| Calls.RequestsUseSession | packages/core/src/lib/client.ts:367-380 | every issued request goes to the session endpoint; all but fetchTransfer carry the session's bearer header, fetchTransfer no Authorization header |
| Calls.NothingAfterLogout | packages/core/src/lib/client.ts:176-179 | after logout every authenticated operation fails with JwtTokenNotFound |
| Calls.NothingBeforeLogin | packages/core/src/lib/client.ts:46-68 | a freshly constructed client fails every authenticated operation with JwtTokenNotFound |
| Calls.UpdateNetworkRetargets | packages/core/src/lib/client.ts:88-92 | after updateNetwork every operation has the same outcome, and an issued request differs only in going to the new network's endpoint, so the token is kept |
| Calls.StatusIsNotSent | packages/core/src/lib/client.ts:422-432 | two fetchOrderList calls differing only in status issue the same request |
| Client.Mizu.constructor | packages/core/src/lib/client.ts:58-68 | with validated arguments the fields become the session Construct describes |
| Client.Mizu.Create | packages/core/src/lib/client.ts:58-68 | fails as Construct does; otherwise a fresh client whose state is Construct's session |
| Client.Mizu.UpdateNetwork | packages/core/src/lib/client.ts:88-92 | fields updated as AfterUpdateNetwork says, unchanged on failure; never fails on a valid client and keeps it valid |
| Client.Mizu.Logout | packages/core/src/lib/client.ts:176-179 | fields become AfterLogout of the old state; validity kept |
| Client.Mizu.LoginInTG | packages/core/src/lib/client.ts:107-126 | issues the login request unless the guard throws; fields become AfterLogin's session, unchanged when it fails; validity kept |
| Client.Mizu.IsUserExistByTgID | packages/core/src/lib/client.ts:134-145 | the request of Requests.IsUserExistByTgID on the current fields, never with an Authorization header |
| Client.LogoutThenCall | packages/core/src/lib/client.ts:176-179 | composing the class contracts: after Create, a successful loginInTG and logout, any authenticated call fails with JwtTokenNotFound |
| Client.Mizu.Issue | packages/core/src/lib/client.ts:155-436 | the request of the given authenticated operation on the current fields; one is issued only when initialized with a token, and it goes to the current endpoint |

## Left out

- The executor itself: the network call, async/await, and the transport errors the authenticated operations pass through unchanged. Only `loginInTG`'s answer is a parameter, because that answer changes the session.
- The backend values returned as they arrive (`result?.createOrder`, `simulateOrder`, `confirmOrder`, `createTransfer`, `transferCreated` and `claimTransfer`): the client does nothing with them but return them.
- `decodeJWT`, `btoa`/`atob` and `JSON.stringify`/`JSON.parse` are foreign code. They appear as function parameters, and no round-trip law is claimed for them. Any expiry check inside `decodeJWT` lives in helpers/JWTHelper, outside client.ts.
- `startBindGoogle` and its `KEYLESS_GOOGLE_SITE_URL`: they only build a URL and open a browser window.
- `bindGoogleAccount`: a bearer-authenticated pass-through of its arguments. It is not part of this model's operation set.
- The empty stubs `login` and `getOrderInfo`, the `console.log`/`console.error` calls, and the unused constant `SEC_IN_72_HOURS`.
- JavaScript number semantics: floating-point rounding, NaN from `Number(count)` on a non-numeric string, and non-integer `limit`/`offset`. Numbers are exact reals or integers.
- JavaScript truthiness beyond strings: `appId`, `tgId` and `jwtToken` are strings, so only the empty string counts as falsy. A missing network given to the constructor is `None`; the argument of `updateNetwork` is modelled by its TypeScript type, so an unset one (which would set `network` and `graphqlEndPoint` to undefined) is not expressible.
- Nullish answers to fetchOrderList (`result?.order.map`): the model always receives the list and the aggregate count.
- Concurrent calls on one client: the model is sequential, and an in-flight request's captured token is not represented.
- The GraphQL document texts. Only their names are used. The multiple-transfer document `createMultipleTransferQuery` is imported by client.ts, but packages/core/src/query/index.ts defines no such export.
