/** The authenticated operations of the client as one datatype, so that
    properties shared by all of them are stated once. The environment holds
    what the operations take from outside the client: the clock reading and
    the payload encoder. */
module Calls {
  import opened Wrappers
  import opened Wire
  import opened Sessions
  import Requests
  import Enums

  datatype Env = Env(nowMs: int, encode: Json -> Option<string>)

  datatype Call =
    | GetUserWalletAddress
    | CreateOrder(payload: Json)
    | SimulateOrder(payload: Json)
    | ConfirmOrder(orderId: string)
    | CreateTransfer(amount: real, symbol: string)
    | CreateMultipleTransfer(amount: real, symbol: string, count: real)
    | FetchTransfer(id: string)
    | ClaimTransfer(transferParam: string)
    | FetchOrderList(params: Option<Requests.FetchParams>)

  /** The request that `call` issues from session `s`, or the error it fails
      with before issuing any. */
  function Build(s: Session, call: Call, env: Env): Result<Request, Error> {
    match call
    case GetUserWalletAddress => Requests.GetUserWalletAddress(s)
    case CreateOrder(payload) => Requests.CreateOrder(s, payload, env.encode)
    case SimulateOrder(payload) => Requests.SimulateOrder(s, payload, env.encode)
    case ConfirmOrder(orderId) => Requests.ConfirmOrder(s, orderId)
    case CreateTransfer(amount, symbol) => Requests.CreateTransfer(s, amount, symbol, env.nowMs)
    case CreateMultipleTransfer(amount, symbol, count) =>
      Requests.CreateMultipleTransfer(s, amount, symbol, count, env.nowMs)
    case FetchTransfer(id) => Requests.FetchTransfer(s, id)
    case ClaimTransfer(transferParam) => Requests.ClaimTransfer(s, transferParam)
    case FetchOrderList(params) => Requests.FetchOrderList(s, params)
  }

  /** Whether the call's only possible failure is the session prologue. */
  predicate CannotFailOnArguments(call: Call, env: Env) {
    match call
    case CreateOrder(payload) => env.encode(payload).Some?
    case SimulateOrder(payload) => env.encode(payload).Some?
    case _ => true
  }

  /** Every authenticated operation runs checkInitialized and then
      checkJWTToken before anything else: on an uninitialized client or an
      empty token it fails with that guard's error and issues no request. */
  lemma GuardsComeFirst(s: Session, call: Call, env: Env)
    ensures !s.initialized ==> Build(s, call, env) == Failure(NotInitialized)
    ensures s.initialized && s.jwtToken == [] ==> Build(s, call, env) == Failure(JwtTokenNotFound)
    ensures Build(s, call, env).Success? ==> s.initialized && s.jwtToken != []
    ensures RequireSession(s).Pass? && CannotFailOnArguments(call, env) ==> Build(s, call, env).Success?
  {
  }

  /** Every issued request goes to the session's endpoint; all but
      fetchTransfer carry the session's bearer token, and fetchTransfer
      carries no Authorization header at all. */
  lemma RequestsUseSession(s: Session, call: Call, env: Env)
    requires Build(s, call, env).Success?
    ensures Build(s, call, env).value.url == s.graphqlEndPoint
    ensures !call.FetchTransfer? ==> Build(s, call, env).value.requestHeaders == BearerHeaders(s.jwtToken)
    ensures call.FetchTransfer? ==> "Authorization" !in Build(s, call, env).value.requestHeaders
  {
  }

  /** After logout every authenticated operation fails with
      JwtTokenNotFound, whatever the session was before. */
  lemma NothingAfterLogout(s: Session, call: Call, env: Env)
    requires s.initialized
    ensures Build(AfterLogout(s), call, env) == Failure(JwtTokenNotFound)
  {
  }

  /** A freshly constructed client has no token, so every authenticated
      operation fails until a login succeeds. */
  lemma NothingBeforeLogin(appId: string, network: Network, call: Call, env: Env)
    requires appId != []
    ensures Construct(appId, Some(network)).Success?
    ensures Build(Construct(appId, Some(network)).value, call, env) == Failure(JwtTokenNotFound)
  {
  }

  /** updateNetwork retargets every later request to the new network's
      endpoint and changes nothing else about it: same outcome, same
      document, variables and headers, so an existing token is kept. */
  lemma UpdateNetworkRetargets(s: Session, network: Network, call: Call, env: Env)
    requires s.initialized
    ensures AfterUpdateNetwork(s, network).Success?
    ensures Build(AfterUpdateNetwork(s, network).value, call, env).Success? <==> Build(s, call, env).Success?
    ensures Build(s, call, env).Success? ==>
      Build(AfterUpdateNetwork(s, network).value, call, env).value
        == Build(s, call, env).value.(url := GraphqlUrl(network))
    ensures Build(s, call, env).Failure? ==>
      Build(AfterUpdateNetwork(s, network).value, call, env) == Build(s, call, env)
  {
  }

  /** fetchOrderList sends nothing of its status filter: two calls that
      differ only in `status` issue the same request. */
  lemma StatusIsNotSent(s: Session, limit: Option<int>, offset: Option<int>,
                        status1: Option<seq<Enums.OrderStatus>>, status2: Option<seq<Enums.OrderStatus>>, env: Env)
    ensures Build(s, FetchOrderList(Some(Requests.FetchParams(limit, offset, status1))), env)
         == Build(s, FetchOrderList(Some(Requests.FetchParams(limit, offset, status2))), env)
  {
  }
}
