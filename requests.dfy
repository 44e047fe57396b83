/** The request each client operation issues, built from the session and the
    operation's arguments after its guards have passed. A `Failure` means a
    guard or an argument computation threw before any request was issued. */
module Requests {
  import opened Wrappers
  import opened Wire
  import opened Sessions
  import Enums

  /** SEC_IN_24_HOURS: the fixed lifetime of a transfer. */
  const SecIn24Hours: int := 3600 * 24

  /** `Math.floor(Date.now() / 1000) + SEC_IN_24_HOURS`: the whole second the
      clock reading falls in, plus one day. */
  function ExpirationAt(nowMs: int): (expiration: int)
    ensures (expiration - SecIn24Hours) * 1000 <= nowMs < (expiration - SecIn24Hours + 1) * 1000
  {
    (nowMs as real / 1000.0).Floor + SecIn24Hours
  }

  /** The three parts every request built after the session prologue shares:
      the session's endpoint, the operation's document, and the bearer
      token header. */
  predicate Authorized(req: Request, s: Session, document: Document) {
    && req.url == s.graphqlEndPoint
    && req.document == document
    && req.requestHeaders == BearerHeaders(s.jwtToken)
  }

  /** A request of `document` with the bearer header, issued only once the
      session prologue has passed. */
  function WithSession(s: Session, document: Document, variables: map<string, Value>): Result<Request, Error> {
    match RequireSession(s)
    case Fail(e) => Failure(e)
    case Pass => Success(Request(s.graphqlEndPoint, document, variables, BearerHeaders(s.jwtToken)))
  }

  /** loginInTG: only checkInitialized; sends appId and the Telegram init
      data, with no request headers. */
  function LoginInTG(s: Session, initData: string): (r: Result<Request, Error>)
    ensures r.Failure? <==> !s.initialized
    ensures r.Failure? ==> r.error == NotInitialized
    ensures r.Success? ==>
      && r.value.url == s.graphqlEndPoint
      && r.value.document == LoginMutation
      && r.value.variables.Keys == {"appId", "initData"}
      && r.value.variables["appId"] == Str(s.appId)
      && r.value.variables["initData"] == Str(initData)
      && r.value.requestHeaders == map[]
  {
    match CheckInitialized(s)
    case Fail(e) => Failure(e)
    case Pass =>
      Success(Request(s.graphqlEndPoint, LoginMutation,
                      map["appId" := Str(s.appId), "initData" := Str(initData)], map[]))
  }

  /** isUserExistByTgID: checkInitialized, then an empty tgId is refused; no
      token is needed. The id travels in the x-hasura-tg-id header and the
      variables object is empty. */
  function IsUserExistByTgID(s: Session, tgId: string): (r: Result<Request, Error>)
    ensures !s.initialized ==> r == Failure(NotInitialized)
    ensures s.initialized && tgId == [] ==> r == Failure(TgIdRequired)
    ensures r.Success? <==> s.initialized && tgId != []
    ensures r.Success? ==>
      && r.value.url == s.graphqlEndPoint
      && r.value.document == CheckUserIsExistQueryByTgId
      && r.value.variables == map[]
      && r.value.requestHeaders.Keys == {"x-hasura-tg-id"}
      && r.value.requestHeaders["x-hasura-tg-id"] == tgId
  {
    match CheckInitialized(s)
    case Fail(e) => Failure(e)
    case Pass =>
      if tgId == [] then Failure(TgIdRequired)
      else Success(Request(s.graphqlEndPoint, CheckUserIsExistQueryByTgId, map[],
                           map["x-hasura-tg-id" := tgId]))
  }

  /** getUserWalletAddress: looks up the session's own user. */
  function GetUserWalletAddress(s: Session): (r: Result<Request, Error>)
    ensures r.Failure? <==> RequireSession(s).Fail?
    ensures r.Failure? ==> r.error == RequireSession(s).error
    ensures r.Success? ==>
      && Authorized(r.value, s, UserWalletAddressQuery)
      && r.value.variables.Keys == {"id"}
      && r.value.variables["id"] == Str(s.userId)
  {
    WithSession(s, UserWalletAddressQuery, map["id" := Str(s.userId)])
  }

  /** createOrder: the payload travels as `btoa(JSON.stringify(payload))`;
      `encode` is that composition, None where btoa throws. */
  function CreateOrder(s: Session, payload: Json, encode: Json -> Option<string>): (r: Result<Request, Error>)
    ensures RequireSession(s).Fail? ==> r == Failure(RequireSession(s).error)
    ensures RequireSession(s).Pass? && encode(payload).None? ==> r == Failure(PayloadNotEncodable)
    ensures r.Success? <==> RequireSession(s).Pass? && encode(payload).Some?
    ensures r.Success? ==>
      && Authorized(r.value, s, CreateOrderQuery)
      && r.value.variables.Keys == {"appId", "payload"}
      && r.value.variables["appId"] == Str(s.appId)
      && r.value.variables["payload"] == Str(encode(payload).value)
  {
    match RequireSession(s)
    case Fail(e) => Failure(e)
    case Pass =>
      match encode(payload)
      case None => Failure(PayloadNotEncodable)
      case Some(text) =>
        WithSession(s, CreateOrderQuery, map["appId" := Str(s.appId), "payload" := Str(text)])
  }

  /** simulateOrder: as createOrder, but only the encoded payload is sent. */
  function SimulateOrder(s: Session, payload: Json, encode: Json -> Option<string>): (r: Result<Request, Error>)
    ensures RequireSession(s).Fail? ==> r == Failure(RequireSession(s).error)
    ensures RequireSession(s).Pass? && encode(payload).None? ==> r == Failure(PayloadNotEncodable)
    ensures r.Success? <==> RequireSession(s).Pass? && encode(payload).Some?
    ensures r.Success? ==>
      && Authorized(r.value, s, SimulateOrderQuery)
      && r.value.variables.Keys == {"payload"}
      && r.value.variables["payload"] == Str(encode(payload).value)
  {
    match RequireSession(s)
    case Fail(e) => Failure(e)
    case Pass =>
      match encode(payload)
      case None => Failure(PayloadNotEncodable)
      case Some(text) => WithSession(s, SimulateOrderQuery, map["payload" := Str(text)])
  }

  /** confirmOrder: the order id is passed through unchecked, so an empty id
      is sent as it is. */
  function ConfirmOrder(s: Session, orderId: string): (r: Result<Request, Error>)
    ensures r.Failure? <==> RequireSession(s).Fail?
    ensures r.Failure? ==> r.error == RequireSession(s).error
    ensures r.Success? ==>
      && Authorized(r.value, s, ConfirmOrderQuery)
      && r.value.variables.Keys == {"orderId"}
      && r.value.variables["orderId"] == Str(orderId)
  {
    WithSession(s, ConfirmOrderQuery, map["orderId" := Str(orderId)])
  }

  /** The variables of a transfer creation: the floored amount, one day from
      the clock reading, the symbol and the transfer type's code. */
  function TransferVariables(amount: real, symbol: string, nowMs: int, kind: Enums.TransferType): map<string, Value> {
    map["amount" := Int(amount.Floor),
        "expirationAt" := Int(ExpirationAt(nowMs)),
        "symbol" := Str(symbol),
        "type" := Int(kind.Code())]
  }

  /** createTransfer: a SINGLE transfer; `nowMs` is the reading of Date.now(). */
  function CreateTransfer(s: Session, amount: real, symbol: string, nowMs: int): (r: Result<Request, Error>)
    ensures r.Failure? <==> RequireSession(s).Fail?
    ensures r.Failure? ==> r.error == RequireSession(s).error
    ensures r.Success? ==>
      && Authorized(r.value, s, CreateTransferQuery)
      && r.value.variables.Keys == {"amount", "expirationAt", "symbol", "type"}
      && r.value.variables["amount"].Int?
      && r.value.variables["amount"].n as real <= amount < r.value.variables["amount"].n as real + 1.0
      && r.value.variables["expirationAt"].Int?
      && (r.value.variables["expirationAt"].n - SecIn24Hours) * 1000 <= nowMs
      && nowMs < (r.value.variables["expirationAt"].n - SecIn24Hours + 1) * 1000
      && r.value.variables["symbol"] == Str(symbol)
      && r.value.variables["type"] == Int(Enums.TransferType.Single.Code())
  {
    WithSession(s, CreateTransferQuery, TransferVariables(amount, symbol, nowMs, Enums.TransferType.Single))
  }

  /** createMultipleTransfer: a MULTIPLE transfer; `count` is the number
      `Number(args.count)` produced, and it is floored but not range-checked,
      so a count that floors to zero or below is sent unchanged. */
  function CreateMultipleTransfer(s: Session, amount: real, symbol: string, count: real, nowMs: int): (r: Result<Request, Error>)
    ensures r.Failure? <==> RequireSession(s).Fail?
    ensures r.Failure? ==> r.error == RequireSession(s).error
    ensures r.Success? ==>
      && Authorized(r.value, s, CreateMultipleTransferQuery)
      && r.value.variables.Keys == {"amount", "count", "expirationAt", "symbol", "type"}
      && r.value.variables["amount"].Int?
      && r.value.variables["amount"].n as real <= amount < r.value.variables["amount"].n as real + 1.0
      && r.value.variables["count"].Int?
      && r.value.variables["count"].n as real <= count < r.value.variables["count"].n as real + 1.0
      && r.value.variables["expirationAt"] == Int(ExpirationAt(nowMs))
      && r.value.variables["symbol"] == Str(symbol)
      && r.value.variables["type"] == Int(Enums.TransferType.Multiple.Code())
  {
    WithSession(s, CreateMultipleTransferQuery,
                TransferVariables(amount, symbol, nowMs, Enums.TransferType.Multiple)["count" := Int(count.Floor)])
  }

  /** fetchTransfer: the token must be present, yet the request carries the
      transfer id in the x-hasura-trans-id header instead of the token. */
  function FetchTransfer(s: Session, id: string): (r: Result<Request, Error>)
    ensures r.Failure? <==> RequireSession(s).Fail?
    ensures r.Failure? ==> r.error == RequireSession(s).error
    ensures r.Success? ==>
      && r.value.url == s.graphqlEndPoint
      && r.value.document == FetchTransferQuery
      && r.value.variables.Keys == {"id"}
      && r.value.variables["id"] == Str(id)
      && r.value.requestHeaders.Keys == {"x-hasura-trans-id"}
      && r.value.requestHeaders["x-hasura-trans-id"] == id
  {
    match RequireSession(s)
    case Fail(e) => Failure(e)
    case Pass =>
      Success(Request(s.graphqlEndPoint, FetchTransferQuery, map["id" := Str(id)],
                      map["x-hasura-trans-id" := id]))
  }

  /** claimTransfer: the claim parameter is an opaque string. */
  function ClaimTransfer(s: Session, transferParam: string): (r: Result<Request, Error>)
    ensures r.Failure? <==> RequireSession(s).Fail?
    ensures r.Failure? ==> r.error == RequireSession(s).error
    ensures r.Success? ==>
      && Authorized(r.value, s, ClaimTransferQuery)
      && r.value.variables.Keys == {"transferParam"}
      && r.value.variables["transferParam"] == Str(transferParam)
  {
    WithSession(s, ClaimTransferQuery, map["transferParam" := Str(transferParam)])
  }

  /** The optional argument of fetchOrderList; each member may be absent. */
  datatype FetchParams = FetchParams(limit: Option<int>, offset: Option<int>, status: Option<seq<Enums.OrderStatus>>)

  /** The destructured arguments after their defaults are applied. */
  datatype Paging = Paging(limit: int, offset: int, status: seq<Enums.OrderStatus>)

  /** `const { limit = 10, offset = 0, status = [ORDER_STATUS.SUCCESS] } =
      fetchParams || {}`: a default replaces only an absent member, so an
      explicit 0 is kept. */
  function ResolveParams(params: Option<FetchParams>): (p: Paging)
    ensures params.None? ==> p == Paging(10, 0, [Enums.OrderStatus.Success])
    ensures params.Some? && params.value.limit.Some? ==> p.limit == params.value.limit.value
    ensures params.Some? && params.value.limit.None? ==> p.limit == 10
    ensures params.Some? && params.value.offset.Some? ==> p.offset == params.value.offset.value
    ensures params.Some? && params.value.offset.None? ==> p.offset == 0
    ensures params.Some? && params.value.status.Some? ==> p.status == params.value.status.value
    ensures params.Some? && params.value.status.None? ==> p.status == [Enums.OrderStatus.Success]
  {
    var given := if params.Some? then params.value else FetchParams(None, None, None);
    Paging(
      if given.limit.Some? then given.limit.value else 10,
      if given.offset.Some? then given.offset.value else 0,
      if given.status.Some? then given.status.value else [Enums.OrderStatus.Success])
  }

  /** fetchOrderList: the session's user and the resolved page bounds; the
      resolved status filter is computed but not sent. */
  function FetchOrderList(s: Session, params: Option<FetchParams>): (r: Result<Request, Error>)
    ensures r.Failure? <==> RequireSession(s).Fail?
    ensures r.Failure? ==> r.error == RequireSession(s).error
    ensures r.Success? ==>
      && Authorized(r.value, s, FetchOrderListQuery)
      && r.value.variables.Keys == {"walletUserId", "limit", "offset"}
      && r.value.variables["walletUserId"] == Str(s.userId)
      && r.value.variables["limit"] == Int(ResolveParams(params).limit)
      && r.value.variables["offset"] == Int(ResolveParams(params).offset)
  {
    var paging := ResolveParams(params);
    WithSession(s, FetchOrderListQuery,
                map["walletUserId" := Str(s.userId), "limit" := Int(paging.limit), "offset" := Int(paging.offset)])
  }
}
