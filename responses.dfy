/** What the client makes of the executor's answers: the existence check of
    isUserExistByTgID, the address read of getUserWalletAddress and the
    decoded page of fetchOrderList. The answers are given as the members of
    the response that the client reads. */
module Responses {
  import opened Wrappers
  import opened Wire
  import opened Sessions
  import Requests

  datatype TelegramUser = TelegramUser(walletUserId: string, tgId: string)

  /** The answer to CheckUserIsExistQueryByTgId; either level may be absent. */
  datatype TelegramUserReply = TelegramUserReply(telegramUser: Option<seq<TelegramUser>>)

  /** `result?.telegramUser?.length > 0`: an absent result or list reads as
      `undefined > 0`, which is false. */
  function UserExists(result: Option<TelegramUserReply>): (exists_: bool)
    ensures exists_ <==>
      result.Some? && result.value.telegramUser.Some? && |result.value.telegramUser.value| > 0
  {
    match result
    case None => false
    case Some(reply) =>
      match reply.telegramUser
      case None => false
      case Some(users) => |users| > 0
  }

  datatype SubWallet = SubWallet(address: string)

  /** The answer to UserWalletAddressQuery: `walletUserByPk` may be null; if
      not, its `sub_wallets`. */
  datatype WalletUserReply = WalletUserReply(walletUserByPk: Option<seq<SubWallet>>)

  /** `result.walletUserByPk.sub_wallets[0].address`: reading through a null
      user or past an empty wallet list throws. */
  function UserWalletAddress(result: WalletUserReply): (r: Result<string, Error>)
    ensures r.Success? <==> result.walletUserByPk.Some? && |result.walletUserByPk.value| > 0
    ensures r.Success? ==> r.value == result.walletUserByPk.value[0].address
    ensures r.Failure? ==> r.error == MalformedResponse
  {
    match result.walletUserByPk
    case None => Failure(MalformedResponse)
    case Some(wallets) =>
      if |wallets| == 0 then Failure(MalformedResponse) else Success(wallets[0].address)
  }

  datatype Transaction = Transaction(hash: string, gasFee: string, createdAt: string, status: int, kind: int)

  /** An order as the backend lists it, with its payload of type P: the
      transport text on the wire, structured JSON once decoded. */
  datatype Order<P> = Order(
    applicationId: string,
    createdAt: string,
    id: string,
    payload: P,
    status: int,
    transactionSeqNo: int,
    kind: int,
    updatedAt: string,
    walletUserId: string,
    transactions: seq<Transaction>)

  /** The two orders agree on every member but the payload. */
  predicate SameButPayload<P, Q>(a: Order<P>, b: Order<Q>) {
    && a.applicationId == b.applicationId && a.createdAt == b.createdAt && a.id == b.id
    && a.status == b.status && a.transactionSeqNo == b.transactionSeqNo && a.kind == b.kind
    && a.updatedAt == b.updatedAt && a.walletUserId == b.walletUserId
    && a.transactions == b.transactions
  }

  /** `JSON.parse(window.atob(order.payload))` under try/catch: `decode` is
      the composition, None where either step throws, and then the payload
      is `{}`. */
  function DecodePayload(text: string, decode: string -> Option<Json>): (payload: Json)
    ensures decode(text).Some? ==> payload == decode(text).value
    ensures decode(text).None? ==> payload == EmptyObject
  {
    match decode(text)
    case Some(j) => j
    case None => EmptyObject
  }

  /** `{ ...order, payload: payloadStruct }` */
  function DecodeOrder(order: Order<string>, decode: string -> Option<Json>): (decoded: Order<Json>)
    ensures SameButPayload(order, decoded)
    ensures decoded.payload == DecodePayload(order.payload, decode)
  {
    Order(order.applicationId, order.createdAt, order.id, DecodePayload(order.payload, decode),
          order.status, order.transactionSeqNo, order.kind, order.updatedAt, order.walletUserId,
          order.transactions)
  }

  /** `result.order.map(...)`: every record is decoded on its own, in the
      order the backend sent them. */
  function DecodeOrders(orders: seq<Order<string>>, decode: string -> Option<Json>): (decoded: seq<Order<Json>>)
    ensures |decoded| == |orders|
    ensures forall i :: 0 <= i < |orders| ==>
      SameButPayload(orders[i], decoded[i]) && decoded[i].payload == DecodePayload(orders[i].payload, decode)
    decreases |orders|
  {
    if orders == [] then []
    else [DecodeOrder(orders[0], decode)] + DecodeOrders(orders[1..], decode)
  }

  /** The answer to FetchOrderListQuery: the listed orders and the
      aggregate count of all the user's orders. */
  datatype OrderListReply = OrderListReply(order: seq<Order<string>>, total: int)

  datatype Pagination = Pagination(total: int, limit: int, offset: int)

  datatype OrderPage = OrderPage(data: seq<Order<Json>>, pagination: Pagination)

  /** The value fetchOrderList returns: the decoded list and the page bounds
      it asked for, with the backend's total. */
  function OrderList(params: Option<Requests.FetchParams>, result: OrderListReply,
                     decode: string -> Option<Json>): (page: OrderPage)
    ensures page.pagination.total == result.total
    ensures page.pagination.limit == Requests.ResolveParams(params).limit
    ensures page.pagination.offset == Requests.ResolveParams(params).offset
    ensures |page.data| == |result.order|
    ensures forall i :: 0 <= i < |result.order| ==>
      SameButPayload(result.order[i], page.data[i])
      && page.data[i].payload == DecodePayload(result.order[i].payload, decode)
  {
    var paging := Requests.ResolveParams(params);
    OrderPage(DecodeOrders(result.order, decode), Pagination(result.total, paging.limit, paging.offset))
  }

  /** How many records of a list have a payload that does not decode. */
  function Undecodable(orders: seq<Order<string>>, decode: string -> Option<Json>): nat
    decreases |orders|
  {
    if orders == [] then 0
    else (if decode(orders[0].payload).None? then 1 else 0) + Undecodable(orders[1..], decode)
  }

  /** How many entries of a decoded list carry the `{}` fallback. */
  function EmptyPayloads(orders: seq<Order<Json>>): nat
    decreases |orders|
  {
    if orders == [] then 0
    else (if orders[0].payload == EmptyObject then 1 else 0) + EmptyPayloads(orders[1..])
  }

  /** Decoding distributes over concatenation: what a record decodes to
      depends on that record alone, never on its neighbours. */
  lemma DecodeOrdersAppend(a: seq<Order<string>>, b: seq<Order<string>>,
                           decode: string -> Option<Json>)
    ensures DecodeOrders(a + b, decode) == DecodeOrders(a, decode) + DecodeOrders(b, decode)
  {
  }

  /** Every undecodable record becomes a `{}` entry; when the decoder never
      yields `{}` itself, the `{}` entries are exactly the undecodable
      records. */
  lemma {:induction false} FallbacksCountFailures(orders: seq<Order<string>>, decode: string -> Option<Json>)
    ensures Undecodable(orders, decode) <= EmptyPayloads(DecodeOrders(orders, decode))
    ensures (forall t :: decode(t) != Some(EmptyObject)) ==>
      Undecodable(orders, decode) == EmptyPayloads(DecodeOrders(orders, decode))
    decreases |orders|
  {
    if orders != [] {
      var decoded := DecodeOrders(orders, decode);
      assert decoded[1..] == DecodeOrders(orders[1..], decode);
      FallbacksCountFailures(orders[1..], decode);
    }
  }

  /** One malformed payload among the records spoils only its own entry:
      the page keeps every record, the bad one with payload `{}`, every
      other with its decoded payload. */
  lemma OneBadRecord(params: Option<Requests.FetchParams>, result: OrderListReply,
                     decode: string -> Option<Json>, bad: nat)
    requires bad < |result.order|
    requires decode(result.order[bad].payload).None?
    requires forall j :: 0 <= j < |result.order| && j != bad ==> decode(result.order[j].payload).Some?
    ensures |OrderList(params, result, decode).data| == |result.order|
    ensures OrderList(params, result, decode).data[bad].payload == EmptyObject
    ensures OrderList(params, result, decode).data[bad].id == result.order[bad].id
    ensures forall j :: 0 <= j < |result.order| && j != bad ==>
      OrderList(params, result, decode).data[j].payload == decode(result.order[j].payload).value
    ensures Undecodable(result.order, decode) == 1
  {
    OnlyOneUndecodable(result.order, decode, bad);
  }

  lemma {:induction false} OnlyOneUndecodable(orders: seq<Order<string>>, decode: string -> Option<Json>, bad: nat)
    requires bad < |orders|
    requires decode(orders[bad].payload).None?
    requires forall j :: 0 <= j < |orders| && j != bad ==> decode(orders[j].payload).Some?
    ensures Undecodable(orders, decode) == 1
    decreases |orders|
  {
    if bad == 0 {
      AllDecodable(orders[1..], decode);
    } else {
      OnlyOneUndecodable(orders[1..], decode, bad - 1);
    }
  }

  lemma {:induction false} AllDecodable(orders: seq<Order<string>>, decode: string -> Option<Json>)
    requires forall j :: 0 <= j < |orders| ==> decode(orders[j].payload).Some?
    ensures Undecodable(orders, decode) == 0
    decreases |orders|
  {
    if orders != [] {
      AllDecodable(orders[1..], decode);
    }
  }
}
