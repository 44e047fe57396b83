/** What the client hands to the GraphQL executor: the endpoint, the
    operation document, the variables object and the request headers. The
    executor itself (the `request` call of graphql-request) is not modelled;
    a request that the client would send is returned as a value instead. */
module Wire {

  /** A JSON document: order payloads are structured data of this shape. */
  datatype Json =
    | Null
    | Boolean(b: bool)
    | Number(n: real)
    | Text(s: string)
    | Array(items: seq<Json>)
    | Object(members: seq<(string, Json)>)

  /** The `{}` that a payload falls back to when it cannot be decoded. */
  const EmptyObject: Json := Object([])

  /** A value of the variables object. Enumeration members travel as their
      numeric code. */
  datatype Value = Str(s: string) | Int(n: int)

  /** The GraphQL documents of the query module, by the names under which
      client.ts imports them. */
  datatype Document =
    | LoginMutation
    | CheckUserIsExistQueryByTgId
    | UserWalletAddressQuery
    | CreateOrderQuery
    | SimulateOrderQuery
    | ConfirmOrderQuery
    | CreateTransferQuery
    | CreateMultipleTransferQuery
    | FetchTransferQuery
    | ClaimTransferQuery
    | FetchOrderListQuery

  datatype Request = Request(
    url: string,
    document: Document,
    variables: map<string, Value>,
    requestHeaders: map<string, string>)

  /** The header object `{ Authorization: `Bearer ${token}` }`. */
  function BearerHeaders(token: string): map<string, string> {
    map["Authorization" := "Bearer " + token]
  }
}
