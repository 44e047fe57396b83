/** The session state of the `Mizu` client (client.ts:43-50), the two
    fail-fast guards, and the state transitions of the constructor,
    `updateNetwork`, `loginInTG` and `logout`, as functions of the state
    before the call. The class in module Client performs them in place. */
module Sessions {
  import opened Wrappers

  /** The two networks of @aptos-labs/ts-sdk the client accepts. */
  datatype Network = Mainnet | Testnet

  /** GRAPHQL_URL: the backend endpoint of each network. */
  function GraphqlUrl(network: Network): (url: string)
    ensures url != []
  {
    match network
    case Testnet => "https://hasura-wallet.groupwar.xyz/v1/graphql"
    case Mainnet => "https://api.mz.xyz/v1/graphql/"
  }

  /** The endpoint determines the network: the two URLs differ. */
  lemma GraphqlUrlsDistinct(a: Network, b: Network)
    ensures GraphqlUrl(a) == GraphqlUrl(b) <==> a == b
  {
  }

  /** Every way a client operation can fail. */
  datatype Error =
    | AppIdRequired          // constructor: empty appId
    | NetworkRequired        // constructor: network unset
    | NotInitialized         // checkInitialized
    | JwtTokenNotFound       // checkJWTToken
    | TgIdRequired           // isUserExistByTgID: empty tgId
    | PayloadNotEncodable    // window.btoa throws on the stringified payload
    | MalformedResponse      // a property read on a missing response member throws
    | Transport(reason: string) // the executor's own error, passed through

  datatype Session = Session(
    appId: string,
    network: Network,
    graphqlEndPoint: string,
    userId: string,
    jwtToken: string,
    initialized: bool)

  /** What holds of every session a successful construction produces and
      every transition keeps. */
  predicate Valid(s: Session) {
    s.initialized && s.appId != [] && s.graphqlEndPoint == GraphqlUrl(s.network)
  }

  /** The constructor: appId is checked first, then network; on success the
      endpoint is derived, the pair is empty and the client is initialized. */
  function Construct(appId: string, network: Option<Network>): (r: Result<Session, Error>)
    ensures appId == [] ==> r == Failure(AppIdRequired)
    ensures appId != [] && network.None? ==> r == Failure(NetworkRequired)
    ensures r.Success? <==> appId != [] && network.Some?
    ensures r.Success? ==>
      && Valid(r.value)
      && r.value.appId == appId
      && r.value.network == network.value
      && r.value.userId == [] && r.value.jwtToken == []
  {
    if appId == [] then Failure(AppIdRequired)
    else if network.None? then Failure(NetworkRequired)
    else Success(Session(appId, network.value, GraphqlUrl(network.value), "", "", true))
  }

  /** checkInitialized */
  function CheckInitialized(s: Session): (o: Outcome<Error>)
    ensures o.Pass? <==> s.initialized
    ensures o.Fail? ==> o.error == NotInitialized
  {
    if !s.initialized then Fail(NotInitialized) else Pass
  }

  /** checkJWTToken: an empty token is the JavaScript falsy string. */
  function CheckJWTToken(s: Session): (o: Outcome<Error>)
    ensures o.Pass? <==> s.jwtToken != []
    ensures o.Fail? ==> o.error == JwtTokenNotFound
  {
    if s.jwtToken == [] then Fail(JwtTokenNotFound) else Pass
  }

  /** The prologue of every authenticated operation: checkInitialized, then
      checkJWTToken. */
  function RequireSession(s: Session): (o: Outcome<Error>)
    ensures o.Pass? <==> s.initialized && s.jwtToken != []
    ensures !s.initialized ==> o == Fail(NotInitialized)
    ensures s.initialized && s.jwtToken == [] ==> o == Fail(JwtTokenNotFound)
  {
    match CheckInitialized(s)
    case Fail(e) => Fail(e)
    case Pass => CheckJWTToken(s)
  }

  /** logout: no guard; clears the user id and the token, nothing else. */
  function AfterLogout(s: Session): (t: Session)
    ensures t.userId == [] && t.jwtToken == []
    ensures t.appId == s.appId && t.network == s.network
    ensures t.graphqlEndPoint == s.graphqlEndPoint && t.initialized == s.initialized
  {
    s.(userId := "", jwtToken := "")
  }

  /** updateNetwork: requires an initialized client, then switches the
      network and re-derives the endpoint; the login pair is kept. */
  function AfterUpdateNetwork(s: Session, network: Network): (r: Result<Session, Error>)
    ensures r.Failure? <==> !s.initialized
    ensures r.Failure? ==> r.error == NotInitialized
    ensures r.Success? ==>
      && r.value.network == network
      && r.value.graphqlEndPoint == GraphqlUrl(network)
      && r.value.appId == s.appId
      && r.value.userId == s.userId && r.value.jwtToken == s.jwtToken
      && r.value.initialized
  {
    match CheckInitialized(s)
    case Fail(e) => Failure(e)
    case Pass => Success(s.(network := network, graphqlEndPoint := GraphqlUrl(network)))
  }

  /** loginInTG after its request: `reply` is what the executor returned for
      the login mutation (its `tgLogin` member, or the error it threw), and
      `decodeJWT` the token decoder, None where it throws. A thrown request
      leaves the session as it was; a decoded pair is stored as a whole; a
      decoding failure logs out. */
  function AfterLogin(s: Session, reply: Result<string, Error>,
                      decodeJWT: string -> Option<(string, string)>): (r: Result<Session, Error>)
    ensures !s.initialized ==> r == Failure(NotInitialized)
    ensures s.initialized && reply.Failure? ==> r == Failure(reply.error)
    ensures s.initialized && reply.Success? ==> r.Success?
    ensures s.initialized && reply.Success? && decodeJWT(reply.value).Some? ==>
      r.value == s.(userId := decodeJWT(reply.value).value.0,
                    jwtToken := decodeJWT(reply.value).value.1)
    ensures s.initialized && reply.Success? && decodeJWT(reply.value).None? ==>
      r.value == AfterLogout(s)
  {
    match CheckInitialized(s)
    case Fail(e) => Failure(e)
    case Pass =>
      match reply
      case Failure(e) => Failure(e)
      case Success(tgLogin) =>
        match decodeJWT(tgLogin)
        case Some(pair) => Success(s.(userId := pair.0, jwtToken := pair.1))
        case None => Success(AfterLogout(s))
  }

  /** logout is idempotent: a second logout changes nothing. */
  lemma LogoutIdempotent(s: Session)
    ensures AfterLogout(AfterLogout(s)) == AfterLogout(s)
  {
  }

  /** A login whose token does not decode leaves exactly the state a logout
      would, and so does a login after a logout: the pair never survives
      half set. */
  lemma FailedDecodeIsLogout(s: Session, tgLogin: string, decodeJWT: string -> Option<(string, string)>)
    requires s.initialized && decodeJWT(tgLogin).None?
    ensures AfterLogin(s, Success(tgLogin), decodeJWT) == Success(AfterLogout(s))
    ensures AfterLogin(AfterLogout(s), Success(tgLogin), decodeJWT) == Success(AfterLogout(s))
  {
  }

  /** A login leaves the application, the network and the endpoint alone:
      only the user id and the token can change. */
  lemma LoginKeepsConfiguration(s: Session, reply: Result<string, Error>,
                                decodeJWT: string -> Option<(string, string)>)
    requires AfterLogin(s, reply, decodeJWT).Success?
    ensures AfterLogin(s, reply, decodeJWT).value.(userId := s.userId, jwtToken := s.jwtToken) == s
  {
  }

  /** Once constructed, a client stays valid, and in particular initialized,
      through any sequence of updateNetwork, loginInTG and logout. */
  lemma TransitionsKeepValid(s: Session, network: Network, reply: Result<string, Error>,
                             decodeJWT: string -> Option<(string, string)>)
    requires Valid(s)
    ensures Valid(AfterLogout(s))
    ensures AfterUpdateNetwork(s, network).Success? && Valid(AfterUpdateNetwork(s, network).value)
    ensures AfterLogin(s, reply, decodeJWT).Success? ==> Valid(AfterLogin(s, reply, decodeJWT).value)
  {
  }
}
