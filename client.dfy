/** The `Mizu` client object: its six fields, updated in place by the
    construction, updateNetwork, loginInTG and logout, and the operations
    that only read them. */
module Client {
  import opened Wrappers
  import opened Wire
  import opened Sessions
  import Requests
  import Calls

  class Mizu {
    var appId: string
    var network: Network
    var graphqlEndPoint: string
    var userId: string
    var jwtToken: string
    var initialized: bool

    /** The fields as a value, for the functions that specify the methods. */
    function State(): Session
      reads this
    {
      Session(appId, network, graphqlEndPoint, userId, jwtToken, initialized)
    }

    /** The body of the TypeScript constructor once its two checks passed. */
    constructor (appId: string, network: Network)
      requires appId != []
      ensures State() == Construct(appId, Some(network)).value
      ensures Valid(State())
    {
      this.appId := appId;
      this.network := network;
      this.graphqlEndPoint := GraphqlUrl(network);
      this.userId := "";
      this.jwtToken := "";
      this.initialized := true;
    }

    /** `new Mizu({ appId, network })`: throws when appId is empty (checked
        first) or the network is unset; otherwise yields a fresh client in
        the state Construct describes. */
    static method Create(appId: string, network: Option<Network>) returns (r: Result<Mizu, Error>)
      ensures r.Failure? <==> Construct(appId, network).Failure?
      ensures r.Failure? ==> r.error == Construct(appId, network).error
      ensures r.Success? ==> fresh(r.value) && r.value.State() == Construct(appId, network).value
    {
      if appId == [] {
        return Failure(AppIdRequired);
      }
      if network.None? {
        return Failure(NetworkRequired);
      }
      var client := new Mizu(appId, network.value);
      return Success(client);
    }

    /** updateNetwork */
    method UpdateNetwork(network: Network) returns (outcome: Outcome<Error>)
      modifies this
      ensures outcome.Fail? <==> AfterUpdateNetwork(old(State()), network).Failure?
      ensures outcome.Fail? ==> outcome.error == AfterUpdateNetwork(old(State()), network).error
      ensures outcome.Fail? ==> State() == old(State())
      ensures outcome.Pass? ==> State() == AfterUpdateNetwork(old(State()), network).value
      ensures Valid(old(State())) ==> outcome.Pass? && Valid(State())
    {
      if !initialized {
        return Fail(NotInitialized);
      }
      this.network := network;
      this.graphqlEndPoint := GraphqlUrl(network);
      return Pass;
    }

    /** logout */
    method Logout()
      modifies this
      ensures State() == AfterLogout(old(State()))
      ensures Valid(old(State())) ==> Valid(State())
    {
      userId := "";
      jwtToken := "";
    }

    /** loginInTG: `sent` is the login mutation it issues (None when the
        guard throws first); `reply` is what the executor answered to it and
        `decodeJWT` the token decoder. A thrown request leaves the fields as
        they were. */
    method LoginInTG(initData: string, reply: Result<string, Error>,
                     decodeJWT: string -> Option<(string, string)>)
      returns (sent: Option<Request>, outcome: Outcome<Error>)
      modifies this
      ensures sent == Requests.LoginInTG(old(State()), initData).ToOption()
      ensures outcome.Fail? <==> AfterLogin(old(State()), reply, decodeJWT).Failure?
      ensures outcome.Fail? ==> outcome.error == AfterLogin(old(State()), reply, decodeJWT).error
      ensures outcome.Fail? ==> State() == old(State())
      ensures outcome.Pass? ==> State() == AfterLogin(old(State()), reply, decodeJWT).value
      ensures Valid(old(State())) ==> Valid(State())
    {
      var request := Requests.LoginInTG(State(), initData);
      if request.Failure? {
        return None, Fail(request.error);
      }
      sent := Some(request.value);
      if reply.Failure? {
        return sent, Fail(reply.error);
      }
      match decodeJWT(reply.value) {
        case Some(pair) =>
          userId := pair.0;
          jwtToken := pair.1;
        case None =>
          Logout();
      }
      outcome := Pass;
    }

    /** isUserExistByTgID: the request it issues, read-only. */
    method IsUserExistByTgID(tgId: string) returns (r: Result<Request, Error>)
      ensures r == Requests.IsUserExistByTgID(State(), tgId)
      ensures r.Success? ==> "Authorization" !in r.value.requestHeaders
    {
      r := Requests.IsUserExistByTgID(State(), tgId);
    }

    /** Any of the authenticated operations: the request it issues, read-only. */
    method Issue(call: Calls.Call, env: Calls.Env) returns (r: Result<Request, Error>)
      ensures r == Calls.Build(State(), call, env)
      ensures r.Success? ==> initialized && jwtToken != [] && r.value.url == graphqlEndPoint
    {
      Calls.GuardsComeFirst(State(), call, env);
      r := Calls.Build(State(), call, env);
      if r.Success? {
        Calls.RequestsUseSession(State(), call, env);
      }
    }
  }

  /** A caller's view: whatever the login produced, after logout no
      authenticated operation issues a request. */
  method LogoutThenCall(appId: string, network: Network, initData: string, tgLogin: string,
                        decodeJWT: string -> Option<(string, string)>, call: Calls.Call, env: Calls.Env)
    returns (r: Result<Request, Error>)
    requires appId != []
    ensures r == Failure(JwtTokenNotFound)
  {
    var created := Mizu.Create(appId, Some(network));
    var client := created.value;
    var sent, outcome := client.LoginInTG(initData, Success(tgLogin), decodeJWT);
    assert sent.Some? && outcome.Pass?;
    client.Logout();
    r := client.Issue(call, env);
    Calls.NothingAfterLogout(client.State(), call, env);
  }
}
