/** Everything the core talks to but does not implement: the clock, the
    Keycloak server (OpenID endpoints, admin API, plain HTTP), and the profile
    store `django_keycloak.services.oidc_profile`, whose source is not part of
    this model. One object, `Env`, stands for all of them. Every call is
    appended to `log`, in order, and every reply is a fixed function of the
    call and of its position in the log, so any behaviour of the outside world
    is one choice of those functions. */
module Environment {
  import opened Outcomes
  import opened Json

  /** The settings of a python-keycloak `KeycloakOpenID` client. */
  datatype OpenIdConfig = OpenIdConfig(
    serverUrl: string,
    realmName: string,
    clientId: string,
    clientSecret: Option<string>,
    customHeaders: Option<map<string, string>>)

  /** A `requests` response: its status, its raw body, and the body parsed as
      JSON (`None` when `response.json()` would fail). */
  datatype HttpResponse = HttpResponse(status: int, content: string, body: Option<Json>)

  /** `raise_for_status()` succeeds exactly on a 2xx status. */
  predicate IsSuccess(r: HttpResponse)
  {
    200 <= r.status < 300
  }

  /** An OpenID Connect profile as the client code sees it: an identity and
      the access token it currently holds. */
  datatype Profile = Profile(id: nat, accessToken: string)

  datatype Call =
    | ReadClock                                                       // timezone.now()
    | FetchCerts(openid: OpenIdConfig)                                // KeycloakOpenID.certs()
    | FetchWellKnown(openid: OpenIdConfig)                            // KeycloakOpenID.well_known()
    | RequestToken(clientId: string, grantType: string, scope: string) // KeycloakOpenID.token(...)
    | HttpGet(url: string, headers: map<string, string>)              // requests.get
    | HttpPost(url: string, headers: map<string, string>, payload: map<string, Json>) // requests.post
    | ListClients(realmName: string)                                  // KeycloakAdmin.get_clients
    | UpdateOrCreateProfile(clientId: string, tokenResponse: Json, initiateTime: int)
    | UpdateProfileTokens(profile: Profile, tokenResponse: Json, initiateTime: int)
    | GetActiveAccessToken(profile: Profile)

  class Env {
    var log: seq<Call>
    const clock: nat -> int
    const documentReply: (Call, nat) -> Result<Json>
    const httpReply: (Call, nat) -> Result<HttpResponse>
    const clientsReply: (Call, nat) -> Result<seq<map<string, Json>>>
    const profileReply: (Call, nat) -> Result<Profile>
    const accessTokenReply: (Call, nat) -> Result<string>

    constructor (
      clock: nat -> int,
      documentReply: (Call, nat) -> Result<Json>,
      httpReply: (Call, nat) -> Result<HttpResponse>,
      clientsReply: (Call, nat) -> Result<seq<map<string, Json>>>,
      profileReply: (Call, nat) -> Result<Profile>,
      accessTokenReply: (Call, nat) -> Result<string>)
      ensures log == []
      ensures this.clock == clock && this.documentReply == documentReply
      ensures this.httpReply == httpReply && this.clientsReply == clientsReply
      ensures this.profileReply == profileReply && this.accessTokenReply == accessTokenReply
    {
      log := [];
      this.clock := clock;
      this.documentReply := documentReply;
      this.httpReply := httpReply;
      this.clientsReply := clientsReply;
      this.profileReply := profileReply;
      this.accessTokenReply := accessTokenReply;
    }

    method Now() returns (t: int)
      modifies this
      ensures log == old(log) + [ReadClock]
      ensures t == clock(|old(log)|)
    {
      t := clock(|log|);
      log := log + [ReadClock];
    }

    /** A call answered with a JSON document: certs, well-known and token requests. */
    method Document(call: Call) returns (r: Result<Json>)
      requires call.FetchCerts? || call.FetchWellKnown? || call.RequestToken?
      modifies this
      ensures log == old(log) + [call]
      ensures r == documentReply(call, |old(log)|)
    {
      r := documentReply(call, |log|);
      log := log + [call];
    }

    method Http(call: Call) returns (r: Result<HttpResponse>)
      requires call.HttpGet? || call.HttpPost?
      modifies this
      ensures log == old(log) + [call]
      ensures r == httpReply(call, |old(log)|)
    {
      r := httpReply(call, |log|);
      log := log + [call];
    }

    method Clients(realmName: string) returns (r: Result<seq<map<string, Json>>>)
      modifies this
      ensures log == old(log) + [ListClients(realmName)]
      ensures r == clientsReply(ListClients(realmName), |old(log)|)
    {
      r := clientsReply(ListClients(realmName), |log|);
      log := log + [ListClients(realmName)];
    }

    /** `oidc_profile._update_or_create` and `oidc_profile.update_tokens`. */
    method StoreProfile(call: Call) returns (r: Result<Profile>)
      requires call.UpdateOrCreateProfile? || call.UpdateProfileTokens?
      modifies this
      ensures log == old(log) + [call]
      ensures r == profileReply(call, |old(log)|)
    {
      r := profileReply(call, |log|);
      log := log + [call];
    }

    /** `oidc_profile.get_active_access_token`; fails with `TokensExpired` when
        the profile's tokens can no longer be used or refreshed. */
    method ActiveAccessToken(profile: Profile) returns (r: Result<string>)
      modifies this
      ensures log == old(log) + [GetActiveAccessToken(profile)]
      ensures r == accessTokenReply(GetActiveAccessToken(profile), |old(log)|)
    {
      r := accessTokenReply(GetActiveAccessToken(profile), |log|);
      log := log + [GetActiveAccessToken(profile)];
    }
  }
}
