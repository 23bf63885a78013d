/** `django_keycloak/services/client.py`: the OpenID client that remembers
    the realm's discovery document and key set, the UMA resource
    registration client, the lookup of a client's Keycloak id, and the
    service-account token flow (the client-credentials grant of RFC 6749
    section 4.4, with one fresh grant when the stored tokens have expired). */
module ClientService {
  import opened Outcomes
  import opened Json
  import opened Text
  import opened Url
  import opened Environment
  import opened Models
  import opened RealmService

  // ---------------------------------------------------------------- CachedKeycloakOpenID

  /** `CachedKeycloakOpenID`: a python-keycloak client whose `well_known()`
      and `certs()` answer from a cached document while there is one.
      `JNull` stands for a cache that is `None`. */
  class CachedOpenIdClient {
    const config: OpenIdConfig
    var cachedWellKnown: Json
    var cachedCerts: Json

    constructor (config: OpenIdConfig, cachedWellKnown: Json, cachedCerts: Json)
      ensures this.config == config
      ensures this.cachedWellKnown == cachedWellKnown && this.cachedCerts == cachedCerts
    {
      this.config := config;
      this.cachedWellKnown := cachedWellKnown;
      this.cachedCerts := cachedCerts;
    }

    /** The discovery document: the cached one, or one fetched and kept. */
    method WellKnown(env: Env) returns (r: Result<Json>)
      modifies this`cachedWellKnown, env
      ensures old(cachedWellKnown) != JNull ==>
        r == Ok(old(cachedWellKnown)) && env.log == old(env.log) && cachedWellKnown == old(cachedWellKnown)
      ensures old(cachedWellKnown) == JNull ==>
        var reply := env.documentReply(FetchWellKnown(config), |old(env.log)|);
        && env.log == old(env.log) + [FetchWellKnown(config)]
        && r == reply
        && cachedWellKnown == (if reply.Ok? then reply.value else JNull)
    {
      if cachedWellKnown != JNull {
        return Ok(cachedWellKnown);
      }
      r := env.Document(FetchWellKnown(config));
      if r.Ok? {
        cachedWellKnown := r.value;
      }
    }

    /** The realm's key set: the cached one, or one fetched and kept. */
    method Certs(env: Env) returns (r: Result<Json>)
      modifies this`cachedCerts, env
      ensures old(cachedCerts) != JNull ==>
        r == Ok(old(cachedCerts)) && env.log == old(env.log) && cachedCerts == old(cachedCerts)
      ensures old(cachedCerts) == JNull ==>
        var reply := env.documentReply(FetchCerts(config), |old(env.log)|);
        && env.log == old(env.log) + [FetchCerts(config)]
        && r == reply
        && cachedCerts == (if reply.Ok? then reply.value else JNull)
    {
      if cachedCerts != JNull {
        return Ok(cachedCerts);
      }
      r := env.Document(FetchCerts(config));
      if r.Ok? {
        cachedCerts := r.value;
      }
    }

    /** Once a non-null document is held, asking again fetches nothing and
        gives the same answer: two calls fetch at most once. */
    method WellKnownTwice(env: Env) returns (first: Result<Json>, second: Result<Json>)
      modifies this`cachedWellKnown, env
      ensures |env.log| <= |old(env.log)| + 2
      ensures first.Ok? && first.value != JNull ==> second == first
      ensures first.Ok? && first.value != JNull ==> |env.log| <= |old(env.log)| + 1
      ensures old(cachedWellKnown) != JNull ==> env.log == old(env.log) && first == second == Ok(old(cachedWellKnown))
    {
      first := WellKnown(env);
      second := WellKnown(env);
    }
  }

  /** `get_openid_client`: a client for the realm's client, seeded with the
      realm's stored documents (an empty stored document seeds nothing). */
  method OpenIdClientFor(client: Client) returns (openid: CachedOpenIdClient)
    ensures fresh(openid)
    ensures openid.config == OpenIdClientConfig(client.realm.server, client.realm.name, client.clientId, Some(client.secret))
    ensures openid.cachedWellKnown == (if client.realm.wellKnownOidc.Some? then client.realm.wellKnownOidc.value else JNull)
    ensures openid.cachedCerts == (if client.realm.certs.Some? then client.realm.certs.value else JNull)
  {
    var realm := client.realm;
    var config := OpenIdClientConfig(realm.server, realm.name, client.clientId, Some(client.secret));
    openid := new CachedOpenIdClient(config,
      if realm.wellKnownOidc.Some? then realm.wellKnownOidc.value else JNull,
      if realm.certs.Some? then realm.certs.value else JNull);
  }

  // ---------------------------------------------------------------- UMAResourceClient

  const RESOURCE_REGISTRATION_ENDPOINT := "resource_registration_endpoint"

  /** The path of a realm's UMA discovery document. */
  function UmaConfigurationPath(realmName: string): string
  {
    "/realms/" + realmName + "/.well-known/uma-configuration"
  }

  lemma JoinFour(a: string, b: string, c: string, d: string)
    ensures Join("/", [a, b, c, d]) == a + "/" + b + "/" + c + "/" + d
  {
    assert [a, b, c, d][1..] == [b, c, d];
    assert [b, c, d][1..] == [c, d];
    assert [c, d][1..] == [d];
    assert Join("/", [c, d]) == c + "/" + d;
    assert Join("/", [b, c, d]) == b + "/" + (c + "/" + d);
    assert Join("/", [a, b, c, d]) == a + "/" + (b + "/" + (c + "/" + d));
  }

  lemma TrimOneSlash(rel: string)
    requires rel != [] && rel[0] != '/'
    ensures TrimLeft("/" + rel, IsSlash) == rel
  {
    assert ("/" + rel)[1..] == rel;
  }

  lemma UmaSegmentsArePlain(realms: string, wellKnown: string, uma: string)
    requires realms == "realms" && wellKnown == ".well-known" && uma == "uma-configuration"
    ensures PlainSegment(realms) && PlainSegment(wellKnown) && PlainSegment(uma)
  {
  }

  /** Four plain segments behind one leading slash. */
  lemma FourSegmentsArePlain(a: string, b: string, c: string, d: string)
    requires PlainSegment(a) && PlainSegment(b) && PlainSegment(c) && PlainSegment(d)
    ensures PlainRelative(TrimLeft("/" + (a + "/" + b + "/" + c + "/" + d), IsSlash))
  {
    var rel := a + "/" + b + "/" + c + "/" + d;
    TrimOneSlash(rel);
    JoinFour(a, b, c, d);
    JoinedSegmentsArePlain([a, b, c, d]);
  }

  /** For a realm name that is one plain path segment, the discovery path is
      a plain relative path once its leading slash is removed. */
  lemma UmaConfigurationPathIsPlain(realmName: string)
    requires PlainSegment(realmName)
    ensures PlainRelative(TrimLeft(UmaConfigurationPath(realmName), IsSlash))
  {
    var realms, wellKnown, uma := "realms", ".well-known", "uma-configuration";
    UmaPathParts("/realms/", realmName, "/.well-known/uma-configuration", realms, wellKnown, uma);
    UmaSegmentsArePlain(realms, wellKnown, uma);
    FourSegmentsArePlain(realms, realmName, wellKnown, uma);
  }

  /** A path made of a head `/...` that does not start with `//`, then the
      rest, lands below the base URL as it is. */
  lemma EndpointOfParts(server: Server, head: string, relHead: string, name: string, tail: string)
    requires head == "/" + relHead && relHead != [] && relHead[0] != '/'
    requires PlainRelative(TrimLeft(head + name + tail, IsSlash))
    ensures BuildEndpoint(server, head + name + tail) == ServerConfig(server).0 + head + name + tail
  {
    var path := head + name + tail;
    var rel := relHead + name + tail;
    assert path == "/" + rel;
    TrimOneSlash(rel);
    var base := ServerConfig(server).0;
    assert BuildEndpoint(server, path) == base + "/" + rel;
    ConcatAssoc(base, "/", rel);
    ConcatAssoc(base, head + name, tail);
    ConcatAssoc(base, head, name);
  }

  lemma ConcatAssoc(a: string, b: string, c: string)
    ensures a + b + c == a + (b + c)
  {
  }

  lemma UmaHeadSplit(head: string, relHead: string)
    requires head == "/realms/" && relHead == "realms/"
    ensures head == "/" + relHead && relHead != [] && relHead[0] != '/'
  {
  }

  lemma UmaPathParts(head: string, realmName: string, tail: string, realms: string, wellKnown: string, uma: string)
    requires head == "/realms/" && tail == "/.well-known/uma-configuration"
    requires realms == "realms" && wellKnown == ".well-known" && uma == "uma-configuration"
    ensures head + realmName + tail == "/" + (realms + "/" + realmName + "/" + wellKnown + "/" + uma)
  {
    UmaPathHead(head, realms);
    UmaPathTail(tail, wellKnown, uma);
  }

  lemma UmaPathHead(head: string, realms: string)
    requires head == "/realms/" && realms == "realms"
    ensures head == "/" + realms + "/"
  {
  }

  lemma UmaPathTail(tail: string, wellKnown: string, uma: string)
    requires tail == "/.well-known/uma-configuration"
    requires wellKnown == ".well-known" && uma == "uma-configuration"
    ensures tail == "/" + wellKnown + "/" + uma
  {
  }

  /** The headers of a registration request: bearer authorisation and a
      JSON content type, with the realm's own headers put over them. */
  function RegistrationHeaders(token: string, realmHeaders: map<string, string>): (h: map<string, string>)
    ensures h.Keys == {"Authorization", "Content-Type"} + realmHeaders.Keys
    ensures forall k | k in realmHeaders :: h[k] == realmHeaders[k]
    ensures "Authorization" !in realmHeaders ==> h["Authorization"] == "Bearer " + token
    ensures "Content-Type" !in realmHeaders ==> h["Content-Type"] == "application/json"
  {
    map["Authorization" := "Bearer " + token, "Content-Type" := "application/json"] + realmHeaders
  }

  /** The body of a registration request: the name, then the extra
      attributes. */
  function RegistrationPayload(name: string, attributes: map<string, Json>): (p: map<string, Json>)
    requires "name" !in attributes
    ensures p.Keys == {"name"} + attributes.Keys
    ensures p["name"] == JStr(name)
    ensures forall k | k in attributes :: p[k] == attributes[k]
  {
    map["name" := JStr(name)] + attributes
  }

  /** `response.raise_for_status()` followed by `response.json()`. */
  function JsonBody(reply: Result<HttpResponse>): (r: Result<Json>)
    ensures reply.Err? ==> r == Err(reply.error)
    ensures reply.Ok? && !IsSuccess(reply.value) ==> r == Err(HttpStatus(reply.value.status))
    ensures r.Ok? <==> reply.Ok? && IsSuccess(reply.value) && reply.value.body.Some?
    ensures r.Ok? ==> r.value == reply.value.body.value
  {
    match reply
    case Err(e) => Err(e)
    case Ok(response) =>
      if !IsSuccess(response) then Err(HttpStatus(response.status))
      else if response.body.None? then Err(InvalidJson)
      else Ok(response.body.value)
  }

  /** The end of `resource_set_create`: a failed status is an error, an empty
      body is `None`, anything else is the parsed body. */
  function CreatedResource(reply: Result<HttpResponse>): (r: Result<Json>)
    ensures reply.Ok? && IsSuccess(reply.value) && reply.value.content == "" ==> r == Ok(JNull)
    ensures reply.Ok? && IsSuccess(reply.value) && reply.value.content != "" ==> r == JsonBody(reply)
    ensures !(reply.Ok? && IsSuccess(reply.value)) ==> r == JsonBody(reply)
  {
    match reply
    case Err(e) => Err(e)
    case Ok(response) =>
      if !IsSuccess(response) then Err(HttpStatus(response.status))
      else if response.content == "" then Ok(JNull)
      else JsonBody(reply)
  }

  /** The registration endpoint named by a UMA discovery document. */
  function RegistrationEndpoint(config: Json): (r: Result<string>)
    ensures Index(config, RESOURCE_REGISTRATION_ENDPOINT).Err? ==> r == Err(Index(config, RESOURCE_REGISTRATION_ENDPOINT).error)
    ensures r.Ok? <==> Index(config, RESOURCE_REGISTRATION_ENDPOINT).Ok? && Index(config, RESOURCE_REGISTRATION_ENDPOINT).value.JStr?
    ensures r.Ok? ==> config.JObj? && config.fields[RESOURCE_REGISTRATION_ENDPOINT] == JStr(r.value)
  {
    match Index(config, RESOURCE_REGISTRATION_ENDPOINT)
    case Err(e) => Err(e)
    case Ok(endpoint) => if endpoint.JStr? then Ok(endpoint.s) else Err(NotAString)
  }

  /** `UMAResourceClient`: the realm it registers resources in, the UMA
      discovery document once fetched (`JNull` until then), and the base URL
      and headers taken from the realm when the client is made. */
  class UmaResourceClient {
    const realm: Realm
    var config: Json
    const baseUrl: string
    const headers: map<string, string>

    constructor (realm: Realm)
      ensures this.realm == realm && config == JNull
      ensures baseUrl == ServerConfig(realm.server).0 + "/" && headers == ServerConfig(realm.server).1
    {
      this.realm := realm;
      this.config := JNull;
      var (serverUrl, realmHeaders) := ServerConfig(realm.server);
      this.baseUrl := serverUrl + "/";
      this.headers := realmHeaders;
    }

    /** The request for the realm's UMA discovery document. */
    function ConfigRequest(): (call: Call)
      reads realm
      requires PlainSegment(realm.name)
      ensures call == HttpGet(ServerConfig(realm.server).0 + "/realms/" + realm.name + "/.well-known/uma-configuration", headers)
    {
      UmaConfigurationPathIsPlain(realm.name);
      UmaHeadSplit("/realms/", "realms/");
      EndpointOfParts(realm.server, "/realms/", "realms/", realm.name, "/.well-known/uma-configuration");
      HttpGet(BuildEndpoint(realm.server, UmaConfigurationPath(realm.name)), headers)
    }

    /** `_get_config`: the discovery document, fetched by one GET only while
        none is held. */
    method GetConfig(env: Env) returns (r: Result<Json>)
      requires PlainSegment(realm.name)
      modifies this`config, env
      ensures old(config) != JNull ==> r == Ok(old(config)) && config == old(config) && env.log == old(env.log)
      ensures old(config) == JNull ==>
        var reply := env.httpReply(ConfigRequest(), |old(env.log)|);
        && env.log == old(env.log) + [ConfigRequest()]
        && r == JsonBody(reply)
        && config == (if r.Ok? then r.value else JNull)
    {
      if config == JNull {
        var response := env.Http(ConfigRequest());
        var body := JsonBody(response);
        if body.Err? {
          return Err(body.error);
        }
        config := body.value;
      }
      r := Ok(config);
    }

    /** `resource_set_create`: look the registration endpoint up in the
        discovery document (fetching it at most once), POST the name and the
        extra attributes to it with the merged headers, and read the reply.
        Python refuses a second `name` among the keyword arguments. */
    method ResourceSetCreate(env: Env, token: string, name: string, attributes: map<string, Json>)
      returns (r: Result<Json>)
      requires PlainSegment(realm.name)
      requires "name" !in attributes
      modifies this`config, env
      ensures var fetched := old(config) == JNull;
        var configured := if fetched then JsonBody(env.httpReply(ConfigRequest(), |old(env.log)|)) else Ok(old(config));
        var afterConfig := if fetched then old(env.log) + [ConfigRequest()] else old(env.log);
        && config == (if configured.Ok? then configured.value else JNull)
        && (configured.Err? ==> r == Err(configured.error) && env.log == afterConfig)
        && (configured.Ok? && RegistrationEndpoint(configured.value).Err? ==>
              r == Err(RegistrationEndpoint(configured.value).error) && env.log == afterConfig)
        && (configured.Ok? && RegistrationEndpoint(configured.value).Ok? ==>
              var post := HttpPost(RegistrationEndpoint(configured.value).value,
                                   RegistrationHeaders(token, headers),
                                   RegistrationPayload(name, attributes));
              && env.log == afterConfig + [post]
              && r == CreatedResource(env.httpReply(post, |afterConfig|)))
    {
      var configured := GetConfig(env);
      if configured.Err? {
        return Err(configured.error);
      }
      var endpoint := RegistrationEndpoint(configured.value);
      if endpoint.Err? {
        return Err(endpoint.error);
      }
      var requestHeaders := RegistrationHeaders(token, headers);
      var payload := RegistrationPayload(name, attributes);
      var response := env.Http(HttpPost(endpoint.value, requestHeaders, payload));
      r := CreatedResource(response);
    }
  }

  /** A registration request made behind an internal URL carries the token,
      the JSON content type and the proxy headers naming the public server. */
  lemma RegistrationHeadersBehindProxy(server: Server, token: string)
    requires HasInternalUrl(server) && Scheme(server.url) == "https"
    ensures var h := RegistrationHeaders(token, ServerConfig(server).1);
      && h["Authorization"] == "Bearer " + token
      && h["Content-Type"] == "application/json"
      && h[HOST] == Netloc(server.url)
      && h[FORWARDED_PROTO] == "https"
  {
    var realmHeaders := ServerConfig(server).1;
    assert "Authorization" !in realmHeaders && "Content-Type" !in realmHeaders by {
      assert realmHeaders.Keys <= {HOST, FORWARDED_PROTO};
    }
  }

  // ---------------------------------------------------------------- get_keycloak_id

  /** Python's `client.get("clientId") == client_id`: only a JSON string equal
      to the client id matches. */
  predicate IsClientNamed(listed: map<string, Json>, clientId: string)
  {
    Get(listed, "clientId") == JStr(clientId)
  }

  /** The search loop of `get_keycloak_id`: the `id` of the first listed
      client whose `clientId` is the wanted one, or `None` (`JNull`). */
  method FindKeycloakId(clients: seq<map<string, Json>>, clientId: string) returns (id: Json)
    ensures (forall k | 0 <= k < |clients| :: !IsClientNamed(clients[k], clientId)) ==> id == JNull
    ensures forall k | 0 <= k < |clients| && IsClientNamed(clients[k], clientId)
                       && (forall j | 0 <= j < k :: !IsClientNamed(clients[j], clientId)) ::
              id == Get(clients[k], "id")
  {
    for i := 0 to |clients|
      invariant forall j | 0 <= j < i :: !IsClientNamed(clients[j], clientId)
    {
      if Get(clients[i], "clientId") == JStr(clientId) {
        return Get(clients[i], "id");
      }
    }
    return JNull;
  }

  /** `get_keycloak_id`: list the realm's clients through the admin API and
      search them. */
  method GetKeycloakId(client: Client, env: Env) returns (r: Result<Json>)
    modifies env
    ensures var clients := env.clientsReply(ListClients(client.realm.name), |old(env.log)|);
      && env.log == old(env.log) + [ListClients(client.realm.name)]
      && (clients.Err? ==> r == Err(clients.error))
      && (clients.Ok? ==> (
          && r.Ok?
          && ((forall k | 0 <= k < |clients.value| :: !IsClientNamed(clients.value[k], client.clientId)) ==> r.value == JNull)
          && (forall k | 0 <= k < |clients.value| && IsClientNamed(clients.value[k], client.clientId)
                         && (forall j | 0 <= j < k :: !IsClientNamed(clients.value[j], client.clientId)) ::
                r.value == Get(clients.value[k], "id"))))
  {
    var clients := env.Clients(client.realm.name);
    if clients.Err? {
      return Err(clients.error);
    }
    var id := FindKeycloakId(clients.value, client.clientId);
    r := Ok(id);
  }

  // ---------------------------------------------------------------- service-account tokens

  const CLIENT_CREDENTIALS := "client_credentials"
  const SERVICE_ACCOUNT_SCOPE := "realm-management openid"

  /** The token request of the service account: a client-credentials grant
      for the realm-management and openid scopes. */
  function GrantRequest(clientId: string): (call: Call)
    ensures call.RequestToken? && call.clientId == clientId
    ensures call.grantType == "client_credentials" && call.scope == "realm-management openid"
  {
    RequestToken(clientId, CLIENT_CREDENTIALS, SERVICE_ACCOUNT_SCOPE)
  }

  /** How many token requests a log holds. */
  function GrantCount(log: seq<Call>): (n: nat)
    ensures n <= |log|
    decreases |log|
  {
    if log == [] then 0 else GrantCount(log[..|log| - 1]) + (if log[|log| - 1].RequestToken? then 1 else 0)
  }

  lemma {:induction false} GrantCountAppend(log: seq<Call>, more: seq<Call>)
    ensures GrantCount(log + more) == GrantCount(log) + GrantCount(more)
    decreases |more|
  {
    if more == [] {
      assert log + more == log;
    } else {
      var front := more[..|more| - 1];
      assert (log + more)[..|log + more| - 1] == log + front;
      GrantCountAppend(log, front);
    }
  }

  /** `get_new_access_token`: read the clock, then ask for a
      client-credentials token; the time is taken before the request. */
  method GetNewAccessToken(client: Client, env: Env) returns (r: Result<(Json, int)>)
    modifies env
    ensures var n := |old(env.log)|;
      var reply := env.documentReply(GrantRequest(client.clientId), n + 1);
      && env.log == old(env.log) + [ReadClock, GrantRequest(client.clientId)]
      && (reply.Ok? ==> r == Ok((reply.value, env.clock(n))))
      && (reply.Err? ==> r == Err(reply.error))
  {
    var initiateTime := env.Now();
    var tokenResponse := env.Document(GrantRequest(client.clientId));
    if tokenResponse.Err? {
      return Err(tokenResponse.error);
    }
    r := Ok((tokenResponse.value, initiateTime));
  }

  /** What a fresh service-account token is used for: making the client's
      profile, or updating the tokens of an existing one. */
  datatype ProfileStore = CreateProfile(clientId: string) | UpdateTokens(profile: Profile)

  /** The profile operation that receives the token response. */
  function StoreCall(store: ProfileStore, tokenResponse: Json, initiateTime: int): (call: Call)
    ensures call.UpdateOrCreateProfile? || call.UpdateProfileTokens?
  {
    match store
    case CreateProfile(clientId) => UpdateOrCreateProfile(clientId, tokenResponse, initiateTime)
    case UpdateTokens(profile) => UpdateProfileTokens(profile, tokenResponse, initiateTime)
  }

  /** The log and result of a fresh grant followed by one profile operation
      that receives the token response and the time taken before the grant. */
  ghost predicate GrantThenStore(env: Env, clientId: string, store: ProfileStore,
                                 before: seq<Call>, after: seq<Call>, r: Result<Profile>)
  {
    var n := |before|;
    var reply := env.documentReply(GrantRequest(clientId), n + 1);
    if reply.Err? then
      after == before + [ReadClock, GrantRequest(clientId)] && r == Err(reply.error)
    else
      var call := StoreCall(store, reply.value, env.clock(n));
      after == before + [ReadClock, GrantRequest(clientId), call]
      && r == env.profileReply(call, n + 2)
  }

  /** A grant-then-store sequence makes exactly one token request. */
  lemma GrantThenStoreGrantsOnce(env: Env, clientId: string, store: ProfileStore,
                                 before: seq<Call>, after: seq<Call>, r: Result<Profile>)
    requires GrantThenStore(env, clientId, store, before, after, r)
    ensures GrantCount(after) == GrantCount(before) + 1
  {
    var reply := env.documentReply(GrantRequest(clientId), |before| + 1);
    if reply.Err? {
      GrantCountAppend(before, [ReadClock, GrantRequest(clientId)]);
      assert [ReadClock, GrantRequest(clientId)][..1] == [ReadClock];
      assert [ReadClock][..0] == [];
    } else {
      var call := StoreCall(store, reply.value, env.clock(|before|));
      var extra := [ReadClock, GrantRequest(clientId), call];
      GrantCountAppend(before, extra);
      assert !call.RequestToken?;
      assert extra[..2] == [ReadClock, GrantRequest(clientId)];
      assert [ReadClock, GrantRequest(clientId)][..1] == [ReadClock];
      assert [ReadClock][..0] == [];
      assert GrantCount([ReadClock, GrantRequest(clientId)]) == 1;
      assert GrantCount(extra) == 1;
    }
  }

  /** `get_service_account_profile`: the client's profile when it has one;
      otherwise one fresh grant, a profile made from it, stored on the client
      and saved as `service_account_profile` alone. */
  method GetServiceAccountProfile(client: Client, env: Env) returns (r: Result<Profile>)
    modifies client`serviceAccountProfile, client`saved, env
    ensures old(client.serviceAccountProfile).Some? ==>
      && r == Ok(old(client.serviceAccountProfile).value)
      && env.log == old(env.log)
      && client.serviceAccountProfile == old(client.serviceAccountProfile) && client.saved == old(client.saved)
    ensures old(client.serviceAccountProfile).None? ==>
      && GrantThenStore(env, client.clientId, CreateProfile(client.clientId), old(env.log), env.log, r)
      && (r.Ok? ==> client.serviceAccountProfile == Some(r.value)
                    && client.saved == old(client.saved) + ["service_account_profile"])
      && (r.Err? ==> client.serviceAccountProfile == None && client.saved == old(client.saved))
      && GrantCount(env.log) == GrantCount(old(env.log)) + 1
  {
    if client.serviceAccountProfile.Some? {
      return Ok(client.serviceAccountProfile.value);
    }
    var granted := GetNewAccessToken(client, env);
    if granted.Err? {
      GrantThenStoreGrantsOnce(env, client.clientId, CreateProfile(client.clientId), old(env.log), env.log, Err(granted.error));
      return Err(granted.error);
    }
    var (tokenResponse, initiateTime) := granted.value;
    var created := env.StoreProfile(UpdateOrCreateProfile(client.clientId, tokenResponse, initiateTime));
    GrantThenStoreGrantsOnce(env, client.clientId, CreateProfile(client.clientId), old(env.log), env.log, created);
    if created.Err? {
      return Err(created.error);
    }
    client.serviceAccountProfile := Some(created.value);
    client.saved := client.saved + ["service_account_profile"];
    r := Ok(created.value);
  }

  /** The `try`/`except TokensExpired` part of `get_access_token`, from the
      log `before` it starts on: the active token when there is one; on
      `TokensExpired` one fresh grant, the profile's tokens updated, and the
      new access token; any other failure passed on. */
  ghost predicate ActiveOrRenewed(env: Env, clientId: string, profile: Profile,
                                  before: seq<Call>, after: seq<Call>, r: Result<string>)
  {
    var active := env.accessTokenReply(GetActiveAccessToken(profile), |before|);
    var asked := before + [GetActiveAccessToken(profile)];
    if active.Ok? then after == asked && r == active
    else if active.error != TokensExpired then after == asked && r == Err(active.error)
    else exists updated: Result<Profile> ::
      && GrantThenStore(env, clientId, UpdateTokens(profile), asked, after, updated)
      && r == (if updated.Ok? then Ok(updated.value.accessToken) else Err(updated.error))
  }

  /** A token that is still active needs no grant; an expired one needs
      exactly one, whatever happens next. */
  lemma ActiveOrRenewedGrants(env: Env, clientId: string, profile: Profile,
                              before: seq<Call>, after: seq<Call>, r: Result<string>)
    requires ActiveOrRenewed(env, clientId, profile, before, after, r)
    ensures var active := env.accessTokenReply(GetActiveAccessToken(profile), |before|);
      GrantCount(after) == GrantCount(before) + (if active == Err(TokensExpired) then 1 else 0)
  {
    var active := env.accessTokenReply(GetActiveAccessToken(profile), |before|);
    var asked := before + [GetActiveAccessToken(profile)];
    GrantCountAppend(before, [GetActiveAccessToken(profile)]);
    assert [GetActiveAccessToken(profile)][..0] == [];
    if active == Err(TokensExpired) {
      var updated: Result<Profile> :| GrantThenStore(env, clientId, UpdateTokens(profile), asked, after, updated)
        && r == (if updated.Ok? then Ok(updated.value.accessToken) else Err(updated.error));
      GrantThenStoreGrantsOnce(env, clientId, UpdateTokens(profile), asked, after, updated);
    }
  }

  method ActiveOrRenewedToken(client: Client, profile: Profile, env: Env) returns (r: Result<string>)
    modifies env
    ensures ActiveOrRenewed(env, client.clientId, profile, old(env.log), env.log, r)
    ensures var active := env.accessTokenReply(GetActiveAccessToken(profile), |old(env.log)|);
      GrantCount(env.log) == GrantCount(old(env.log)) + (if active == Err(TokensExpired) then 1 else 0)
  {
    var active := env.ActiveAccessToken(profile);
    if active.Ok? || active.error != TokensExpired {
      r := active;
    } else {
      ghost var asked := env.log;
      var granted := GetNewAccessToken(client, env);
      if granted.Err? {
        assert GrantThenStore(env, client.clientId, UpdateTokens(profile), asked, env.log, Err(granted.error));
        r := Err(granted.error);
      } else {
        var (tokenResponse, initiateTime) := granted.value;
        var updated := env.StoreProfile(UpdateProfileTokens(profile, tokenResponse, initiateTime));
        assert GrantThenStore(env, client.clientId, UpdateTokens(profile), asked, env.log, updated);
        r := if updated.Ok? then Ok(updated.value.accessToken) else Err(updated.error);
      }
    }
    ActiveOrRenewedGrants(env, client.clientId, profile, old(env.log), env.log, r);
  }

  /** `get_access_token`: the service-account profile (made first when the
      client has none), then its active token or, once, a renewed one. */
  method GetAccessToken(client: Client, env: Env) returns (r: Result<string>)
    modifies client`serviceAccountProfile, client`saved, env
    ensures old(client.serviceAccountProfile).Some? ==>
      && client.serviceAccountProfile == old(client.serviceAccountProfile) && client.saved == old(client.saved)
      && ActiveOrRenewed(env, client.clientId, old(client.serviceAccountProfile).value, old(env.log), env.log, r)
    ensures old(client.serviceAccountProfile).None? ==>
      exists created: Result<Profile>, middle: seq<Call> ::
        && GrantThenStore(env, client.clientId, CreateProfile(client.clientId), old(env.log), middle, created)
        && (created.Err? ==> r == Err(created.error) && env.log == middle
                             && client.serviceAccountProfile == None && client.saved == old(client.saved))
        && (created.Ok? ==> client.serviceAccountProfile == Some(created.value)
                            && client.saved == old(client.saved) + ["service_account_profile"]
                            && ActiveOrRenewed(env, client.clientId, created.value, middle, env.log, r))
    ensures old(client.serviceAccountProfile).Some? ==>
      var active := env.accessTokenReply(GetActiveAccessToken(old(client.serviceAccountProfile).value), |old(env.log)|);
      GrantCount(env.log) == GrantCount(old(env.log)) + (if active == Err(TokensExpired) then 1 else 0)
    ensures old(client.serviceAccountProfile).None? ==>
      GrantCount(old(env.log)) + 1 <= GrantCount(env.log) <= GrantCount(old(env.log)) + 2
  {
    var profile := GetServiceAccountProfile(client, env);
    ghost var middle := env.log;
    if profile.Err? {
      return Err(profile.error);
    }
    r := ActiveOrRenewedToken(client, profile.value, env);
  }

  // ---------------------------------------------------------------- build_jwk_set

  /** `build_jwk_set`, up to the key-set parsing: the realm's stored key set,
      refreshed first only when none is stored. */
  method BuildJwkSet(realm: Realm, env: Env) returns (r: Result<Json>)
    modifies realm`certs, realm`saved, env
    ensures old(realm.certs).Some? ==>
      r == Ok(old(realm.certs).value) && env.log == old(env.log)
      && realm.certs == old(realm.certs) && realm.saved == old(realm.saved)
    ensures old(realm.certs).None? ==>
      var client := realm.client;
      var openid := OpenIdClientConfig(realm.server, realm.name,
                                       if client == null then "" else client.clientId,
                                       if client == null then None else Some(client.secret));
      var reply := env.documentReply(FetchCerts(openid), |old(env.log)|);
      && env.log == old(env.log) + [FetchCerts(openid)]
      && r == reply
      && (reply.Ok? ==> realm.certs == Some(reply.value) && realm.saved == old(realm.saved) + ["_certs"])
      && (reply.Err? ==> realm.certs == None && realm.saved == old(realm.saved))
  {
    if realm.certs.None? {
      var refreshed := RefreshCerts(realm, env);
      if refreshed.Err? {
        return Err(refreshed.error);
      }
    }
    r := Ok(realm.certs.value);
  }
}
