/** `django_keycloak/services/realm.py`: where a realm's server is reached,
    which proxy headers go with each request, how the cached discovery
    document and key set are refreshed, and the issuer tokens are checked
    against. */
module RealmService {
  import opened Outcomes
  import opened Json
  import opened Text
  import opened Url
  import opened Environment
  import opened Models

  const HOST := "Host"
  const FORWARDED_PROTO := "X-Forwarded-Proto"

  /** `get_realm_server_config`: the base URL requests go to and the headers
      they carry. The fresh `headers` dict of the source is filled by the same
      two conditional insertions. */
  function ServerConfig(server: Server): (r: (string, map<string, string>))
    ensures !HasInternalUrl(server) ==> r.0 == TrimRight(server.url, IsSlash) && r.1 == map[]
    ensures HasInternalUrl(server) ==> r.0 == TrimRight(server.internalUrl.value, IsSlash)
    ensures r.0 == [] || r.0[|r.0| - 1] != '/'
    ensures r.1.Keys <= {HOST, FORWARDED_PROTO}
    ensures HOST in r.1 <==> HasInternalUrl(server)
    ensures HOST in r.1 ==> r.1[HOST] == Netloc(server.url)
    ensures FORWARDED_PROTO in r.1 <==> HasInternalUrl(server) && Scheme(server.url) == "https"
    ensures FORWARDED_PROTO in r.1 ==> r.1[FORWARDED_PROTO] == "https"
  {
    var headers: map<string, string> := map[];
    var serverUrl := TrimRight(server.url, IsSlash);
    if HasInternalUrl(server) then
      var serverUrl := TrimRight(server.internalUrl.value, IsSlash);
      var headers := headers[HOST := Netloc(server.url)];
      var headers := if Scheme(server.url) == "https" then headers[FORWARDED_PROTO := "https"] else headers;
      (serverUrl, headers)
    else
      (serverUrl, headers)
  }

  /** `_build_openid_client`: a client rooted at the base URL plus `/`,
      carrying the proxy headers, or none when there are none. */
  function OpenIdClientConfig(server: Server, realmName: string, clientId: string, secret: Option<string>): (c: OpenIdConfig)
    ensures var (base, headers) := ServerConfig(server);
      && c.serverUrl == base + "/"
      && c.realmName == realmName && c.clientId == clientId && c.clientSecret == secret
      && (c.customHeaders.None? <==> headers == map[])
      && (c.customHeaders.Some? ==> c.customHeaders.value == headers)
  {
    var (serverUrl, headers) := ServerConfig(server);
    OpenIdConfig(serverUrl + "/", realmName, clientId, secret, if headers == map[] then None else Some(headers))
  }

  /** The proxy headers are sent exactly when an internal URL is configured. */
  lemma CustomHeadersOnlyForInternalUrl(server: Server, realmName: string, clientId: string, secret: Option<string>)
    ensures OpenIdClientConfig(server, realmName, clientId, secret).customHeaders.Some? <==> HasInternalUrl(server)
  {
    var headers := ServerConfig(server).1;
    if HasInternalUrl(server) {
      assert HOST in headers;
    }
  }

  /** `build_endpoint`: the path, its leading slashes removed, joined below the
      base URL. `urljoin` is modelled for plain relative paths only, and the
      base is taken as it is, without the rewriting `urljoin` does to it. */
  function BuildEndpoint(server: Server, path: string): (url: string)
    requires PlainRelative(TrimLeft(path, IsSlash))
    ensures var base := ServerConfig(server).0;
      |base| < |url| && url[..|base| + 1] == base + "/" && PlainRelative(url[|base| + 1..])
  {
    ServerConfig(server).0 + "/" + TrimLeft(path, IsSlash)
  }

  /** The endpoint is the base URL, one `/`, then the path with no slash in
      front of it; the base is the internal URL when one is set. */
  lemma EndpointShape(server: Server, path: string)
    requires PlainRelative(TrimLeft(path, IsSlash))
    ensures var base := ServerConfig(server).0;
      var url := BuildEndpoint(server, path);
      && |url| > |base|
      && url[..|base|] == (if HasInternalUrl(server) then TrimRight(server.internalUrl.value, IsSlash)
                           else TrimRight(server.url, IsSlash))
      && url[|base|] == '/'
      && url[|base| + 1..] == path[|path| - (|url| - |base| - 1)..]
      && (forall i | 0 <= i < |path| - (|url| - |base| - 1) :: path[i] == '/')
      && (|url| > |base| + 1 ==> url[|base| + 1] != '/')
  {
    var base := ServerConfig(server).0;
    var rel := TrimLeft(path, IsSlash);
    var url := BuildEndpoint(server, path);
    assert url == base + "/" + rel;
    assert url[..|base|] == base;
    assert url[|base| + 1..] == rel;
    assert |url| - |base| - 1 == |rel|;
    assert forall i | 0 <= i < |path| - |rel| :: IsSlash(path[i]);
  }

  /** Leading slashes on the path make no difference. */
  lemma EndpointIgnoresLeadingSlash(server: Server, path: string)
    requires PlainRelative(TrimLeft(path, IsSlash))
    ensures TrimLeft("/" + path, IsSlash) == TrimLeft(path, IsSlash)
    ensures BuildEndpoint(server, "/" + path) == BuildEndpoint(server, path)
  {
    var p := "/" + path;
    assert p[1..] == path;
    assert Span(p, IsSlash) == 1 + Span(path, IsSlash);
    assert p[1 + Span(path, IsSlash)..] == path[Span(path, IsSlash)..];
  }

  /** The issuer that tokens are checked against, from a discovery document:
      its `issuer`, with the first occurrence of the internal base URL replaced
      by the public one when an internal URL is set. */
  function IssuerOf(server: Server, doc: Json): (r: Result<Json>)
    ensures Index(doc, "issuer").Err? ==> r == Err(Index(doc, "issuer").error)
    ensures Index(doc, "issuer").Ok? && !HasInternalUrl(server) ==> r == Index(doc, "issuer")
    ensures r.Ok? && HasInternalUrl(server) ==> r.value.JStr? && Index(doc, "issuer").value.JStr?
  {
    match Index(doc, "issuer")
    case Err(e) => Err(e)
    case Ok(issuer) =>
      if HasInternalUrl(server) then
        match issuer
        case JStr(s) =>
          Ok(JStr(ReplaceFirst(s, TrimRight(server.internalUrl.value, IsSlash), TrimRight(server.url, IsSlash))))
        case _ => Err(NotAString)
      else
        Ok(issuer)
  }

  /** With an internal URL, an issuer that starts with the internal base URL
      is reported under the public base URL, the rest kept. */
  lemma IssuerUnderInternalUrl(server: Server, suffix: string)
    requires HasInternalUrl(server)
    ensures var internal := TrimRight(server.internalUrl.value, IsSlash);
      var public := TrimRight(server.url, IsSlash);
      IssuerOf(server, JObj(map["issuer" := JStr(internal + suffix)])) == Ok(JStr(public + suffix))
  {
    ReplaceFirstOfPrefix(TrimRight(server.internalUrl.value, IsSlash), TrimRight(server.url, IsSlash), suffix);
  }

  /** With an internal URL, the first occurrence of the internal base URL in
      the issuer, wherever it is, is replaced by the public base URL. */
  lemma IssuerFirstOccurrence(server: Server, issuer: string, i: nat)
    requires HasInternalUrl(server)
    requires OccursAt(issuer, TrimRight(server.internalUrl.value, IsSlash), i)
    requires forall j | 0 <= j < i :: !OccursAt(issuer, TrimRight(server.internalUrl.value, IsSlash), j)
    ensures var internal := TrimRight(server.internalUrl.value, IsSlash);
      IssuerOf(server, JObj(map["issuer" := JStr(issuer)]))
        == Ok(JStr(issuer[..i] + TrimRight(server.url, IsSlash) + issuer[i + |internal|..]))
  {
    IssuerOfString(server, issuer);
    ReplaceFirstAt(issuer, TrimRight(server.internalUrl.value, IsSlash), TrimRight(server.url, IsSlash), i);
  }

  lemma IssuerOfString(server: Server, issuer: string)
    requires HasInternalUrl(server)
    ensures IssuerOf(server, JObj(map["issuer" := JStr(issuer)]))
      == Ok(JStr(ReplaceFirst(issuer, TrimRight(server.internalUrl.value, IsSlash), TrimRight(server.url, IsSlash))))
  {
    assert Index(JObj(map["issuer" := JStr(issuer)]), "issuer") == Ok(JStr(issuer));
  }

  /** An issuer in which the internal base URL does not occur is kept as it is. */
  lemma IssuerWithoutInternalOccurrence(server: Server, issuer: string)
    requires HasInternalUrl(server)
    requires forall j | 0 <= j <= |issuer| :: !OccursAt(issuer, TrimRight(server.internalUrl.value, IsSlash), j)
    ensures IssuerOf(server, JObj(map["issuer" := JStr(issuer)])) == Ok(JStr(issuer))
  {
  }

  /** `refresh_certs`: fetch the key set through a client for the realm's own
      client (or an anonymous one), store it whole, and save only `_certs`.
      A failed fetch leaves the realm untouched. */
  method RefreshCerts(realm: Realm, env: Env) returns (r: Result<()>)
    modifies realm`certs, realm`saved, env
    ensures var client := realm.client;
      var openid := OpenIdClientConfig(realm.server, realm.name,
                                       if client == null then "" else client.clientId,
                                       if client == null then None else Some(client.secret));
      var reply := env.documentReply(FetchCerts(openid), |old(env.log)|);
      && env.log == old(env.log) + [FetchCerts(openid)]
      && (reply.Ok? ==> r == Ok(()) && realm.certs == Some(reply.value) && realm.saved == old(realm.saved) + ["_certs"])
      && (reply.Err? ==> r == Err(reply.error) && realm.certs == old(realm.certs) && realm.saved == old(realm.saved))
  {
    var client := realm.client;
    var openid := OpenIdClientConfig(realm.server, realm.name,
                                     if client == null then "" else client.clientId,
                                     if client == null then None else Some(client.secret));
    var fetched := env.Document(FetchCerts(openid));
    match fetched
    case Err(e) =>
      r := Err(e);
    case Ok(doc) =>
      realm.certs := Some(doc);
      realm.saved := realm.saved + ["_certs"];
      r := Ok(());
  }

  /** `refresh_well_known_oidc`: fetch the discovery document through an
      anonymous client, store it whole, and save only `_well_known_oidc`. */
  method RefreshWellKnownOidc(realm: Realm, env: Env) returns (r: Result<()>)
    modifies realm`wellKnownOidc, realm`saved, env
    ensures var openid := OpenIdClientConfig(realm.server, realm.name, "", None);
      var reply := env.documentReply(FetchWellKnown(openid), |old(env.log)|);
      && env.log == old(env.log) + [FetchWellKnown(openid)]
      && (reply.Ok? ==> r == Ok(()) && realm.wellKnownOidc == Some(reply.value)
                        && realm.saved == old(realm.saved) + ["_well_known_oidc"])
      && (reply.Err? ==> r == Err(reply.error) && realm.wellKnownOidc == old(realm.wellKnownOidc)
                         && realm.saved == old(realm.saved))
  {
    var openid := OpenIdClientConfig(realm.server, realm.name, "", None);
    var fetched := env.Document(FetchWellKnown(openid));
    match fetched
    case Err(e) =>
      r := Err(e);
    case Ok(doc) =>
      realm.wellKnownOidc := Some(doc);
      realm.saved := realm.saved + ["_well_known_oidc"];
      r := Ok(());
  }

  /** `get_issuer`: the discovery document is fetched only when none is
      cached; the issuer is then read from the cached document. */
  method GetIssuer(realm: Realm, env: Env) returns (r: Result<Json>)
    modifies realm`wellKnownOidc, realm`saved, env
    ensures old(realm.wellKnownOidc).Some? ==>
      && env.log == old(env.log)
      && realm.wellKnownOidc == old(realm.wellKnownOidc) && realm.saved == old(realm.saved)
      && r == IssuerOf(realm.server, realm.wellKnownOidc.value)
    ensures old(realm.wellKnownOidc).None? ==>
      var openid := OpenIdClientConfig(realm.server, realm.name, "", None);
      var reply := env.documentReply(FetchWellKnown(openid), |old(env.log)|);
      && env.log == old(env.log) + [FetchWellKnown(openid)]
      && (reply.Ok? ==> realm.wellKnownOidc == Some(reply.value)
                        && realm.saved == old(realm.saved) + ["_well_known_oidc"]
                        && r == IssuerOf(realm.server, reply.value))
      && (reply.Err? ==> r == Err(reply.error) && realm.wellKnownOidc == None
                         && realm.saved == old(realm.saved))
  {
    if realm.wellKnownOidc.None? {
      var refreshed := RefreshWellKnownOidc(realm, env);
      if refreshed.Err? {
        return Err(refreshed.error);
      }
    }
    r := IssuerOf(realm.server, realm.wellKnownOidc.value);
  }

  /** Configuration with no internal URL: the public URL is used as it is
      and no header is added. */
  lemma ServerConfigPublicOnly()
    ensures ServerConfig(Server("https://some-url", Some(""))) == ("https://some-url", map[])
  {
  }

  /** An internal URL in front of a public HTTPS URL `https://host...`:
      requests go to the internal base URL and carry `Host: host` and
      `X-Forwarded-Proto: https`. */
  lemma ServerConfigBehindHttpsUrl(host: string, tail: string, internal: string)
    requires forall i | 0 <= i < |host| :: IsNetlocChar(host[i])
    requires tail == [] || !IsNetlocChar(tail[0])
    requires internal != ""
    ensures ServerConfig(Server("https://" + host + tail, Some(internal)))
      == (TrimRight(internal, IsSlash), map[HOST := host, FORWARDED_PROTO := "https"])
  {
    var server := Server("https://" + host + tail, Some(internal));
    HttpsAuthority(host, tail);
    var headers := ServerConfig(server).1;
    assert headers.Keys == {HOST, FORWARDED_PROTO};
  }

  lemma HttpsAuthority(host: string, tail: string)
    requires forall i | 0 <= i < |host| :: IsNetlocChar(host[i])
    requires tail == [] || !IsNetlocChar(tail[0])
    ensures Netloc("https://" + host + tail) == host && Scheme("https://" + host + tail) == "https"
  {
    AuthorityUrl("https", host, tail);
    assert "https" + "://" + host + tail == "https://" + host + tail;
    AsciiLowerUnchanged("https");
  }

  /** The realm test's server, `https://some-url` with an internal URL. */
  lemma ServerConfigWithInternalUrl(host: string, internal: string)
    requires host == "some-url" && internal == "https://some-internal-url"
    ensures ServerConfig(Server("https://" + host, Some(internal)))
      == (internal, map[HOST := host, FORWARDED_PROTO := "https"])
  {
    assert forall i | 0 <= i < |host| :: IsNetlocChar(host[i]);
    ServerConfigBehindHttpsUrl(host, "", internal);
    assert "https://" + host + "" == "https://" + host;
    TrimRightUnchanged(internal, IsSlash);
  }
}
