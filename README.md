# django-keycloak core, modelled in Dafny

This project models the part of django-keycloak that decides where a realm's
Keycloak server is reached and what a 401 challenge says. It also models how
the client side caches server documents and gets service-account tokens.

- **Realm service** (`django_keycloak/services/realm.py`):
  - The base URL and proxy headers of a realm (internal URL, `Host`,
    `X-Forwarded-Proto`).
  - The clients built on that base.
  - Endpoint joining.
  - Refreshing the stored discovery document and key set.
  - The issuer that tokens are checked against, rewritten from the internal
    URL to the public one.
- **401 response** (`django_keycloak/response.py`):
  - Token sanitising.
  - Quoted-string escaping of attribute values.
  - Assembly of the `WWW-Authenticate` challenge.

  The challenge is read back by a parser for the
  `auth-scheme [ 1*SP #auth-param ]` form of RFC 7235 section 2.1. Over that
  parser the header is proved to say exactly the sanitised scheme and the
  intended attributes. No attribute value can close its quoted string early,
  add a parameter, or start a new header line.
- **Client service** (`django_keycloak/services/client.py`):
  - The OpenID client that keeps a discovery document and a key set once it
    has them.
  - The UMA resource-registration client with its one-time configuration
    fetch.
  - The search for a client's Keycloak id.
  - The service-account flow: get or create the profile, then the active
    token or one renewal after `TokensExpired`. The grant is the
    client-credentials grant of RFC 6749 section 4.4.

Everything outside the core is one object, `Environment.Env`. That covers the
network, the clock and the profile store. Each call is appended to `Env.log`,
and each reply is a fixed function of the call and its position in the log.
So "fetches at most once" and "exactly one fresh grant" are statements about
the log. `GrantCount` counts the token requests in a log.

Modules:

| module | what it holds |
|---|---|
| `Outcomes` | `Result` and `Option`, and the error kinds. |
| `Json` | The JSON values the core handles, with `dict.get` and `dict[...]`. |
| `Text` | `str.strip`, `lstrip`/`rstrip`, `find`, `replace(…, 1)` and `join`. |
| `Url` | The scheme and netloc of `urlparse`, and the plain relative paths that `urljoin` appends to a base it does not rewrite. |
| `Environment` | `Env` and the calls it records. |
| `Models` | `Server`, `Realm` and `Client`, with the fields the core touches. Each `save(update_fields=…)` is recorded in `saved`. |
| `RealmService` | `realm.py` |
| `AuthResponse` | `response.py` |
| `ClientService` | `client.py` |

Python `None` is modelled two ways:

- **`JNull`**, where the source tests `is None`: the caches of
  `CachedKeycloakOpenID`, `UMAResourceClient._config`, and the result of
  `dict.get`.
- **`Option`** for the realm's stored documents. The source tests whether
  the stored text is empty; `None` stands for that empty text.

## Model

| member | source | states |
|---|---|---|
| RealmService.ServerConfig | django_keycloak/services/realm.py:13-27 | Without an internal URL, the base is `url` with trailing `/` removed and there are no headers. With one, the base is the trailing-`/`-stripped internal URL and `Host` is the public URL's netloc. `X-Forwarded-Proto: https` is present exactly when there is an internal URL and the public scheme is `https`. The header keys are within {`Host`, `X-Forwarded-Proto`}. The base never ends in `/`. |
| RealmService.ServerConfigPublicOnly | django_keycloak/tests/services/realm/test_get_realm_api_client.py:21-26 | An empty internal URL counts as none: the public URL is used and no header is sent. |
| RealmService.ServerConfigBehindHttpsUrl | django_keycloak/services/realm.py:19-25 | For any public `https://host…` URL behind an internal URL, the headers are exactly `Host: host` and `X-Forwarded-Proto: https`. |
| RealmService.ServerConfigWithInternalUrl | django_keycloak/tests/services/realm/test_get_realm_api_client.py:28-36 | The realm test's server gives the internal URL, `Host: some-url` and `X-Forwarded-Proto: https`. |
| RealmService.OpenIdClientConfig | django_keycloak/services/realm.py:30-38 | The client is rooted at base + `/` and holds the given realm and credentials. Its custom headers are `None` exactly when there are no proxy headers. |
| RealmService.CustomHeadersOnlyForInternalUrl | django_keycloak/services/realm.py:19-37 | Custom headers are sent exactly when an internal URL is set. |
| RealmService.BuildEndpoint | django_keycloak/services/realm.py:79-83 | The endpoint starts with the base URL and one `/`, and what follows is a plain relative path. |
| RealmService.EndpointShape | django_keycloak/services/realm.py:79-83 | An endpoint is the base URL (internal or public), one `/`, then the path with its leading slashes removed: what follows is a suffix of the path, everything dropped in front of it is `/`, and it does not start with `/`. |
| RealmService.EndpointIgnoresLeadingSlash | django_keycloak/services/realm.py:79-83 | An extra leading `/` on the path gives the same endpoint. |
| RealmService.IssuerOf | django_keycloak/services/realm.py:71-76 | A missing `issuer` is an error. Without an internal URL the issuer is returned unchanged. With one, the result comes from a string issuer. |
| RealmService.IssuerUnderInternalUrl | django_keycloak/services/realm.py:73-74 | An issuer that starts with the stripped internal URL is reported under the stripped public URL, with the rest kept. |
| RealmService.IssuerFirstOccurrence | django_keycloak/services/realm.py:73-74 | Wherever the stripped internal URL first occurs in the issuer, that occurrence alone is replaced by the stripped public URL; what comes before and after it is kept. |
| RealmService.IssuerWithoutInternalOccurrence | django_keycloak/services/realm.py:73-74 | An issuer in which the internal URL does not occur is returned unchanged. |
| RealmService.RefreshCerts | django_keycloak/services/realm.py:41-53 | Makes one key-set fetch with the realm's client credentials, or anonymous ones when there is no client. On success, `certs` is replaced whole and only `_certs` is saved. On failure the realm is untouched. |
| RealmService.RefreshWellKnownOidc | django_keycloak/services/realm.py:56-62 | Makes one anonymous discovery fetch. On success, the document is replaced whole and only `_well_known_oidc` is saved. On failure the realm is untouched. |
| RealmService.GetIssuer | django_keycloak/services/realm.py:65-76 | With a stored document: no call, and the issuer is read from it. Without one: exactly one discovery fetch, whose document is stored and read. |
| AuthResponse.TCharIsVisibleNonDelimiter | django_keycloak/response.py:7 | The character class of `_TOKEN_RE` is exactly the visible ASCII characters other than the RFC 7230 delimiters `"(),/:;<=>?@[\]{}`. |
| AuthResponse.IsToken | django_keycloak/response.py:7 | A token is non-empty and has no white space, CR, LF, `"`, `,`, `=` or `\`. |
| AuthResponse.SanitizeToken | django_keycloak/response.py:10-16 | When the stripped input matches `_TOKEN_RE`, the result is that stripped input. Otherwise it is the default. |
| AuthResponse.SanitizedTokenIsSafe | django_keycloak/response.py:7-16 | A non-default result is a non-empty run of `tchar`. It has no white space, CR, LF, `"`, `,`, `=` or `\`. |
| AuthResponse.SanitizeTokenIdempotent | django_keycloak/response.py:13-15 | A token sanitises to itself. |
| AuthResponse.EscapeValue | django_keycloak/response.py:27-28 | The four replacements in the source's order: `\` doubled, then `"` escaped, then CR and LF deleted. What that achieves is stated by `EscapeValueRoundTrip`, `EscapedValueIsSafe` and `EscapeValuePlain`. |
| AuthResponse.EscapeValueRoundTrip | django_keycloak/response.py:27-28 | Reading an escaped value back as a quoted string gives the original value with every CR and LF deleted. Reading stops exactly at the closing quote. |
| AuthResponse.EscapedValueIsSafe | django_keycloak/response.py:27-28 | An escaped value has no CR or LF, and every `"` in it is preceded by `\`. |
| AuthResponse.EscapeValuePlain | django_keycloak/response.py:27-28 | A value without `\`, `"`, CR or LF is written unchanged. |
| AuthResponse.AttributeSegment | django_keycloak/response.py:23-29 | An attribute gives a segment exactly when its stripped key is a token. The segment is then `key="escaped value"` with the stripped key. |
| AuthResponse.FormatAttributes | django_keycloak/response.py:19-29 | There is at most one segment per attribute. |
| AuthResponse.FormatAuthAttributes | django_keycloak/response.py:19-29 | The loop over the items yields exactly `FormatAttributes`: the kept attributes' segments, in input order. |
| AuthResponse.FormatAttributesEmpty | django_keycloak/response.py:22-25 | No segment is produced exactly when no key sanitises. |
| AuthResponse.FormatAttributesRoundTrip | django_keycloak/response.py:22-29 | The `, `-joined segments read back as the kept attributes, in order: sanitised key and value without CR/LF. |
| AuthResponse.ChallengeScheme | django_keycloak/response.py:42 | The scheme is always a token. It is the stripped method when that is a token, otherwise `Bearer`. |
| AuthResponse.ChallengeHeader | django_keycloak/response.py:42-47 | The header starts with the sanitised scheme, and it is the scheme alone exactly when no attribute is kept. |
| AuthResponse.ChallengeRoundTrip | django_keycloak/response.py:40-49 | The header reads back under the challenge grammar as exactly the scheme and the kept attributes. So it is the scheme alone when nothing is kept, and scheme + ` ` + the `, `-joined segments otherwise. |
| AuthResponse.ChallengeHeaderIsOneLine | django_keycloak/response.py:42-49 | Whatever the method and attributes, the header has no CR or LF. |
| AuthResponse.InjectedMethodFallsBack | django_keycloak/tests/test_response.py:17-20 | The method `Bearer\r\nFoo: bar` gives the bare `Bearer` challenge. |
| AuthResponse.DefaultChallenge | django_keycloak/response.py:35-49 | The default method with no attributes gives `Bearer`. |
| AuthResponse.ChallengeValue | django_keycloak/response.py:42-47 | The header value assembled by the constructor is the challenge that `ChallengeRoundTrip` describes. |
| AuthResponse.NotAuthorizedResponse.constructor | django_keycloak/response.py:32-49 | Status 401. Missing attributes count as empty. The only header set is `WWW-Authenticate`, holding the challenge. |
| ClientService.CachedOpenIdClient.constructor | django_keycloak/services/client.py:27-30 | The client starts with the given cached documents. |
| ClientService.CachedOpenIdClient.WellKnown | django_keycloak/services/client.py:32-36 | A held document is returned with no call. Otherwise there is exactly one fetch, and its result is kept. |
| ClientService.CachedOpenIdClient.Certs | django_keycloak/services/client.py:38-42 | A held key set is returned with no call. Otherwise there is exactly one fetch, and its result is kept. |
| ClientService.CachedOpenIdClient.WellKnownTwice | django_keycloak/services/client.py:32-36 | Two calls fetch at most once when the first gives a non-null document, and then answer the same. With a document already held, they fetch nothing. |
| ClientService.OpenIdClientFor | django_keycloak/services/client.py:107-119 | The client is rooted at the realm's base with the client's credentials. It is seeded with the realm's stored documents, and an empty stored document seeds nothing. |
| ClientService.UmaConfigurationPathIsPlain | django_keycloak/services/client.py:68-71 | For a realm name that is one path segment, `/realms/{name}/.well-known/uma-configuration` is a path that `urljoin` only appends. |
| ClientService.UmaResourceClient.constructor | django_keycloak/services/client.py:59-64 | No configuration is held. The base is the realm's base + `/`, and the headers are the realm's proxy headers. |
| ClientService.UmaResourceClient.ConfigRequest | django_keycloak/services/client.py:68-72 | The discovery request is a GET of the realm's base URL + `/realms/{name}/.well-known/uma-configuration`, carrying the stored headers. |
| ClientService.UmaResourceClient.GetConfig | django_keycloak/services/client.py:66-75 | A held configuration is returned with no call. Otherwise there is exactly one GET of the realm's UMA discovery endpoint with the realm headers. A non-2xx status or unreadable JSON is an error, and a success is kept. |
| ClientService.JsonBody | django_keycloak/services/client.py:72-74 | A transport failure or a non-2xx status is an error. Otherwise the result is the parsed body, or an error when it is not JSON. |
| ClientService.RegistrationEndpoint | django_keycloak/services/client.py:78 | The endpoint is the string under `resource_registration_endpoint`. A missing key or a non-object configuration is an error. |
| ClientService.RegistrationHeaders | django_keycloak/services/client.py:79-80 | The headers are `Authorization: Bearer <token>` and `Content-Type: application/json`, with every realm header put over them and nothing else added. |
| ClientService.RegistrationPayload | django_keycloak/services/client.py:81-82 | The payload holds `name` set to the given name, plus every extra attribute. |
| ClientService.CreatedResource | django_keycloak/services/client.py:84-88 | A failed status is an error. An empty body gives `None`. Anything else gives the parsed body. |
| ClientService.UmaResourceClient.ResourceSetCreate | django_keycloak/services/client.py:77-88 | The configuration is fetched at most once. Then there is one POST to the configured endpoint with the merged headers and payload, and its reply is read as above. Any earlier error stops the call before the POST. |
| ClientService.RegistrationHeadersBehindProxy | django_keycloak/tests/services/client/test_uma_resource_client.py:37-41 | Behind an internal URL with a public HTTPS URL, the POST carries the bearer token, the JSON type, `Host` set to the public netloc, and `X-Forwarded-Proto: https`. |
| ClientService.FindKeycloakId | django_keycloak/services/client.py:95-98 | The result is the `id` of the first listed client whose `clientId` equals the wanted one. It is `None` when none does. |
| ClientService.GetKeycloakId | django_keycloak/services/client.py:91-98 | Makes one admin listing of the realm's clients, then the search above. A listing failure is passed on. |
| ClientService.GrantRequest | django_keycloak/services/client.py:165-169 | The token request is `grant_type=client_credentials` with scope `realm-management openid` for the client. |
| ClientService.GetNewAccessToken | django_keycloak/services/client.py:162-170 | Reads the clock, then makes exactly one client-credentials request. The initiate time returned is the clock reading taken before the request. |
| ClientService.GrantThenStoreGrantsOnce | django_keycloak/services/client.py:148-154 | A grant followed by a profile operation makes exactly one token request. |
| ClientService.GetServiceAccountProfile | django_keycloak/services/client.py:142-159 | An existing profile is returned with no call. Otherwise there is exactly one grant and one `_update_or_create`. A created profile is stored on the client, with only `service_account_profile` saved. |
| ClientService.ActiveOrRenewedGrants | django_keycloak/services/client.py:178-189 | An active token needs no grant. `TokensExpired` leads to exactly one grant. |
| ClientService.ActiveOrRenewedToken | django_keycloak/services/client.py:178-189 | Returns the active token if there is one. On `TokensExpired`: one fresh grant, `update_tokens`, and the updated profile's access token. Other failures are passed on. |
| ClientService.GetAccessToken | django_keycloak/services/client.py:173-189 | Gets the profile (created when missing), then does the step above. With a profile the client is unchanged, and there are no grants, or one after `TokensExpired`. Without one there are one or two grants; a created profile is stored with only `service_account_profile` saved, and a failed creation leaves the client unchanged. |
| ClientService.BuildJwkSet | django_keycloak/services/client.py:192-197 | A stored key set is used with no call. Otherwise the key set is refreshed once and the fetched one is used. A failed refresh is an error. |

## Left out

- HTTP transport, timeouts and the `requests` library:
  - `requests.get`/`post` and the python-keycloak calls are calls on `Env` whose replies are free.
  - `raise_for_status()` is modelled as "a status outside 2xx fails". That is stricter than `requests`, which raises only for 400-599, so a 1xx or 3xx reply that the source accepts is an error in the model.
  - The exception types are one `Error` kind each.
- `oidc_profile._update_or_create`, `update_tokens` and `get_active_access_token`. `django_keycloak/services/oidc_profile.py` is not part of this model. These are calls on `Env` that return a profile (an id and an access token) or an error.
- `timezone.now()` is `Env.Now`, which returns an integer from a free clock.
- JWKS parsing (`jwk.JWKSet.from_json(json.dumps(...))`) is foreign code. `BuildJwkSet` returns the JSON document the key set would be built from.
- The Django models. `django_keycloak/models.py` is not part of this model. The stored documents' JSON text and (de)serialisation are abstracted to values.
- `save()` is recorded only as the list of field names it writes.
- `AuthzAdapter`/`get_authz_api_client` (entitlement), `get_uma1_client` and `get_admin_client`. They are thin constructors around foreign clients and are outside the modelled core.
- `urljoin`/`urlparse` are modelled only as far as the core needs:
  - the scheme (ASCII letters first, lower-cased) and the netloc;
  - joining a plain relative path below a base ending in `/`.

  Not modelled: urllib removing control characters, validating IPv6 brackets, and resolving `.`/`..`, absolute references or queries.
- RealmService.BuildEndpoint: requires a plain relative path, because `urljoin` is modelled only for those. Such a path has no `.` or `..` segment, no empty segment (so no doubled `/`), and none of `:`, `?`, `#`, `;`, the space or a control character anywhere.
- RealmService.BuildEndpoint: does not model how `urljoin` rewrites the base. The model appends the path to the base as it is. `urljoin` lower-cases the scheme (`HTTPS://Host` gives `https://Host/…`), drops empty segments of the base path (`https://host//auth` gives `https://host/auth/…`), and returns the bare path when the base has no scheme that `urljoin` joins with (`localhost:8080` gives `realms/…`). The model's endpoint is right only for a base with a lower-case `http` or `https` scheme and no empty or dot segments.
- ClientService.UmaResourceClient.GetConfig: requires the realm name to be one plain path segment, for the same reason. `ResourceSetCreate` has the same requirement.
- ClientService.UmaResourceClient.ResourceSetCreate:
  - It requires that `name` is not among the extra attributes, because Python itself refuses a second `name` keyword argument.
  - A registration endpoint that is not a string is reported as `NotAString`, where `requests` would fail in its own way.
- `str(value)` on non-string inputs to `_sanitize_token` and on attribute values is not modelled. Keys, values and the method are strings.
- Attributes are a sequence of (key, value) pairs in the dict's iteration order. The uniqueness of dict keys is not imposed.
- Django's `HttpResponse` machinery, including its default headers and content handling, is left out. `NotAuthorizedResponse` holds the content, the status and the one header it sets.
- AuthResponse.NotAuthorizedResponse.constructor: does not take the extra positional and keyword arguments that `HttpResponseNotAuthorized` passes on to `HttpResponse`. Through them a caller's `status=` replaces the 401 and `headers=` adds headers; the model always has status 401 and only `WWW-Authenticate`.
- The concrete header of the sanitising response test is not restated as a literal. Its content is covered by `ChallengeRoundTrip`, `ChallengeHeaderIsOneLine` and `EscapedValueIsSafe`.
- The concrete URL of the `build_endpoint` test is covered by `EndpointShape` rather than restated.
- Logging is left out.
