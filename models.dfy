/** The persistent entities the core reads and writes. The Django models are
    not part of this model; their fields are the ones the core touches. A
    `save(update_fields=[...])` is recorded as the names it writes, in order. */
module Models {
  import opened Outcomes
  import opened Json
  import opened Environment

  /** A Keycloak server: the public `url` and an optional `internal_url`
      reachable from this process. */
  datatype Server = Server(url: string, internalUrl: Option<string>)

  /** `if server.internal_url:` is true for a set, non-empty string. */
  predicate HasInternalUrl(server: Server)
  {
    server.internalUrl.Some? && server.internalUrl.value != ""
  }

  class Realm {
    var server: Server
    var name: string
    /** The realm's client, `getattr(realm, "client", None)`. */
    var client: Client?
    /** The cached JWKS; `None` while the stored `_certs` text is empty. */
    var certs: Option<Json>
    /** The cached discovery document; `None` while `_well_known_oidc` is empty. */
    var wellKnownOidc: Option<Json>
    var saved: seq<string>

    constructor (server: Server, name: string, certs: Option<Json>, wellKnownOidc: Option<Json>)
      ensures this.server == server && this.name == name && client == null
      ensures this.certs == certs && this.wellKnownOidc == wellKnownOidc && saved == []
    {
      this.server := server;
      this.name := name;
      this.client := null;
      this.certs := certs;
      this.wellKnownOidc := wellKnownOidc;
      this.saved := [];
    }
  }

  class Client {
    var realm: Realm
    var clientId: string
    var secret: string
    var serviceAccountProfile: Option<Profile>
    var saved: seq<string>

    constructor (realm: Realm, clientId: string, secret: string, serviceAccountProfile: Option<Profile>)
      ensures this.realm == realm && this.clientId == clientId && this.secret == secret
      ensures this.serviceAccountProfile == serviceAccountProfile && saved == []
    {
      this.realm := realm;
      this.clientId := clientId;
      this.secret := secret;
      this.serviceAccountProfile := serviceAccountProfile;
      this.saved := [];
    }
  }
}
