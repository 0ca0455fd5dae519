/**
 * netlify/functions/admin/user-create.js: the admin variant of user
 * creation, through the Netlify API with `NETLIFY_SITE_ID` and
 * `NETLIFY_IDENTITY_TOKEN`; the metadata is merged into what the invite
 * reply returns, without reading the user back.
 */
module AdminUserCreate {
  import opened Wrappers
  import opened JsValues
  import opened Http
  import opened Claims
  import opened Accounts

  const EnvMissing := "Missing NETLIFY_SITE_ID or NETLIFY_IDENTITY_TOKEN"
  const MissingId := "Invite succeeded but missing user id"

  function UsersUrl(siteId: string): string {
    "https://api.netlify.com/api/v1/sites/" + siteId + "/identity/users/"
  }

  /**
   * The invite and the metadata write for an accepted new user. The invite
   * reply is parsed without a catch, and its `id` must be truthy.
   */
  function Provision(siteId: string, n: NewUser, invite: Upstream, put: Upstream): (r: Outcome<Created>)
    ensures !IsOkStatus(invite.status) ==> r == Outcome(Relay(invite.status, "Invite failed", invite.text, None), None)
    ensures IsOkStatus(invite.status) && ParsedOrEmpty(invite).None? ==> r == Outcome(Crash(SyntaxErrorMessage), None)
    ensures IsOkStatus(invite.status) && ParsedOrEmpty(invite).Some? && !Truthy(Get(ParsedOrEmpty(invite).value, "id")) ==>
      r == Outcome(Fail(500, MissingId), None)
    ensures r.update.Some? <==>
      IsOkStatus(invite.status) && ParsedOrEmpty(invite).Some? && Truthy(Get(ParsedOrEmpty(invite).value, "id"))
  {
    if !IsOkStatus(invite.status) then Outcome(Relay(invite.status, "Invite failed", invite.text, None), None)
    else
      match ParsedOrEmpty(invite)
      case None => Outcome(Crash(SyntaxErrorMessage), None)
      case Some(invited) =>
        var id := Get(invited, "id");
        if !Truthy(id) then Outcome(Fail(500, MissingId), None)
        else
          var update := Update(UsersUrl(siteId) + StringOf(id), Obj(MergedUserMeta(Get(invited, "user_metadata"), n)),
                               Obj(MergedAppMeta(Get(invited, "app_metadata"), n.role)));
          if !IsOkStatus(put.status) then
            Outcome(Relay(put.status, "Update user failed", put.text, None), Some(update))
          else Outcome(Success(Created(id, n.email, n.role)), Some(update))
  }

  /** A caller the roles-only `isAdmin` lets through; a decoder that throws is a 500, not a 403. */
  predicate Admitted(req: Request, decode: Decoder) {
    && req.httpMethod == "POST"
    && BearerToken(AuthHeader(req)).Some?
    && decode(BearerToken(AuthHeader(req)).value).Some?
    && HasAdminRole(decode(BearerToken(AuthHeader(req)).value).value)
  }

  /** The handler, with `siteId` and `identityToken` the environment variables ("" when unset). */
  function Handle(req: Request, decode: Decoder, siteId: string, identityToken: string, invite: Upstream, put: Upstream)
    : (r: Outcome<Created>)
    ensures req.httpMethod != "POST" ==> r == Outcome(Fail(405, "Method not allowed"), None)
    ensures req.httpMethod == "POST" && BearerToken(AuthHeader(req)).None? ==> r == Outcome(Fail(401, "Unauthorized"), None)
    ensures req.httpMethod == "POST" && BearerToken(AuthHeader(req)).Some? ==>
      var claims := decode(BearerToken(AuthHeader(req)).value);
      && (claims.None? ==> r == Outcome(Crash(SyntaxErrorMessage), None))
      && (claims.Some? && !HasAdminRole(claims.value) ==> r == Outcome(Fail(403, "Forbidden (admin only)"), None))
    ensures Admitted(req, decode) && (siteId == "" || identityToken == "") ==> r == Outcome(Fail(500, EnvMissing), None)
    ensures Admitted(req, decode) && siteId != "" && identityToken != "" ==>
      r == FromBody(req, n => Provision(siteId, n, invite, put))
  {
    if req.httpMethod != "POST" then Outcome(Fail(405, "Method not allowed"), None)
    else
      match BearerToken(AuthHeader(req))
      case None => Outcome(Fail(401, "Unauthorized"), None)
      case Some(token) =>
        match decode(token)
        case None => Outcome(Crash(SyntaxErrorMessage), None)
        case Some(claims) =>
          if !HasAdminRole(claims) then Outcome(Fail(403, "Forbidden (admin only)"), None)
          else if siteId == "" || identityToken == "" then Outcome(Fail(500, EnvMissing), None)
          else FromBody(req, n => Provision(siteId, n, invite, put))
  }

  /**
   * A created reply means both calls succeeded, the id is the invite
   * reply's, and the metadata written is the invite reply's merged with the
   * new name, role and (for an agent) parent code.
   */
  lemma CreatedMeansWritten(siteId: string, n: NewUser, invite: Upstream, put: Upstream)
    requires Provision(siteId, n, invite, put).reply.reply.Data?
    ensures IsOkStatus(invite.status) && IsOkStatus(put.status) && ParsedOrEmpty(invite).Some?
    ensures var invited := ParsedOrEmpty(invite).value;
      var id := Get(invited, "id");
      var r := Provision(siteId, n, invite, put);
      && Truthy(id)
      && r.reply == Success(Created(id, n.email, n.role))
      && r.update == Some(Update(UsersUrl(siteId) + StringOf(id), Obj(MergedUserMeta(Get(invited, "user_metadata"), n)),
                                 Obj(MergedAppMeta(Get(invited, "app_metadata"), n.role))))
  {
  }

  /** Only an admin's valid request, with the environment set, can create a user. */
  lemma CreatedOnlyForAdmins(req: Request, decode: Decoder, siteId: string, identityToken: string,
                             invite: Upstream, put: Upstream)
    requires Handle(req, decode, siteId, identityToken, invite, put).reply.reply.Data?
    ensures Admitted(req, decode) && siteId != "" && identityToken != "" && BodyObject(req).Some?
    ensures var n := ReadNewUser(BodyObject(req).value);
      && Rejection(n).None?
      && (n.role == "master_agent" || n.role == "agent")
      && Handle(req, decode, siteId, identityToken, invite, put) == Provision(siteId, n, invite, put)
  {
  }

  /** An invite reply that is `null`, or has no truthy `id`, ends in the 500 and writes nothing. */
  lemma NullInviteIsMissingId(siteId: string, n: NewUser, put: Upstream)
    ensures Provision(siteId, n, Upstream(200, "null", Some(Null)), put) == Outcome(Fail(500, MissingId), None)
    ensures Provision(siteId, n, Upstream(200, "", None), put) == Outcome(Fail(500, MissingId), None)
  {
  }
}
