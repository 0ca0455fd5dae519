/**
 * netlify/functions/user-create.js: an admin creates a master agent or an
 * agent through the Identity (GoTrue) admin API of the function context:
 * invite by e-mail, read the invited user back, and write the role and the
 * parent master-agent code into its metadata.
 */
module UserCreate {
  import opened Wrappers
  import opened JsValues
  import opened JsStrings
  import opened Http
  import opened Claims
  import opened Identity
  import opened Accounts

  const IdentityMissing :=
    "Identity admin token not available in function context. Ensure Identity is enabled on THIS site and redeploy."
  const Unlocated := "Invite succeeded" + " but could not locate created user id"

  /**
   * The message of what `findUserIdByEmail` throws, from its first list
   * page: the page's status and text when it is not ok, a `SyntaxError` when
   * it is not JSON, and otherwise a `ReferenceError`, because the loop pushes
   * into `allUsers`, which is never declared. It never returns.
   */
  function LookupError(list: Upstream): (m: string)
    ensures m != "" && m != Unlocated
    ensures !IsOkStatus(list.status) ==> m == "List users failed: " + IntToString(list.status) + " " + list.text
    ensures IsOkStatus(list.status) ==> m == (if list.text != "" && list.parsed.None? then SyntaxErrorMessage else ReferenceErrorMessage)
  {
    if !IsOkStatus(list.status) then
      var m := "List users failed: " + IntToString(list.status) + " " + list.text;
      assert m[0] == 'L' && Unlocated[0] == 'I';
      m
    else if list.text != "" && list.parsed.None? then SyntaxErrorMessage
    else ReferenceErrorMessage
  }

  /** `invited?.id || null` for `invited = JSON.parse(inviteTxt || "{}")`, a parse error being caught. */
  function InvitedId(invite: Upstream): (r: Json)
    ensures Truthy(r) <==> ParsedOrEmpty(invite).Some? && Truthy(Get(ParsedOrEmpty(invite).value, "id"))
    ensures Truthy(r) ==> r == Get(ParsedOrEmpty(invite).value, "id")
    ensures !Truthy(r) ==> r == Null
  {
    match ParsedOrEmpty(invite)
    case None => Null
    case Some(v) => Or(Get(v, "id"), Null)
  }

  function InviteUrl(admin: Admin): string {
    admin.base + "/admin/users/invite"
  }

  /** `${gt.base}/admin/users/${userId}`, used for both the read and the write. */
  function UserUrl(admin: Admin, id: Json): string {
    admin.base + "/admin/users/" + StringOf(id)
  }

  /**
   * The invite, the id lookup, the read of the invited user and the metadata
   * write, for an accepted new user; each upstream call is given by its reply.
   */
  function Provision(admin: Admin, n: NewUser, invite: Upstream, list: Upstream, current: Upstream, put: Upstream)
    : (r: Outcome<Created>)
    ensures !IsOkStatus(invite.status) ==>
      r == Outcome(Relay(invite.status, "Invite failed", invite.text, Some(InviteUrl(admin))), None)
    ensures IsOkStatus(invite.status) && !Truthy(InvitedId(invite)) ==> r == Outcome(Crash(LookupError(list)), None)
    ensures IsOkStatus(invite.status) && Truthy(InvitedId(invite)) && !IsOkStatus(current.status) ==>
      r == Outcome(Relay(current.status, "Get user failed", current.text, Some(UserUrl(admin, InvitedId(invite)))), None)
    ensures r.update.Some? <==>
      IsOkStatus(invite.status) && Truthy(InvitedId(invite)) && IsOkStatus(current.status) &&
      ParsedOrEmpty(current).Some? && !ParsedOrEmpty(current).value.Null?
  {
    if !IsOkStatus(invite.status) then
      Outcome(Relay(invite.status, "Invite failed", invite.text, Some(InviteUrl(admin))), None)
    else
      var id := InvitedId(invite);
      if !Truthy(id) then Outcome(Crash(LookupError(list)), None)
      else
        var url := UserUrl(admin, id);
        if !IsOkStatus(current.status) then Outcome(Relay(current.status, "Get user failed", current.text, Some(url)), None)
        else
          match ParsedOrEmpty(current)
          case None => Outcome(Crash(SyntaxErrorMessage), None)
          case Some(user) =>
            if user.Null? then Outcome(Crash(TypeErrorMessage), None)
            else
              var update := Update(url, Obj(MergedUserMeta(Get(user, "user_metadata"), n)),
                                   Obj(MergedAppMeta(Get(user, "app_metadata"), n.role)));
              if !IsOkStatus(put.status) then
                Outcome(Relay(put.status, "Update user failed", put.text, Some(url)), Some(update))
              else Outcome(Success(Created(id, n.email, n.role)), Some(update))
  }

  /** `isAdmin` of this file: a token whose payload the decoder gives and that passes the Identity admin check. */
  predicate Admitted(req: Request, decode: Decoder) {
    && req.httpMethod == "POST"
    && BearerToken(AuthHeader(req)).Some?
    && decode(BearerToken(AuthHeader(req)).value).Some?
    && AdminByRoleOrMeta(decode(BearerToken(AuthHeader(req)).value).value)
  }

  /** The handler, with `identity` the function context's `clientContext.identity` and one reply per upstream call. */
  function Handle(req: Request, decode: Decoder, identity: Json, invite: Upstream, list: Upstream, current: Upstream, put: Upstream)
    : (r: Outcome<Created>)
    ensures req.httpMethod == "OPTIONS" ==> r == Outcome(Response(200, Preflight), None)
    ensures req.httpMethod != "OPTIONS" && req.httpMethod != "POST" ==> r == Outcome(Fail(405, "Method not allowed"), None)
    ensures req.httpMethod == "POST" && BearerToken(AuthHeader(req)).None? ==> r == Outcome(Fail(401, "Unauthorized"), None)
    ensures req.httpMethod == "POST" && BearerToken(AuthHeader(req)).Some? ==>
      var claims := decode(BearerToken(AuthHeader(req)).value);
      && (claims.None? ==> r == Outcome(Crash(SyntaxErrorMessage), None))
      && (claims.Some? && !AdminByRoleOrMeta(claims.value) ==> r == Outcome(Fail(403, "Forbidden (admin only)"), None))
    ensures Admitted(req, decode) && GoTrueAdmin(identity).None? ==> r == Outcome(Fail(500, IdentityMissing), None)
    ensures Admitted(req, decode) && GoTrueAdmin(identity).Some? ==>
      r == FromBody(req, n => Provision(GoTrueAdmin(identity).value, n, invite, list, current, put))
  {
    if req.httpMethod == "OPTIONS" then Outcome(Response(200, Preflight), None)
    else if req.httpMethod != "POST" then Outcome(Fail(405, "Method not allowed"), None)
    else
      match BearerToken(AuthHeader(req))
      case None => Outcome(Fail(401, "Unauthorized"), None)
      case Some(token) =>
        match decode(token)
        case None => Outcome(Crash(SyntaxErrorMessage), None)
        case Some(claims) =>
          if !AdminByRoleOrMeta(claims) then Outcome(Fail(403, "Forbidden (admin only)"), None)
          else
            match GoTrueAdmin(identity)
            case None => Outcome(Fail(500, IdentityMissing), None)
            case Some(admin) => FromBody(req, n => Provision(admin, n, invite, list, current, put))
  }

  /**
   * The 500 "could not locate created user id" is never sent: an invite
   * reply without an id always ends in the exception `findUserIdByEmail`
   * throws, and nothing is written.
   */
  lemma NeverUnlocated(admin: Admin, n: NewUser, invite: Upstream, list: Upstream, current: Upstream, put: Upstream)
    ensures var r := Provision(admin, n, invite, list, current, put);
      r.reply.reply.Failure? ==> r.reply.reply.error != Unlocated
    ensures IsOkStatus(invite.status) && !Truthy(InvitedId(invite)) ==>
      var r := Provision(admin, n, invite, list, current, put);
      r.reply.status == 500 && r.update.None? && r.reply.reply.error == LookupError(list)
  {
  }

  /**
   * A created reply means every upstream call succeeded, the invited user's
   * id came from the invite reply, the metadata written carries the new role
   * and name, and an agent's parent code is written and non-empty.
   */
  lemma CreatedMeansWritten(admin: Admin, n: NewUser, invite: Upstream, list: Upstream, current: Upstream, put: Upstream)
    requires Rejection(n).None?
    requires Provision(admin, n, invite, list, current, put).reply.reply.Data?
    ensures IsOkStatus(invite.status) && IsOkStatus(current.status) && IsOkStatus(put.status)
    ensures var r := Provision(admin, n, invite, list, current, put);
      var id := InvitedId(invite);
      var user := ParsedOrEmpty(current).value;
      && Truthy(id)
      && r.reply == Success(Created(id, n.email, n.role))
      && r.update == Some(Update(UserUrl(admin, id), Obj(MergedUserMeta(Get(user, "user_metadata"), n)),
                                 Obj(MergedAppMeta(Get(user, "app_metadata"), n.role))))
    ensures n.role == "master_agent" || n.role == "agent"
    ensures n.email != "" && n.name != ""
    ensures n.role == "agent" ==> n.parentMa != ""
  {
  }

  /** Only an admitted caller's valid request, in the right order of checks, can create a user. */
  lemma CreatedOnlyForAdmins(req: Request, decode: Decoder, identity: Json, invite: Upstream, list: Upstream,
                             current: Upstream, put: Upstream)
    requires Handle(req, decode, identity, invite, list, current, put).reply.reply.Data?
    ensures Admitted(req, decode) && GoTrueAdmin(identity).Some? && BodyObject(req).Some?
    ensures var n := ReadNewUser(BodyObject(req).value);
      && Rejection(n).None?
      && Handle(req, decode, identity, invite, list, current, put) ==
         Provision(GoTrueAdmin(identity).value, n, invite, list, current, put)
  {
  }
}
