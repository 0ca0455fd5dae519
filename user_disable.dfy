/**
 * netlify/functions/user-disable.js: an admin bans a user through the
 * Netlify API by reading it and writing back its `app_metadata` with
 * `banned: true`.
 */
module UserDisable {
  import opened Wrappers
  import opened JsValues
  import opened JsStrings
  import opened Http
  import opened Claims
  import opened Accounts

  const EnvMissing := "Missing NETLIFY_SITE_ID or NETLIFY_IDENTITY_TOKEN"

  function UserUrl(siteId: string, id: string): string {
    "https://api.netlify.com/api/v1/sites/" + siteId + "/identity/users/" + id
  }

  /** `String(body.id || "").trim()` */
  function TargetId(body: Json): string {
    Trim(StrOr(Get(body, "id")))
  }

  /** The read and the write for a non-empty id. */
  function Disable(siteId: string, id: string, current: Upstream, put: Upstream): (r: Outcome<()>)
    ensures !IsOkStatus(current.status) ==> r == Outcome(Relay(current.status, "Get user failed", current.text, None), None)
    ensures IsOkStatus(current.status) && ParsedOrEmpty(current).None? ==> r == Outcome(Crash(SyntaxErrorMessage), None)
    ensures IsOkStatus(current.status) && ParsedOrEmpty(current) == Some(Null) ==> r == Outcome(Crash(TypeErrorMessage), None)
    ensures r.update.Some? ==> r.update.value.url == UserUrl(siteId, id)
    ensures r.update.Some? <==>
      IsOkStatus(current.status) && ParsedOrEmpty(current).Some? && !ParsedOrEmpty(current).value.Null?
    ensures r.update.Some? && !IsOkStatus(put.status) ==> r.reply == Relay(put.status, "Disable failed", put.text, None)
  {
    if !IsOkStatus(current.status) then Outcome(Relay(current.status, "Get user failed", current.text, None), None)
    else
      match ParsedOrEmpty(current)
      case None => Outcome(Crash(SyntaxErrorMessage), None)
      case Some(user) =>
        if user.Null? then Outcome(Crash(TypeErrorMessage), None)
        else
          var update := Update(UserUrl(siteId, id), Or(Get(user, "user_metadata"), Obj(map[])),
                               Obj(Banned(Get(user, "app_metadata"))));
          if !IsOkStatus(put.status) then Outcome(Relay(put.status, "Disable failed", put.text, None), Some(update))
          else Outcome(Success(()), Some(update))
  }

  predicate Admitted(req: Request, decode: Decoder) {
    && req.httpMethod == "POST"
    && BearerToken(AuthHeader(req)).Some?
    && decode(BearerToken(AuthHeader(req)).value).Some?
    && HasAdminRole(decode(BearerToken(AuthHeader(req)).value).value)
  }

  /** The handler, with `siteId` and `identityToken` the environment variables ("" when unset). */
  function Handle(req: Request, decode: Decoder, siteId: string, identityToken: string, current: Upstream, put: Upstream)
    : (r: Outcome<()>)
    ensures req.httpMethod != "POST" ==> r == Outcome(Fail(405, "Method not allowed"), None)
    ensures req.httpMethod == "POST" && BearerToken(AuthHeader(req)).None? ==> r == Outcome(Fail(401, "Unauthorized"), None)
    ensures req.httpMethod == "POST" && BearerToken(AuthHeader(req)).Some? ==>
      var claims := decode(BearerToken(AuthHeader(req)).value);
      && (claims.None? ==> r == Outcome(Crash(SyntaxErrorMessage), None))
      && (claims.Some? && !HasAdminRole(claims.value) ==> r == Outcome(Fail(403, "Forbidden (admin only)"), None))
    ensures Admitted(req, decode) && (siteId == "" || identityToken == "") ==> r == Outcome(Fail(500, EnvMissing), None)
    ensures Admitted(req, decode) && siteId != "" && identityToken != "" ==>
      && (BodyObject(req).None? ==> r == Outcome(Crash(BodyError(req)), None))
      && (BodyObject(req).Some? && TargetId(BodyObject(req).value) == "" ==> r == Outcome(Fail(400, "Missing id"), None))
      && (BodyObject(req).Some? && TargetId(BodyObject(req).value) != "" ==>
            r == Disable(siteId, TargetId(BodyObject(req).value), current, put))
  {
    if req.httpMethod != "POST" then Outcome(Fail(405, "Method not allowed"), None)
    else
      match BearerToken(AuthHeader(req))
      case None => Outcome(Fail(401, "Unauthorized"), None)
      case Some(token) =>
        match decode(token)
        case None => Outcome(Crash(SyntaxErrorMessage), None)
        case Some(claims) =>
          if !HasAdminRole(claims) then Outcome(Fail(403, "Forbidden (admin only)"), None)
          else if siteId == "" || identityToken == "" then Outcome(Fail(500, EnvMissing), None)
          else
            match BodyObject(req)
            case None => Outcome(Crash(BodyError(req)), None)
            case Some(body) =>
              var id := TargetId(body);
              if id == "" then Outcome(Fail(400, "Missing id"), None)
              else Disable(siteId, id, current, put)
  }

  /**
   * What is written is the stored user with `app_metadata.banned` set to
   * true: every other `app_metadata` key, and a truthy `user_metadata`, are
   * sent back unchanged; a missing `user_metadata` is sent as `{}`.
   */
  lemma WritesOnlyBan(siteId: string, id: string, current: Upstream, put: Upstream)
    requires Disable(siteId, id, current, put).update.Some?
    ensures var u := Disable(siteId, id, current, put).update.value;
      var user := ParsedOrEmpty(current).value;
      var was := Spread(Or(Get(user, "app_metadata"), Obj(map[])));
      && u.appMetadata.Obj?
      && u.appMetadata.fields.Keys == was.Keys + {"banned"}
      && u.appMetadata.fields["banned"] == Bool(true)
      && (forall k :: k in was && k != "banned" ==> u.appMetadata.fields[k] == was[k])
      && (Truthy(Get(user, "user_metadata")) ==> u.userMetadata == Get(user, "user_metadata"))
      && (!Truthy(Get(user, "user_metadata")) ==> u.userMetadata == Obj(map[]))
  {
    BanMerge(Get(ParsedOrEmpty(current).value, "app_metadata"));
  }

  /** Disabling an already banned user writes the same `app_metadata` back. */
  lemma DisableIdempotent(stored: Json)
    requires stored.Obj? && "banned" in stored.fields && stored.fields["banned"] == Bool(true)
    ensures Obj(Banned(stored)) == stored
  {
    assert Spread(Or(stored, Obj(map[]))) == stored.fields;
    assert Banned(stored).Keys == stored.fields.Keys;
  }

  /** Only an admin's request naming a user, with the environment set, reaches a successful write. */
  lemma DisabledOnlyForAdmins(req: Request, decode: Decoder, siteId: string, identityToken: string,
                              current: Upstream, put: Upstream)
    requires Handle(req, decode, siteId, identityToken, current, put).reply.reply.Data?
    ensures Admitted(req, decode) && siteId != "" && identityToken != "" && BodyObject(req).Some?
    ensures TargetId(BodyObject(req).value) != ""
    ensures IsOkStatus(current.status) && IsOkStatus(put.status)
    ensures Handle(req, decode, siteId, identityToken, current, put).update.Some?
  {
  }
}
