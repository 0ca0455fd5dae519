/**
 * The Token Decoder and the Role Resolver's admin and user-id rules, in the
 * several variants the handlers use.
 */
module Claims {
  import opened Wrappers
  import opened JsValues
  import opened JsStrings
  import opened Http

  /**
   * `jwt.decode(token)`, which does not verify signatures: `Some` of the
   * payload (`Some(Null)` when it returns null), or `None` when it throws.
   */
  type Decoder = string -> Option<Json>

  /** `Array.isArray(roles) && roles.includes("admin")` for `roles = decoded?.app_metadata?.roles || []`. */
  predicate HasAdminRole(claims: Json) {
    Includes(Or(Get(Get(claims, "app_metadata"), "roles"), Arr([])), Str("admin"))
  }

  /** The Identity variant of `isAdmin`: the roles list, or `user_metadata.role === "admin"` exactly. */
  predicate AdminByRoleOrMeta(claims: Json) {
    HasAdminRole(claims) || Get(Get(claims, "user_metadata"), "role") == Str("admin")
  }

  /** Only a roles array that holds the exact string "admin" grants the roles-only check. */
  lemma HasAdminRoleExactly(claims: Json)
    ensures HasAdminRole(claims) <==>
      var roles := Get(Get(claims, "app_metadata"), "roles");
      roles.Arr? && Str("admin") in roles.items
  {
  }

  /** The Identity variant accepts more callers, and the metadata comparison is case-sensitive. */
  lemma AdminVariantsCompared()
    ensures forall c :: HasAdminRole(c) ==> AdminByRoleOrMeta(c)
    ensures var c := Obj(map["user_metadata" := Obj(map["role" := Str("admin")])]);
      AdminByRoleOrMeta(c) && !HasAdminRole(c)
    ensures !AdminByRoleOrMeta(Obj(map["user_metadata" := Obj(map["role" := Str("Admin")])]))
  {
    var c := Obj(map["user_metadata" := Obj(map["role" := Str("admin")])]);
    assert Get(c, "app_metadata") == Null;
  }

  /**
   * The roles-only check inside `try { … } catch { return false }`: a decoder
   * that throws denies access instead of failing the request.
   */
  predicate AdminOrFalse(decode: Decoder, token: string) {
    match decode(token)
    case None => false
    case Some(c) => HasAdminRole(c)
  }

  /** `decoded?.sub || null`, converted with `String()` where it is used as text. */
  function SubjectOf(claims: Json): (r: Option<string>)
    ensures r.Some? <==> Truthy(Get(claims, "sub"))
    ensures Get(claims, "sub").Str? && Truthy(Get(claims, "sub")) ==> r == Some(Get(claims, "sub").s)
  {
    var sub := Get(claims, "sub");
    if Truthy(sub) then Some(StringOf(sub)) else None
  }

  /** Who the caller is, according to a token. */
  datatype Caller = Anonymous | DecodeThrew | Known(userId: string)

  /** `getUserId(event)`: no token or no `sub` is anonymous; a throwing decoder is a 500. */
  function CallerOf(req: Request, decode: Decoder): (c: Caller)
    ensures BearerToken(AuthHeader(req)).None? ==> c == Anonymous
    ensures BearerToken(AuthHeader(req)).Some? ==>
      var d := decode(BearerToken(AuthHeader(req)).value);
      && (d.None? ==> c == DecodeThrew)
      && (d.Some? && SubjectOf(d.value).None? ==> c == Anonymous)
      && (d.Some? && SubjectOf(d.value).Some? ==> c == Known(SubjectOf(d.value).value))
  {
    match BearerToken(AuthHeader(req))
    case None => Anonymous
    case Some(token) =>
      match decode(token)
      case None => DecodeThrew
      case Some(claims) =>
        match SubjectOf(claims)
        case None => Anonymous
        case Some(id) => Known(id)
  }
}
