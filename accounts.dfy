/**
 * The account fields shared by user-create, admin/user-create and
 * user-disable: how a new user's fields are read from the request body and
 * validated, and how the stored `user_metadata` and `app_metadata` are
 * merged (`{ ...(stored || {}), key: value }`) before they are written back.
 */
module Accounts {
  import opened Wrappers
  import opened JsValues
  import opened JsStrings
  import opened Http

  datatype NewUser = NewUser(email: string, name: string, role: string, parentMa: string)

  /**
   * `String(body.role || "").trim().toLowerCase()`, the same for `email`,
   * `String(body.name || "").trim()` and
   * `String(body.parent_ma || "").trim().toUpperCase()`.
   */
  function ReadNewUser(body: Json): NewUser {
    NewUser(Lower(Trim(StrOr(Get(body, "email")))), Trim(StrOr(Get(body, "name"))),
            Lower(Trim(StrOr(Get(body, "role")))), Upper(Trim(StrOr(Get(body, "parent_ma")))))
  }

  /** The fields are stored normalised: no surrounding white space, e-mail and role in lower case, the code in upper case. */
  lemma NewUserNormalised(body: Json)
    ensures var n := ReadNewUser(body);
      && LowerTrimmed(n.email) && LowerTrimmed(n.role) && UpperTrimmed(n.parentMa)
      && (n.name == "" || (!IsSpace(n.name[0]) && !IsSpace(n.name[|n.name| - 1])))
  {
    LowerTrimNormal(StrOr(Get(body, "email")));
    LowerTrimNormal(StrOr(Get(body, "role")));
    UpperTrimNormal(StrOr(Get(body, "parent_ma")));
  }

  /** No upper-case letter and no white space at either end. */
  predicate LowerTrimmed(s: string) {
    && (forall i :: 0 <= i < |s| ==> !('A' <= s[i] <= 'Z'))
    && (s == "" || (!IsSpace(s[0]) && !IsSpace(s[|s| - 1])))
  }

  /** No lower-case letter and no white space at either end. */
  predicate UpperTrimmed(s: string) {
    && (forall i :: 0 <= i < |s| ==> !('a' <= s[i] <= 'z'))
    && (s == "" || (!IsSpace(s[0]) && !IsSpace(s[|s| - 1])))
  }

  lemma LowerTrimNormal(s: string)
    ensures LowerTrimmed(Lower(Trim(s)))
  {
    LowerKeepsEnds(Trim(s));
  }

  lemma LowerKeepsEnds(t: string)
    requires t == "" || (!IsSpace(t[0]) && !IsSpace(t[|t| - 1]))
    ensures LowerTrimmed(Lower(t))
  {
    if t != "" {
      var u := Lower(t);
      assert u[0] == LowerChar(t[0]) && u[|t| - 1] == LowerChar(t[|t| - 1]);
      SpaceLowerChar(t[0]);
      SpaceLowerChar(t[|t| - 1]);
    }
  }

  lemma UpperTrimNormal(s: string)
    ensures UpperTrimmed(Upper(Trim(s)))
  {
    UpperKeepsEnds(Trim(s));
  }

  lemma UpperKeepsEnds(t: string)
    requires t == "" || (!IsSpace(t[0]) && !IsSpace(t[|t| - 1]))
    ensures UpperTrimmed(Upper(t))
  {
    if t != "" {
      var u := Upper(t);
      assert u[0] == UpperChar(t[0]) && u[|t| - 1] == UpperChar(t[|t| - 1]);
      SpaceUpperChar(t[0]);
      SpaceUpperChar(t[|t| - 1]);
    }
  }

  /** The three 400 checks, in order; `None` when the new user is accepted. */
  function Rejection(n: NewUser): (r: Option<string>)
    ensures r.None? <==> n.email != "" && n.name != "" && (n.role == "master_agent" || (n.role == "agent" && n.parentMa != ""))
    ensures n.email == "" || n.name == "" ==> r == Some("Email and name are required")
    ensures n.email != "" && n.name != "" && n.role != "master_agent" && n.role != "agent" ==> r == Some("Invalid role")
    ensures n.email != "" && n.name != "" && n.role == "agent" && n.parentMa == "" ==> r == Some("Agent requires parent_ma")
  {
    if n.email == "" || n.name == "" then Some("Email and name are required")
    else if n.role !in ["master_agent", "agent"] then Some("Invalid role")
    else if n.role == "agent" && n.parentMa == "" then Some("Agent requires parent_ma")
    else None
  }

  /** `{ ...(stored || {}), full_name: name, role, ...(role === "agent" ? { parent_ma_code: parent_ma } : {}) }` */
  function MergedUserMeta(stored: Json, n: NewUser): map<string, Json> {
    var base := Spread(Or(stored, Obj(map[])))["full_name" := Str(n.name)]["role" := Str(n.role)];
    if n.role == "agent" then base["parent_ma_code" := Str(n.parentMa)] else base
  }

  /**
   * Every stored key is kept; `full_name` and `role` are set, and
   * `parent_ma_code` is set only for an agent (a master agent keeps whatever
   * it had); no other key appears.
   */
  lemma UserMetaMerge(stored: Json, n: NewUser)
    ensures var m := MergedUserMeta(stored, n);
      var was := Spread(Or(stored, Obj(map[])));
      && m.Keys == was.Keys + {"full_name", "role"} + (if n.role == "agent" then {"parent_ma_code"} else {})
      && m["full_name"] == Str(n.name) && m["role"] == Str(n.role)
      && (n.role == "agent" ==> m["parent_ma_code"] == Str(n.parentMa))
      && (forall k :: k in was && k != "full_name" && k != "role" && (k != "parent_ma_code" || n.role != "agent") ==>
            m[k] == was[k])
  {
  }

  /** `{ ...(stored || {}), roles: [role] }` */
  function MergedAppMeta(stored: Json, role: string): map<string, Json> {
    Spread(Or(stored, Obj(map[])))["roles" := Arr([Str(role)])]
  }

  /** The roles list is replaced by the single new role; every other key is kept. */
  lemma AppMetaMerge(stored: Json, role: string)
    ensures var m := MergedAppMeta(stored, role);
      var was := Spread(Or(stored, Obj(map[])));
      && m.Keys == was.Keys + {"roles"}
      && m["roles"] == Arr([Str(role)])
      && (forall k :: k in was && k != "roles" ==> m[k] == was[k])
  {
  }

  /** `{ ...(stored || {}), banned: true }` */
  function Banned(stored: Json): map<string, Json> {
    Spread(Or(stored, Obj(map[])))["banned" := Bool(true)]
  }

  /** Only `banned` changes, to `true`; every other key is kept. Banning twice is banning once. */
  lemma BanMerge(stored: Json)
    ensures var m := Banned(stored);
      var was := Spread(Or(stored, Obj(map[])));
      && m.Keys == was.Keys + {"banned"}
      && m["banned"] == Bool(true)
      && (forall k :: k in was && k != "banned" ==> m[k] == was[k])
    ensures Banned(Obj(Banned(stored))) == Banned(stored)
  {
  }

  /** The `PUT` an account handler sends: the user's URL and the two metadata objects. */
  datatype Update = Update(url: string, userMetadata: Json, appMetadata: Json)

  /** A handler's reply together with the update it sent, if it got that far. */
  datatype Outcome<P> = Outcome(reply: Response<P>, update: Option<Update>)

  /** The reply `{ id, email, role }` of the create handlers. */
  datatype Created = Created(id: Json, email: string, role: string)

  /**
   * The body step of both create handlers: parse, read and validate the new
   * user, then hand it to the handler's own upstream calls.
   */
  function FromBody<P>(req: Request, provision: NewUser -> Outcome<P>): (r: Outcome<P>)
    ensures BodyObject(req).None? ==> r == Outcome(Crash(BodyError(req)), None)
    ensures BodyObject(req).Some? && Rejection(ReadNewUser(BodyObject(req).value)).Some? ==>
      r == Outcome(Fail(400, Rejection(ReadNewUser(BodyObject(req).value)).value), None)
    ensures BodyObject(req).Some? && Rejection(ReadNewUser(BodyObject(req).value)).None? ==>
      r == provision(ReadNewUser(BodyObject(req).value))
  {
    match BodyObject(req)
    case None => Outcome(Crash(BodyError(req)), None)
    case Some(body) =>
      var n := ReadNewUser(body);
      match Rejection(n)
      case Some(m) => Outcome(Fail(400, m), None)
      case None => provision(n)
  }
}
