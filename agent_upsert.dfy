/**
 * netlify/functions/agent-upsert.js: a signed-in agent registers or
 * refreshes their profile row in `agents`, keyed by the token's `sub`.
 */
module AgentUpsert {
  import opened Wrappers
  import opened JsValues
  import opened JsStrings
  import opened Http
  import opened Claims

  /** `auth.replace("Bearer ", "").trim()`: the first `"Bearer "` is removed wherever it occurs. */
  function IdentityToken(header: string): string {
    Trim(ReplaceFirst(header, "Bearer ", ""))
  }

  /** `getIdentity(event)`: an empty token or a falsy `sub` gives `null`; a throwing decoder is a 500. */
  function IdentityOf(req: Request, decode: Decoder): (c: Caller)
    ensures IdentityToken(AuthHeader(req)) == "" ==> c == Anonymous
    ensures IdentityToken(AuthHeader(req)) != "" ==>
      var d := decode(IdentityToken(AuthHeader(req)));
      && (d.None? ==> c == DecodeThrew)
      && (d.Some? && SubjectOf(d.value).None? ==> c == Anonymous)
      && (d.Some? && SubjectOf(d.value).Some? ==> c == Known(SubjectOf(d.value).value))
  {
    var token := IdentityToken(AuthHeader(req));
    if token == "" then Anonymous
    else
      match decode(token)
      case None => DecodeThrew
      case Some(claims) =>
        match SubjectOf(claims)
        case None => Anonymous
        case Some(id) => Known(id)
  }

  /** With the scheme in front, this reading of the header agrees with `getBearerToken`. */
  lemma PrefixAgrees(header: string)
    requires StartsWith(header, "Bearer ")
    ensures IdentityToken(header) == BearerText(header)
  {
    assert OccursAt(header, "Bearer ", 0);
    assert IndexOf(header, "Bearer ") == Some(0);
    assert header[..0] + "" + header[7..] == header[7..];
  }

  /**
   * The first `"Bearer "` is cut out of the middle of a header too, where
   * `getBearerToken` keeps the whole header.
   */
  lemma RemovesFirstAnywhere(p: string, t: string)
    requires forall k :: 0 <= k < |p| ==> !OccursAt(p + "Bearer " + t, "Bearer ", k)
    ensures IdentityToken(p + "Bearer " + t) == Trim(p + t)
  {
    var h := p + "Bearer " + t;
    assert h[|p|..|p| + 7] == "Bearer ";
    assert OccursAt(h, "Bearer ", |p|);
    var i := IndexOf(h, "Bearer ");
    assert i == Some(|p|);
    assert h[..|p|] == p && h[|p| + 7..] == t;
    var r := ReplaceFirst(h, "Bearer ", "");
    assert r == h[..|p|] + "" + h[|p| + 7..];
    assert r == p + t;
  }

  /** The profile columns the request sets. */
  datatype Profile = Profile(maCode: string, fullName: string, whatsapp: string, email: string)

  /** One row of `agents`; `createdAt` is set on the first insert and `lastLogin` on every write. */
  datatype AgentRow = AgentRow(profile: Profile, createdAt: int, lastLogin: int)

  /** `ma_code` trimmed and upper-cased, `email` trimmed and lower-cased, the others trimmed. */
  function ProfileOf(body: Json): Profile {
    Profile(Upper(Trim(StrOr(Get(body, "ma_code")))), Trim(StrOr(Get(body, "full_name"))),
            Trim(StrOr(Get(body, "whatsapp"))), Lower(Trim(StrOr(Get(body, "email")))))
  }

  /** The reply, and the caller's id with the profile to write when there is one. */
  datatype Plan = Plan(response: Response<()>, write: Option<(string, Profile)>)

  function Refuse(r: Response<()>): Plan {
    Plan(r, None)
  }

  function Decide(req: Request, decode: Decoder): (p: Plan)
    ensures req.httpMethod != "POST" ==> p == Refuse(Fail(405, "Method not allowed"))
    ensures req.httpMethod == "POST" && IdentityOf(req, decode).Anonymous? ==> p == Refuse(Fail(401, "Unauthorized"))
    ensures req.httpMethod == "POST" && IdentityOf(req, decode).DecodeThrew? ==> p == Refuse(Crash(SyntaxErrorMessage))
    ensures req.httpMethod == "POST" && IdentityOf(req, decode).Known? ==>
      && (BodyObject(req).None? ==> p == Refuse(Crash(BodyError(req))))
      && (BodyObject(req).Some? && ProfileOf(BodyObject(req).value).maCode == "" ==>
            p == Refuse(Fail(400, "Missing ma_code")))
      && (BodyObject(req).Some? && ProfileOf(BodyObject(req).value).maCode != "" ==>
            p == Plan(Success(()), Some((IdentityOf(req, decode).userId, ProfileOf(BodyObject(req).value)))))
  {
    if req.httpMethod != "POST" then Refuse(Fail(405, "Method not allowed"))
    else
      match IdentityOf(req, decode)
      case Anonymous => Refuse(Fail(401, "Unauthorized"))
      case DecodeThrew => Refuse(Crash(SyntaxErrorMessage))
      case Known(userId) =>
        match BodyObject(req)
        case None => Refuse(Crash(BodyError(req)))
        case Some(body) =>
          var profile := ProfileOf(body);
          if profile.maCode == "" then Refuse(Fail(400, "Missing ma_code"))
          else Plan(Success(()), Some((userId, profile)))
  }

  /**
   * `INSERT … ON CONFLICT (user_id) DO UPDATE` at time `now`: the profile
   * and `last_login` are overwritten, `created_at` keeps its first value.
   */
  function Upserted(rows: map<string, AgentRow>, userId: string, profile: Profile, now: int): map<string, AgentRow> {
    var created := if userId in rows then rows[userId].createdAt else now;
    rows[userId := AgentRow(profile, created, now)]
  }

  function Apply(rows: map<string, AgentRow>, write: Option<(string, Profile)>, now: int): map<string, AgentRow> {
    match write
    case None => rows
    case Some((userId, profile)) => Upserted(rows, userId, profile, now)
  }

  /** The table `agents`, one row per `user_id`. */
  class AgentsTable {
    var rows: map<string, AgentRow>

    constructor()
      ensures rows == map[]
    {
      rows := map[];
    }

    method Upsert(userId: string, profile: Profile, now: int)
      modifies this
      ensures rows == Upserted(old(rows), userId, profile, now)
    {
      if userId in rows {
        var existing := rows[userId];
        rows := rows[userId := AgentRow(profile, existing.createdAt, now)];
      } else {
        rows := rows[userId := AgentRow(profile, now, now)];
      }
    }

    /** One request at time `now`: the reply, with the table written only on success. */
    method Serve(req: Request, decode: Decoder, now: int) returns (r: Response<()>)
      modifies this
      ensures r == Decide(req, decode).response
      ensures rows == Apply(old(rows), Decide(req, decode).write, now)
    {
      var p := Decide(req, decode);
      if p.write.Some? {
        Upsert(p.write.value.0, p.write.value.1, now);
      }
      r := p.response;
    }
  }

  /**
   * After an upsert the caller has exactly one row, holding the given
   * profile and login time, with its creation time kept when it existed;
   * every other user's row is unchanged.
   */
  lemma UpsertedRow(rows: map<string, AgentRow>, userId: string, profile: Profile, now: int)
    ensures var after := Upserted(rows, userId, profile, now);
      && userId in after && after[userId].profile == profile && after[userId].lastLogin == now
      && after[userId].createdAt == (if userId in rows then rows[userId].createdAt else now)
      && after.Keys == rows.Keys + {userId}
      && (forall u :: u in rows && u != userId ==> u in after && after[u] == rows[u])
  {
  }

  /**
   * Repeating an upsert leaves the same profile and creation time; only the
   * login time moves, so a repeat at the same time changes nothing.
   */
  lemma RepeatKeepsValues(rows: map<string, AgentRow>, userId: string, profile: Profile, t1: int, t2: int)
    ensures var once := Upserted(rows, userId, profile, t1);
      var twice := Upserted(once, userId, profile, t2);
      && twice[userId].profile == once[userId].profile
      && twice[userId].createdAt == once[userId].createdAt
      && twice.Keys == once.Keys
      && (t1 == t2 ==> twice == once)
  {
  }

  /** Only a success writes, and the written profile has a non-empty, normalised code and a lower-case email. */
  lemma WriteOnlyOnSuccess(req: Request, decode: Decoder)
    ensures Decide(req, decode).write.Some? <==> Decide(req, decode).response.status == 200
    ensures Decide(req, decode).write.Some? ==>
      var prof := Decide(req, decode).write.value.1;
      && prof.maCode != "" && Upper(prof.maCode) == prof.maCode && Lower(prof.email) == prof.email
      && Trim(prof.fullName) == prof.fullName
  {
    var p := Decide(req, decode);
    if p.write.Some? {
      var body := BodyObject(req).value;
      UpperIdempotent(Trim(StrOr(Get(body, "ma_code"))));
      LowerIdempotent(Trim(StrOr(Get(body, "email"))));
      TrimIdempotent(StrOr(Get(body, "full_name")));
    }
  }

  /** A refused request leaves the table as it was. */
  lemma RefusalWritesNothing(rows: map<string, AgentRow>, req: Request, decode: Decoder, now: int)
    requires Decide(req, decode).response.status != 200
    ensures Apply(rows, Decide(req, decode).write, now) == rows
  {
    WriteOnlyOnSuccess(req, decode);
  }
}
