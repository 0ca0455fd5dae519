/**
 * How the handlers read an identity user record returned by the admin API:
 * its metadata object, its role text, and a chain of metadata keys that
 * names the parent master agent. Also the GoTrue admin endpoint that
 * Netlify passes in the function context.
 */
module Identity {
  import opened Wrappers
  import opened JsValues
  import opened JsStrings

  /**
   * The two ways the handlers lower-case a role: `String(x || "").toLowerCase()`,
   * which accepts any value, and `(x || "").toLowerCase()`, which throws a
   * TypeError for a truthy value that is not a string.
   */
  datatype RoleRead = Stringify | Direct

  function LowerOf(v: Json, mode: RoleRead): (r: Option<string>)
    ensures r.None? <==> mode == Direct && Truthy(v) && !v.Str?
    ensures !Truthy(v) ==> r == Some("")
    ensures v.Str? ==> r == Some(Lower(v.s))
    ensures mode == Stringify ==> r == Some(Lower(StringOf(v))) || r == Some("")
  {
    match mode
    case Stringify => Some(Lower(StrOr(v)))
    case Direct =>
      if !Truthy(v) then Some("")
      else if v.Str? then Some(Lower(v.s))
      else None
  }

  /** Where the direct read does not throw, it agrees with the `String()` read. */
  lemma DirectAgrees(v: Json)
    requires LowerOf(v, Direct).Some?
    ensures LowerOf(v, Stringify) == LowerOf(v, Direct)
  {
    if !Truthy(v) {
      assert |Lower(StrOr(v))| == 0;
    }
  }

  /** `u.user_metadata || {}` (the caller has already ruled out a `null` user where the access is not optional). */
  function MetaOf(u: Json): (m: Json)
    ensures Truthy(m)
    ensures Truthy(Get(u, "user_metadata")) ==> m == Get(u, "user_metadata")
    ensures !Truthy(Get(u, "user_metadata")) ==> m == Obj(map[])
  {
    Or(Get(u, "user_metadata"), Obj(map[]))
  }

  /** `meta[k1] || meta[k2] || … || ""` */
  function FirstTruthy(meta: Json, keys: seq<string>): (r: Json)
    ensures Truthy(r) <==> exists i :: 0 <= i < |keys| && Truthy(Get(meta, keys[i]))
    ensures !Truthy(r) ==> r == Str("")
  {
    if keys == [] then Str("")
    else
      var rest := FirstTruthy(meta, keys[1..]);
      assert forall i :: 0 <= i < |keys[1..]| ==> keys[1..][i] == keys[i + 1];
      Or(Get(meta, keys[0]), rest)
  }

  /** The chain yields the value of its first truthy key. */
  lemma {:induction false} FirstTruthyPicks(meta: Json, keys: seq<string>, i: nat)
    requires i < |keys| && Truthy(Get(meta, keys[i]))
    requires forall j :: 0 <= j < i ==> !Truthy(Get(meta, keys[j]))
    ensures FirstTruthy(meta, keys) == Get(meta, keys[i])
    decreases i
  {
    if i > 0 {
      assert forall j :: 0 <= j < i - 1 ==> keys[1..][j] == keys[j + 1];
      FirstTruthyPicks(meta, keys[1..], i - 1);
    }
  }

  /** `String(meta[k1] || … || "").trim().toUpperCase()` */
  function ParentCode(meta: Json, keys: seq<string>): (r: string)
    ensures (forall i :: 0 <= i < |keys| ==> !Truthy(Get(meta, keys[i]))) ==> r == ""
  {
    Upper(Trim(StrOr(FirstTruthy(meta, keys))))
  }

  /** A parent code is already in normal form: trimming and upper-casing it again changes nothing. */
  lemma ParentCodeNormal(meta: Json, keys: seq<string>)
    ensures var r := ParentCode(meta, keys); Upper(Trim(r)) == r
  {
    NormalizeIdempotent(StrOr(FirstTruthy(meta, keys)));
  }

  // --- The GoTrue admin endpoint -----------------------------------------

  datatype Admin = Admin(base: string, token: Json)

  /** `String(url).replace(/\/$/, "")`: one trailing slash, if any, is removed. */
  function StripTrailingSlash(s: string): (r: string)
    ensures s != [] && s[|s| - 1] == '/' ==> r + "/" == s
    ensures !(s != [] && s[|s| - 1] == '/') ==> r == s
  {
    if s != [] && s[|s| - 1] == '/' then s[..|s| - 1] else s
  }

  /** Only one slash goes: the result is a prefix at most one character shorter. */
  lemma StripAtMostOne(s: string)
    ensures var r := StripTrailingSlash(s);
      |s| - 1 <= |r| <= |s| && r == s[..|r|]
    ensures StripTrailingSlash("https://x/.netlify/identity//") == "https://x/.netlify/identity/"
  {
    var w := "https://x/.netlify/identity//";
    assert w[|w| - 1] == '/';
    assert w[..|w| - 1] == "https://x/.netlify/identity/";
  }

  /**
   * `getGoTrueAdmin(context)` for `identity = context?.clientContext?.identity`:
   * absent unless both `identity.url` and `identity.token` are truthy.
   */
  function GoTrueAdmin(identity: Json): (r: Option<Admin>)
    ensures r.Some? <==> Truthy(Get(identity, "url")) && Truthy(Get(identity, "token"))
    ensures r.Some? ==> r.value.token == Get(identity, "token")
    ensures r.Some? ==> r.value.base == StripTrailingSlash(StringOf(Get(identity, "url")))
  {
    var url := Get(identity, "url");
    var token := Get(identity, "token");
    if !Truthy(url) || !Truthy(token) then None
    else Some(Admin(StripTrailingSlash(StringOf(url)), token))
  }
}
