# qarilive-site request handlers, modelled in Dafny

qarilive-site is a sales-referral platform. Admins, master agents (MAs)
and the agents under them sign in with Netlify Identity. They call a set of
Netlify functions. These list and create accounts, count agents per master
agent, take customer submissions with a proof image, report approved
earnings, read bank details and build payout batches.

This project models each of those handlers as a decision over inputs that
have already been received. Those inputs are:

- the request event (method, headers, query, body text);
- what `jwt.decode` makes of the bearer token;
- the function context's `user` or `identity` object and the environment
  variables;
- the replies of the upstream calls, given in advance. A sequence of
  identity-API pages stands for the fetch loop. Each SQL query is a
  function of its parameters over a table of rows.

A handler's result is a `Response(status, reply)`. The reply is a payload,
the bare `{ ok: true }` preflight, or an error with its message (for the engine's own exceptions, a name standing for the message).

One Dafny module per source file models that file's handler and helpers. A
few shared modules hold what several files repeat:

- JavaScript values, truthiness, `String()` and `||` (`JsValues`);
- the string built-ins (`JsStrings`);
- the request and response envelope and the bearer token (`Http`);
- the admin checks and `sub` (`Claims`);
- reading identity users (`Identity`);
- `parseNextLink` (`LinkHeader`);
- the two paging schemes (`Pagination`);
- the stable sort (`Sorting`);
- the agent count (`AgentTally`);
- the approved-earnings fold (`Aggregates`);
- `Number()` and `toFixed(2)` (`JsNumbers`);
- the data-URL parsers (`DataUrls`);
- the account fields and metadata merges (`Accounts`);
- the submission row (`Submissions`).

Imperative code keeps its form:

- the `while (url)` and page-number loops, the counting loops and
  `parseNextLink`'s loop are methods with loop invariants;
- each is proved equal to the function that specifies it;
- the properties are lemmas about those functions.

The two tables that are upserted by owner id are classes holding a `map`:
`agents` in agent-upsert and `agent_payout_details` in agent-payout-set.

Where the system's design description and the code differ, the model
follows the code:

- the agent count has no tie-break by code, so equal counts keep the order
  in which their codes first appear (`AgentTally.ByMasterAgentOrdered`);
- agent-submission-create.js has no size ceiling on the data URL
  (`AgentSubmissionCreate.NoSizeGuard`), and a malformed one is a 500, not
  a 400 (`AgentSubmissionCreate.MalformedDataUrlThrows`);
- a bank lookup that finds nothing is 200 with `bank: null`, not 404
  (`AdminBankOne.NoRowIsNullBank`);
- the numbered listings ask for 1000 users a page, not 100 (`Pagination.PerPage`);
- user-create.js never finds the invited user by e-mail: the lookup always
  throws (`UserCreate.NeverUnlocated`).

## Model

| member | source | states |
|---|---|---|
| Wrappers.MapAll | netlify/functions/admin/users-list.js:87-109 | `xs.map(f)` with a callback that may throw: one result per element, in order, or a throw exactly when `f` throws for some element |
| Wrappers.CountWhere | netlify/functions/ma-agent-count.js:48-57 | a counting loop whose test may throw: it throws exactly when the test throws for some element, and the count is at most the number of elements |
| JsValues.Or | netlify/functions/admin/users-list.js:25 | `a \|\| b` is one of its operands, truthy exactly when either operand is, and the left one whenever that is truthy |
| JsValues.Get | netlify/functions/admin/users-list.js:25 | `v?.key` is defined only for an object having the key, and is then that field's value |
| JsValues.StringOf | netlify/functions/agent-stats.js:103 | `String(v)` of a string is the string itself |
| JsValues.StrOr | netlify/functions/agent-stats.js:107 | `String(v \|\| "")` is "" for every falsy value and the string for a string |
| JsValues.Spread | netlify/functions/user-create.js:144-149 | every key of `{...v}` is a field of the object with the same value, and an object's key set is copied whole |
| JsValues.Elem0 | netlify/functions/users-list.js:93 | `v?.[0]` is undefined for an empty array or string and for null, booleans and numbers; otherwise it is a member of the array, the one-character prefix of the string, or an object's field "0" |
| JsValues.IntToString | netlify/functions/payout-batch-create.js:89-96 | `String(n)` of an integer is non-empty and has no comma |
| JsStrings.Trim | netlify/functions/admin/users-list.js:99 | `trim()` removes exactly the leading and trailing white space: `s` is white space, the result, white space, and the result neither starts nor ends with white space |
| JsStrings.TrimStartShape | netlify/functions/admin/users-list.js:36 | `trimStart()` (the `\s*` of the link expression) leaves a suffix not starting with white space, having removed only white space |
| JsStrings.Lower | netlify/functions/admin/users-list.js:44 | `toLowerCase()` keeps the length, leaves no upper-case letter, keeps every other character, and agrees with its input ignoring case (both upper-case alike) |
| JsStrings.Upper | netlify/functions/admin/users-list.js:100 | `toUpperCase()` keeps the length, leaves no lower-case letter and keeps every other character |
| JsStrings.IndexOf | netlify/functions/agent-upsert.js:18 | `indexOf` gives the first occurrence, and -1 (`None`) only when there is none |
| JsStrings.ReplaceFirstParts | netlify/functions/agent-upsert.js:18 | `replace` with a string pattern keeps the text before and after the first occurrence and puts the replacement in its place, changes nothing without an occurrence, and replacing a pattern by itself changes nothing |
| JsStrings.SliceTo | netlify/functions/ma-agent-count.js:41 | `slice(0, n)` is the first `n` characters, or all of a shorter string |
| JsStrings.ReplaceChar | netlify/functions/payout-batch-create.js:92 | `replaceAll(a, b)` keeps the length, leaves no `a` when `b` differs, turns each `a` into `b`, keeps every other character, and is the identity on text without `a` |
| JsStrings.Split | netlify/functions/admin/users-list.js:34 | `split(",")` gives at least one piece, no piece holds a comma, and joining the pieces gives the input back |
| JsStrings.SplitJoin | netlify/functions/admin/users-list.js:34 | splitting a join of comma-free pieces gives the pieces back |
| JsStrings.JoinAvoids | netlify/functions/payout-batch-create.js:84-97 | a character absent from the separator and from every piece is absent from the join |
| JsStrings.TrimUpperCommute | netlify/functions/ma-agent-list.js:19-21 | trimming and upper-casing commute |
| JsStrings.TrimIdempotent | netlify/functions/ma-agent-list.js:19-21 | trimming twice is trimming once |
| JsStrings.NormalizeIdempotent | netlify/functions/ma-agent-list.js:28 | a code that is already trimmed and upper-cased is unchanged by normalising again, so comparing normalised codes is stable |
| JsStrings.UpperIdempotent | netlify/functions/ma-agent-list.js:76-77 | upper-casing twice is upper-casing once |
| JsStrings.LowerIdempotent | netlify/functions/ma-agent-list.js:71 | lower-casing twice is lower-casing once |
| Http.BearerText | netlify/functions/admin/users-list.js:16-18 | the text has no white space at its ends and, with the scheme, is at least seven characters shorter than the header |
| Http.BearerTextPiece | netlify/functions/admin/users-list.js:16-18 | the text is a piece of the header itself, found after the `Bearer ` scheme when there is one |
| Http.BearerToken | netlify/functions/admin/users-list.js:16-20 | `getBearerToken` is `null` exactly when that text is empty |
| Http.BearerTokenShape | netlify/functions/admin/users-list.js:16-20 | a token is non-empty and neither starts nor ends with white space |
| Http.BearerRoundTrip | netlify/functions/admin/users-list.js:18 | `Bearer <t>` yields `t` back for every trimmed non-empty `t` |
| Http.BareTokenRoundTrip | netlify/functions/admin/users-list.js:18 | a header that is the bare token yields the token |
| Http.Crash | netlify/functions/admin/users-list.js:112-115 | the catch block answers 500 with `ok: false` |
| Http.SafeStr | netlify/functions/ma-submissions-list.js:26-28 | `String(v ?? "").trim()`: only null gives "", a string is trimmed, and `false` gives "false" |
| Http.BodyObject | netlify/functions/ma-submissions-list.js:140-143 | the parsed body that the handler reads fields from is never null |
| Http.ParsedOrEmpty | netlify/functions/user-create.js:112-114 | `JSON.parse(txt \|\| "{}")` throws exactly for non-empty text that is not JSON, and any value other than `{}` is the upstream text's own |
| Claims.HasAdminRoleExactly | netlify/functions/admin/users-list.js:22-30 | the roles-only `isAdmin` holds exactly when `app_metadata.roles` is an array holding the string "admin" |
| Claims.AdminVariantsCompared | netlify/functions/users-list.js:23-28 | the Identity variant accepts everyone the roles-only variant accepts, also accepts `user_metadata.role === "admin"`, and compares that role case-sensitively |
| Claims.SubjectOf | netlify/functions/ma-submissions-list.js:22-23 | `decoded?.sub \|\| null` is present exactly when `sub` is truthy, and is the string itself for a string |
| Claims.CallerOf | netlify/functions/ma-submissions-list.js:18-24 | no token is anonymous; a decoder that throws is reported as such; otherwise the caller is known by `sub` or anonymous |
| Identity.LowerOf | netlify/functions/admin-agent-stats.js:48 | `(x \|\| "").toLowerCase()` throws exactly for a truthy non-string; the `String()` form never throws; falsy values give "" |
| Identity.DirectAgrees | netlify/functions/agent-stats.js:103 | where the direct read does not throw, it agrees with the `String()` read |
| Identity.MetaOf | netlify/functions/admin/users-list.js:88 | `u.user_metadata \|\| {}` is always truthy, and is the metadata when that is truthy |
| Identity.FirstTruthy | netlify/functions/admin/users-list.js:93-97 | a chain `m[k1] \|\| … \|\| ""` is truthy exactly when some key's value is truthy, and is "" otherwise |
| Identity.FirstTruthyPicks | netlify/functions/admin/users-list.js:93-97 | the chain yields the value of its first truthy key |
| Identity.ParentCode | netlify/functions/admin/users-list.js:91-100 | the parent code is "" when no key of the chain is set |
| Identity.ParentCodeNormal | netlify/functions/admin/users-list.js:99-100 | a parent code is already trimmed and upper-cased |
| Identity.StripTrailingSlash | netlify/functions/users-list.js:43 | `replace(/\/$/, "")` removes one trailing slash if there is one, and otherwise changes nothing |
| Identity.StripAtMostOne | netlify/functions/users-list.js:43 | the result is a prefix at most one character shorter, so a double slash keeps one |
| Identity.GoTrueAdmin | netlify/functions/users-list.js:40-45 | the admin endpoint exists exactly when `identity.url` and `identity.token` are truthy, with the slash-stripped base and the token |
| LinkHeader.CloseAt | netlify/functions/admin/users-list.js:36 | `[^>]+` stops at the first `>` after the `<` |
| LinkHeader.ParseNextLink | netlify/functions/admin/users-list.js:32-40 | the loop over the comma-separated pieces returns the first piece's capture, and null for an empty header |
| LinkHeader.MatchHereComplete | netlify/functions/admin/users-list.js:36 | `<u>;` followed by white space and `rel="next"` matches, capturing `u`, whenever `u` is non-empty and free of `>` |
| LinkHeader.MatchHereSound | netlify/functions/admin/users-list.js:36 | a match captures a non-empty `u` free of `>`, and the text starts with `<u>;`, white space and `rel="next"` |
| LinkHeader.MatchAtIff | netlify/functions/admin/users-list.js:36 | the regular expression matches at an index, capturing `u`, if and only if that pattern occurs there |
| LinkHeader.NextLinkShape | netlify/functions/admin/users-list.js:32-40 | a returned URL is non-empty and holds neither `>` nor `,`, so `while (url)` stops exactly at null |
| LinkHeader.RelPrefix | netlify/functions/admin/users-list.js:36 | the text `rel="r"` starts with `rel="next"` exactly when `r` is "next" |
| LinkHeader.PieceFirstMatch | netlify/functions/admin/users-list.js:35-37 | a rendered entry, after white space, matches with its URL exactly when its relation is "next" |
| LinkHeader.NextLinkOfRendered | netlify/functions/admin/users-list.js:32-40 | for a header rendered from entries as in section 3 of RFC 8288, `parseNextLink` yields the URL of the first entry tagged "next", and null when none is |
| Pagination.SpreadItems | netlify/functions/admin/users-list.js:81 | `push(...v)` adds an array's elements or a string's characters, and throws for anything else |
| Pagination.PageItems | netlify/functions/users-list.js:76-85 | `res.json()` throws on an empty text and `JSON.parse(txt \|\| "[]")` reads it as `[]`; a text that is not JSON throws; the two-shape reading throws only then |
| Pagination.CollectUsers | netlify/functions/admin/users-list.js:74-85 | the `while (url)` loop (fetch, relay a non-ok page, append, follow the next link) computes the crawl function |
| Pagination.ListedRun | netlify/functions/admin/users-list.js:74-85 | a listed crawl is a run of ok pages, each naming a next page except the last, and its users are theirs concatenated in fetch order |
| Pagination.RunListed | netlify/functions/admin/users-list.js:74-85 | conversely, such a run of pages is always listed in full |
| Pagination.FailedAt | netlify/functions/agent-stats.js:73-80 | a relayed failure is the first non-ok page, with its status, its text and the URL it was fetched from |
| Pagination.WrappedOrNothing | netlify/functions/users-list.js:79-83 | a `{ users: [...] }` body contributes its array, and any other non-array body contributes nothing |
| Pagination.ReadNumbered | netlify/functions/ma-agent-list.js:66-92 | a numbered page that is read has users, and asks for the next page exactly when it holds `perPage` of them |
| Pagination.StopRule | netlify/functions/ma-agent-list.js:67-92 | a non-array or empty page, or one shorter than 1000, is the last one read |
| Pagination.NumberedRun | netlify/functions/ma-agent-list.js:47-94 | a listed numbered crawl is a run of full pages ended by a stopping page, with their users in fetch order |
| Sorting.SortSorted | netlify/functions/agent-stats.js:115 | the sort's result is ordered by the comparator |
| Sorting.SortPermutes | netlify/functions/agent-stats.js:115 | the sort's result holds the same elements, as often |
| Sorting.SortStable | netlify/functions/ma-agent-list.js:97 | the elements the comparator ties keep their input order |
| Sorting.SortLength | netlify/functions/agent-stats.js:115 | sorting keeps the length |
| Sorting.PrefixKeepsFirst | netlify/functions/agent-submissions-self.js:62-63 | cutting a sorted sequence short leaves out nothing ranked ahead of what it keeps |
| Sorting.DescendingIntStrictWeak | netlify/functions/agent-stats.js:115 | `(a, b) => b.n - a.n` is a strict weak order |
| Sorting.DescendingLexStrictWeak | netlify/functions/ma-agent-list.js:97 | `(a, b) => b.k.localeCompare(a.k)`, read as code-unit order, is a strict weak order |
| Sorting.LexTrichotomy | netlify/functions/ma-agent-list.js:97 | code-unit order is total and irreflexive |
| Sorting.LexTransitive | netlify/functions/ma-agent-list.js:97 | code-unit order is transitive |
| AgentTally.Classify | netlify/functions/agent-stats.js:101-108 | a user throws exactly when it is null or its role read throws; it is an agent exactly when its lower-cased role is "agent", with the trimmed, upper-cased `parent_ma_code` as its parent |
| AgentTally.TallyAgents | netlify/functions/agent-stats.js:98-111 | the counting loop throws exactly when some user throws; otherwise `totalAgents` is the number of agents, the keys are the non-empty parent codes in first-seen order, and `counts[p]` is the number of agents of `p` |
| AgentTally.TallyOf | netlify/functions/agent-stats.js:98-111 | the keys of `counts` are exactly the codes listed |
| AgentTally.CountsStep | netlify/functions/agent-stats.js:110 | `counts[parent] = (counts[parent] \|\| 0) + 1` keeps every count exact |
| AgentTally.ParentsFacts | netlify/functions/agent-stats.js:108-110 | the listed codes are distinct and non-empty, and are exactly the codes with a positive count |
| AgentTally.CountsAddUp | netlify/functions/agent-stats.js:106-110 | the counts add up to `totalAgents` less the agents with an empty parent code, so they never exceed it |
| AgentTally.ByMasterAgentOrdered | netlify/functions/agent-stats.js:113-115 | `byMasterAgent` holds exactly the entries of `counts`, largest count first, with ties in `Object.entries` order |
| AgentTally.StatsOf | netlify/functions/agent-stats.js:98-122 | the reply is absent exactly when some user throws |
| AgentTally.Summarise | netlify/functions/agent-stats.js:98-122 | the counting loop followed by the sort computes that reply |
| AgentTally.StatsFacts | netlify/functions/agent-stats.js:113-122 | a reply's `totalUsers` is the number of users and `totalAgents` the number of agents; it lists every non-empty parent code once with its exact count, largest first, and those counts add up to the agents with a parent code |
| AdminUsersList.RoleFromList | netlify/functions/admin/users-list.js:48-54 | the roles list decides with the fixed priority master_agent, agent, admin; a list holding none of them, or a value that is not an array, gives "unknown" |
| AdminUsersList.InferRole | netlify/functions/admin/users-list.js:42-55 | `inferRole` throws exactly when the metadata role is a truthy non-string, and never returns "" |
| AdminUsersList.MetaRoleWins | netlify/functions/admin/users-list.js:44-45 | a metadata role that is non-empty after lower-casing and trimming is returned as is, known role or not |
| AdminUsersList.EmptyMetaRoleFallsBack | netlify/functions/admin/users-list.js:48-54 | without a metadata role the roles list decides, a missing list counting as empty |
| AdminUsersList.RoleListOrderIrrelevant | netlify/functions/admin/users-list.js:50-52 | two lists with the same strings give the same role, whatever their order |
| AdminUsersList.MapUser | netlify/functions/admin/users-list.js:87-109 | a row throws exactly for a null user or a throwing role; its role is `inferRole`, its parent the normalised chain `parent_ma_code \|\| ma_code \|\| ma_ref \|\| parent_ma_ref`, its name `full_name \|\| name \|\| ""`, its email `email \|\| ""` |
| AdminUsersList.Handle | netlify/functions/admin/users-list.js:57-69 | non-GET is 405, no token 401, not admin (or a throwing decoder) 403, missing environment 500, and only then the crawl; a success implies all the checks passed |
| AdminUsersList.Serve | netlify/functions/admin/users-list.js:71-111 | the reply succeeds exactly when every page is fetched and every user maps |
| AdminUsersList.Respond | netlify/functions/admin/users-list.js:74-111 | the loop and the `map` compute that reply |
| AdminUsersList.SuccessCoversAllPages | netlify/functions/admin/users-list.js:74-109 | a success has one row per user of a complete run of pages, each mapped from its user, in fetch order |
| AdminUsersList.NonOkPageRelayed | netlify/functions/admin/users-list.js:78 | a non-ok page is relayed with its own status and text, and no user list is returned |
| UsersList.MapUser | netlify/functions/users-list.js:91-101 | a row throws exactly for a null user |
| UsersList.MappedRole | netlify/functions/users-list.js:93-97 | the role is the lower-cased metadata role, else the lower-cased first entry of `app_metadata.roles`, else "—", and never empty |
| UsersList.MappedName | netlify/functions/users-list.js:98 | the name falls back from `full_name` to `name` to "—" |
| UsersList.MappedParentRaw | netlify/functions/users-list.js:99 | `parent_ma` is the first truthy of `parent_ma_code`, `ma_code`, `ma_ref`, passed through untrimmed and not upper-cased, and `parent_ma_ref` is not consulted |
| UsersList.Handle | netlify/functions/users-list.js:47-63 | OPTIONS is 200, non-GET 405, no token 401, decoder throwing 500, not admin by roles or metadata role 403, no identity context 500, then the crawl |
| UsersList.Respond | netlify/functions/users-list.js:65-103 | the loop and the `map` compute the reply |
| UsersList.SuccessCoversAllPages | netlify/functions/users-list.js:68-103 | a success has one row per user of a complete run of pages, in fetch order, so the number of rows is the number of users |
| UsersList.NonOkPageRelayed | netlify/functions/users-list.js:72-74 | a non-ok page is relayed with its status, its text and the URL it was fetched from |
| AgentStats.Handle | netlify/functions/agent-stats.js:43-62 | OPTIONS is 200, non-GET 405, no token 401, decoder throwing 500, not admin 403, no identity context 500 with `hasIdentityUrl` and `hasIdentityToken`, then the crawl and the count |
| AgentStats.NoIdentity | netlify/functions/agent-stats.js:54-61 | the 500 for a missing identity context never reports both the URL and the token as present |
| AgentStats.HandleRequest | netlify/functions/agent-stats.js:40-122 | the handler body computes that reply |
| AgentStats.Respond | netlify/functions/agent-stats.js:64-122 | the loop, the count and the sort compute the reply |
| AgentStats.TotalUsersCoversAllPages | netlify/functions/agent-stats.js:68-122 | a success summarises a complete run of pages, and `totalUsers` is the number of users on them |
| AgentStats.NonOkPageRelayed | netlify/functions/agent-stats.js:73-80 | a non-ok page is relayed with its status, its text and the URL attempted |
| AgentStats.OnlyNullUsersThrow | netlify/functions/agent-stats.js:101-103 | counting throws exactly when some user is null, since `String(meta.role \|\| "")` accepts any role |
| AdminAgentStats.Handle | netlify/functions/admin-agent-stats.js:4-15 | a missing environment variable is 500 before any fetch, and nothing checks the caller |
| AdminAgentStats.HandleRequest | netlify/functions/admin-agent-stats.js:2-71 | the handler body computes that reply |
| AdminAgentStats.TotalUsersCoversAllPages | netlify/functions/admin-agent-stats.js:22-70 | a success summarises a complete run of pages whose texts are JSON arrays (or strings), and `totalUsers` is the number of users on them |
| AdminAgentStats.StrictPageRead | netlify/functions/admin-agent-stats.js:33-34 | `await res.json()` read a page only if its text is a JSON array or string |
| AdminAgentStats.NonOkPageRelayed | netlify/functions/admin-agent-stats.js:25-31 | a non-ok page is relayed with its status and text |
| AdminAgentStats.NonStringRoleThrows | netlify/functions/admin-agent-stats.js:48 | a truthy non-string role makes this count throw, where agent-stats would read it with `String()` |
| MaAgentList.MatchingRowsExact | netlify/functions/ma-agent-list.js:69-90 | a user is listed exactly when its role is "agent" and `ma_ref \|\| parent_ma_code`, normalised, is the code, which the row keeps |
| MaAgentList.RosterOrdered | netlify/functions/ma-agent-list.js:96-99 | the roster holds exactly the matching rows, newest `created_at` first, ties in fetch order, and `count` is their number |
| MaAgentList.Handle | netlify/functions/ma-agent-list.js:6-40 | no user is 401, a role other than master_agent 403, no query code 400, an own code that is empty or different 403, missing environment 500, then the crawl |
| MaAgentList.OnlyOwnCode | netlify/functions/ma-agent-list.js:13-79 | a success is for a logged-in master agent's own non-empty code, and lists only agents of that code |
| MaAgentList.RosterOwnCode | netlify/functions/ma-agent-list.js:73-99 | every agent in a roster carries the roster's code |
| MaAgentList.Collect | netlify/functions/ma-agent-list.js:43-99 | the `while (true)` loop over numbered pages and the sort compute the reply |
| MaAgentList.PushMine | netlify/functions/ma-agent-list.js:69-90 | the inner loop appends the rows of the page's matching users, in order |
| MaAgentList.HandleRequest | netlify/functions/ma-agent-list.js:3-103 | the handler body computes the handler's reply |
| MaAgentList.NonOkPageRelayed | netlify/functions/ma-agent-list.js:57-64 | a non-ok page is relayed with its status and at most 500 characters of its text |
| MaAgentCount.CountsIsMine | netlify/functions/ma-agent-count.js:48-56 | where the test does not throw, a user is counted exactly when ma-agent-list would list it |
| MaAgentCount.PageCountIsRows | netlify/functions/ma-agent-count.js:48-57 | a page's count is the number of rows ma-agent-list takes from it |
| MaAgentCount.Handle | netlify/functions/ma-agent-count.js:5-18 | a missing query code is 400 before the environment check (500), and nothing checks the caller |
| MaAgentCount.CountPage | netlify/functions/ma-agent-count.js:48-57 | the inner loop adds the page's count, or throws when a user does |
| MaAgentCount.Collect | netlify/functions/ma-agent-count.js:22-64 | the `while (true)` loop computes the reply |
| MaAgentCount.HandleRequest | netlify/functions/ma-agent-count.js:3-68 | the handler body computes the handler's reply |
| MaAgentCount.CountMatchesRoster | netlify/functions/ma-agent-count.js:26-62 | a successful count is the number of agents ma-agent-list lists over the same pages |
| MaAgentCount.CountEqualsListCount | netlify/functions/ma-agent-count.js:64 | so the two handlers report the same number for a code |
| MaAgentCount.NonOkPageRelayed | netlify/functions/ma-agent-count.js:36-43 | a non-ok page is relayed with at most 500 characters of its text |
| MaAgentCount.NonStringRoleThrows | netlify/functions/ma-agent-count.js:50 | a truthy non-string role on the first page turns the whole count into a 500 |
| Accounts.NewUserNormalised | netlify/functions/user-create.js:95-98 | the new user's e-mail and role are trimmed and lower-case, the parent code trimmed and upper-case, the name trimmed |
| Accounts.LowerTrimNormal | netlify/functions/user-create.js:95-96 | `trim().toLowerCase()` leaves no upper-case letter and no white space at either end |
| Accounts.UpperTrimNormal | netlify/functions/user-create.js:98 | `trim().toUpperCase()` leaves no lower-case letter and no white space at either end |
| Accounts.Rejection | netlify/functions/user-create.js:100-102 | a new user is accepted exactly when e-mail and name are set and the role is master_agent, or agent with a parent code; the three 400 messages come in that order |
| Accounts.UserMetaMerge | netlify/functions/user-create.js:144-149 | the merged `user_metadata` keeps every stored key, sets `full_name` and `role`, sets `parent_ma_code` only for an agent, and adds no other key |
| Accounts.AppMetaMerge | netlify/functions/user-create.js:151-154 | the merged `app_metadata` replaces `roles` by `[role]` and keeps every other key |
| Accounts.BanMerge | netlify/functions/user-disable.js:58 | the new `app_metadata` is the stored one with `banned: true` and every other key kept; banning twice is banning once |
| Accounts.FromBody | netlify/functions/user-create.js:94-102 | a body that does not parse (or is null) is a 500, a rejected new user a 400 with its message, and only an accepted one reaches the upstream calls |
| UserCreate.LookupError | netlify/functions/user-create.js:47-74 | `findUserIdByEmail` throws on its first page: the page's status and text when it is not ok, a SyntaxError when it is not JSON, otherwise a ReferenceError for the undeclared `allUsers` |
| UserCreate.InvitedId | netlify/functions/user-create.js:123-127 | the invited id is the invite reply's truthy `id`, and null when the reply has none or does not parse |
| UserCreate.Provision | netlify/functions/user-create.js:109-166 | a failed invite is relayed with its status; an invite without an id ends in the lookup's exception; a failed read is relayed; the write is made exactly when the invite gave an id and the read gave a non-null user |
| UserCreate.Handle | netlify/functions/user-create.js:76-102 | OPTIONS is 200, non-POST 405, no token 401, not admin 403 (a throwing decoder 500), no identity context 500, then the body checks |
| UserCreate.NeverUnlocated | netlify/functions/user-create.js:129-133 | the 500 "could not locate created user id" is never sent: an invite reply without an id always ends in the exception, and nothing is written |
| UserCreate.CreatedMeansWritten | netlify/functions/user-create.js:135-166 | a created reply means every call succeeded, the id came from the invite, and the metadata written carries the new role, name and an agent's non-empty parent code |
| UserCreate.CreatedOnlyForAdmins | netlify/functions/user-create.js:78-102 | only an admitted caller's valid request, with the identity context, can create a user |
| AdminUserCreate.Provision | netlify/functions/admin/user-create.js:57-99 | a failed invite is relayed; an invite text that is not JSON throws; an invite without a truthy `id` is 500; the write is made exactly when the invite gave an id |
| AdminUserCreate.Handle | netlify/functions/admin/user-create.js:28-50 | non-POST is 405, no token 401, not admin by the roles list 403, missing environment 500, then the body checks |
| AdminUserCreate.CreatedMeansWritten | netlify/functions/admin/user-create.js:70-99 | a created reply means both calls succeeded, the id is the invite reply's, and the metadata written is the invite reply's merged with the new name, role and an agent's parent code |
| AdminUserCreate.CreatedOnlyForAdmins | netlify/functions/admin/user-create.js:22-50 | only a caller with "admin" in the roles list, with the environment set and a valid new user, can create a user; `user_metadata.role` grants nothing |
| AdminUserCreate.NullInviteIsMissingId | netlify/functions/admin/user-create.js:70-72 | an invite reply that is `null` or empty ends in the 500 and writes nothing |
| UserDisable.Disable | netlify/functions/user-disable.js:48-71 | a failed read is relayed and nothing is written; a null user throws; otherwise the write goes to that user's URL and a failed write is relayed |
| UserDisable.Handle | netlify/functions/user-disable.js:28-44 | non-POST is 405, no token 401, not admin 403, missing environment 500, an empty trimmed id 400 |
| UserDisable.WritesOnlyBan | netlify/functions/user-disable.js:55-65 | what is written is the stored user with `app_metadata.banned` true; every other key, and a truthy `user_metadata`, go back unchanged, and a falsy one is sent as `{}` |
| UserDisable.DisableIdempotent | netlify/functions/user-disable.js:58 | disabling a user already banned writes the same `app_metadata` back |
| UserDisable.DisabledOnlyForAdmins | netlify/functions/user-disable.js:30-71 | only an admin's request naming a user, with the environment set and both calls ok, succeeds, and it made the write |
| Submissions.NullIfEmpty | netlify/functions/ma-submissions-list.js:217-219 | `x \|\| null` never stores an empty text, and reading NULL back as "" gives the field again |
| DataUrls.ParseStrict | netlify/functions/ma-submissions-list.js:30-38 | what `/^data:([^;]+);base64,(.+)$/` accepts is a MIME type without `;` and a one-line payload, and the input is exactly their rendering |
| DataUrls.StrictParseComplete | netlify/functions/ma-submissions-list.js:33 | every URL of that form is accepted with exactly its parts |
| DataUrls.StrictParseIff | netlify/functions/ma-submissions-list.js:33-34 | the strict parser yields a URL if and only if the input renders it and it has the strict form |
| DataUrls.LastMarkerAt | netlify/functions/agent-submission-create.js:30 | finds the last `;base64,` in range, where a greedy `(.+)` stops |
| DataUrls.ParseGreedy | netlify/functions/agent-submission-create.js:28-36 | what `/^data:(.+);base64,(.+)$/` accepts is a one-line MIME type, which may hold `;`, and a one-line payload, and the input is their rendering |
| DataUrls.GreedyParseLongest | netlify/functions/agent-submission-create.js:30 | every reading of a string as such a URL is accepted, and the parser returns the one with the longest MIME type |
| DataUrls.GreedyAcceptsStrict | netlify/functions/agent-submission-create.js:30 | every URL with a one-line MIME type that the strict parser accepts, the greedy one accepts too |
| DataUrls.StrictRefusesParameter | netlify/functions/ma-submissions-list.js:33 | `data:a;b;base64,QQ` is refused by the strict parser |
| DataUrls.GreedyKeepsParameter | netlify/functions/agent-submission-create.js:30 | the same URL is accepted by the greedy parser with MIME type `a;b` |
| MaSubmissionsList.ExtOf | netlify/functions/ma-submissions-list.js:40-49 | png, webp and gif map to their extensions and every other MIME type, jpeg included, to jpg |
| MaSubmissionsList.Collapse | netlify/functions/ma-submissions-list.js:52 | `replace(/[^\w.\-]+/g, "_")` leaves only safe characters, is no longer than its input and is non-empty for a non-empty input |
| MaSubmissionsList.CollapseSafePrefix | netlify/functions/ma-submissions-list.js:52 | safe characters pass through unchanged |
| MaSubmissionsList.CollapseRun | netlify/functions/ma-submissions-list.js:52 | a maximal run of other characters becomes one `_` |
| MaSubmissionsList.Sanitize | netlify/functions/ma-submissions-list.js:51-54 | `sanitizeFilename` is non-empty, at most 120 characters and only safe characters, and keeps a name that already is so |
| MaSubmissionsList.ImageExtLength | netlify/functions/ma-submissions-list.js:175 | the extension a name ends with is 0, 4 or 5 characters long, and when non-zero is an image extension in some casing |
| MaSubmissionsList.StripImageExt | netlify/functions/ma-submissions-list.js:175 | removing `/\.(png\|jpg\|jpeg\|webp\|gif)$/i` leaves a prefix, and what it removed is an image extension |
| MaSubmissionsList.StripsExtension | netlify/functions/ma-submissions-list.js:175 | any casing of a known extension is removed, and only it |
| MaSubmissionsList.KeepsOtherNames | netlify/functions/ma-submissions-list.js:175 | a name without an image extension is kept whole |
| MaSubmissionsList.FileNameShape | netlify/functions/ma-submissions-list.js:174-176 | the stored name is `QariLive_<MA_CODE>_<ts>_<safe name>.<ext>`, with a non-empty safe part of at most 120 characters and one of the four extensions |
| MaSubmissionsList.Rejection | netlify/functions/ma-submissions-list.js:157-169 | the form is accepted exactly when the four fields are set, the data URL is at most 10 MiB and parses; the six 400 messages come in that order |
| MaSubmissionsList.Store | netlify/functions/ma-submissions-list.js:171-233 | a missing Drive folder throws before any upload; the upload carries the composed file name; a row is inserted exactly when the upload gave an id and a database URL is set; success exactly when the insert returns |
| MaSubmissionsList.Handle | netlify/functions/ma-submissions-list.js:131-169 | no caller is 401 before the method check (405); a throwing decoder or body is 500; a rejected form 400; anything uploaded passed every check |
| MaSubmissionsList.InsertedRowPending | netlify/functions/ma-submissions-list.js:187-223 | every inserted row is pending, carries the caller's id and its non-empty code, came with at most 10 MiB of data URL, and stores empty amount, date and notes as NULL |
| AgentSubmissionCreate.SafeUpper | netlify/functions/agent-submission-create.js:38-40 | `safeUpper` leaves no lower-case letter |
| AgentSubmissionCreate.Rejection | netlify/functions/agent-submission-create.js:131-134 | the form is accepted exactly when the code, name and phone are set and the data URL is truthy; the four 400 messages come in that order |
| AgentSubmissionCreate.Thrown | netlify/functions/agent-submission-create.js:175-177 | this handler's catch answers 500 with the exception's message |
| AgentSubmissionCreate.RowOf | netlify/functions/agent-submission-create.js:149-164 | the inserted row's status is always pending |
| AgentSubmissionCreate.Store | netlify/functions/agent-submission-create.js:137-171 | a data URL the greedy parser refuses throws before any upload; otherwise the upload carries the given name or "proof.jpg"; a row is inserted exactly when the upload gave an id, with the shared view URL; success exactly when the insert returns; the status is 200 or 500 |
| AgentSubmissionCreate.Accept | netlify/functions/agent-submission-create.js:131-137 | a rejected form is a 400 with its message, and a 400 is only ever a missing field |
| AgentSubmissionCreate.Handle | netlify/functions/agent-submission-create.js:104-134 | non-POST is 405 before the caller check (401); a throwing decoder or body is 500; then the four checks |
| AgentSubmissionCreate.BadRequestOnlyForMissingFields | netlify/functions/agent-submission-create.js:131-137 | a 400 from the handler is only ever a missing field |
| AgentSubmissionCreate.MalformedDataUrlThrows | netlify/functions/agent-submission-create.js:137-177 | a malformed data URL is a 500 with nothing uploaded, not a 400 |
| AgentSubmissionCreate.NoSizeGuard | netlify/functions/agent-submission-create.js:136-144 | every accepted form whose data URL parses is uploaded, however long the URL |
| AgentSubmissionCreate.InsertedRowPending | netlify/functions/agent-submission-create.js:149-164 | every inserted row is pending, belongs to the caller, carries its non-empty code, and leaves the unused columns NULL |
| Aggregates.TotalsOf | netlify/functions/admin/earnings-one.js:48-55 | the aggregate counts no more rows than the table holds, and an empty table gives 0 and 0 |
| Aggregates.TotalsStep | netlify/functions/admin/earnings-one.js:48-55 | one more row adds 1 to the count and its amount to the total exactly when it is an approved row of the target, and changes nothing otherwise |
| Aggregates.TotalsAppend | netlify/functions/admin/earnings-one.js:48-55 | the aggregate of two blocks of rows is the sum of their aggregates |
| Aggregates.TotalsSwap | netlify/functions/admin/earnings-one.js:48-55 | the order of the rows does not change the aggregate |
| Aggregates.UncountedRowsIgnored | netlify/functions/admin/earnings-one.js:53-54 | a row with a NULL status (read as pending) or of another target adds nothing |
| Aggregates.NullAmountCounted | netlify/functions/admin/earnings-one.js:50-51 | an approved row with a NULL amount is counted but adds nothing to the total |
| Aggregates.AllCounted | netlify/functions/admin/earnings-one.js:50 | when every row is an approved row of the target, the count is the number of rows |
| Aggregates.TotalNonNegative | netlify/functions/admin/earnings-one.js:51 | with no negative amount the total is not negative |
| Aggregates.NoneCountedIsZero | netlify/functions/admin/earnings-one.js:48-75 | with no counted row the reply is 0 and 0, whatever else the table holds |
| Aggregates.TypeRejection | netlify/functions/admin/earnings-one.js:40-41 | `type` and `id` are accepted exactly when the id is set and the type is master_agent or agent; the two 400 messages come in that order |
| Aggregates.TargetOf | netlify/functions/admin/earnings-one.js:46-58 | a master agent is matched by the upper-cased id as `ma_code`; an agent by the id as given as `agent_user_id` |
| JsNumbers.StringToNumber | netlify/functions/payout-batch-create.js:44 | `Number("")` is 0 |
| JsNumbers.NumberOf | netlify/functions/payout-batch-create.js:44 | `Number(v)` of a parsed value: `null` is 0, a number is itself, a boolean 0 or 1, a string is read after trimming and blank text is 0 |
| JsNumbers.FieldNumber | netlify/functions/payout-batch-create.js:44 | `Number(body.key)`: a missing key (`undefined`) is NaN, and a key holding `null` is 0 |
| JsNumbers.NatToStringValue | netlify/functions/payout-batch-create.js:90 | the decimal text of a whole number is all digits and reads back as the number |
| JsNumbers.Cents | netlify/functions/payout-batch-create.js:91-93 | the hundredths `toFixed(2)` prints are the integer nearest to 100 times the value, halves rounded up |
| JsNumbers.Round2 | netlify/functions/payout-batch-create.js:79 | `+(x.toFixed(2))` is `x` rounded to hundredths, halves away from zero |
| JsNumbers.Fixed2Plain | netlify/functions/payout-batch-create.js:91-93 | the printed amount holds no comma and no line break |
| JsNumbers.ReadsAsDecimal | netlify/functions/payout-batch-create.js:79 | a numeral with a point reads as its whole part plus its fraction |
| JsNumbers.CentsTextReads | netlify/functions/payout-batch-create.js:79 | the text printed for `c` hundredths reads back as `c / 100` |
| JsNumberReads.CentsTextNumber | netlify/functions/payout-batch-create.js:79 | `Number` of that text is `c / 100`, and `-(c / 100)` with a minus sign in front |
| JsNumberReads.Round2IsParsedFixed2 | netlify/functions/payout-batch-create.js:79 | reading back what `toFixed(2)` printed gives exactly the value rounded to hundredths |
| JsNumberReads.Fixed2Trimmed | netlify/functions/payout-batch-create.js:79 | the printed text has no white space at either end, so the whole of it is read |
| JsNumberReads.Fixed2OfRound2 | netlify/functions/payout-batch-create.js:79-93 | printing the rounded payout gives the text printed from the unrounded product, except for a negative value that rounds to zero, which loses its minus sign |
| AdminEarningsOne.Handle | netlify/functions/admin/earnings-one.js:29-75 | non-GET is 405, no token 401, a throwing decoder 500, not admin 403, a bad type or id 400, otherwise the aggregate of the chosen target |
| AdminEarningsOne.MasterAgentEarnings | netlify/functions/admin/earnings-one.js:46-55 | a master agent's reply totals the approved rows whose `ma_code` is the upper-cased id |
| AdminEarningsOne.AgentEarnings | netlify/functions/admin/earnings-one.js:56-66 | an agent's reply totals the approved rows whose `agent_user_id` is the id, in its own case |
| AdminEarningsOne.EarningsOnlyForAdmins | netlify/functions/admin/earnings-one.js:31-41 | only an admin's GET with an accepted type and id gets an aggregate |
| PayoutBatchCreate.Compose | netlify/functions/payout-batch-create.js:54-109 | the batch carries the target's approved count and total, the rounded payout of the percentage, the type, id and batch id, and the CSV of those values |
| PayoutBatchCreate.Handle | netlify/functions/payout-batch-create.js:33-50 | non-POST is 405, no token 401, a throwing decoder 500, not admin 403, a body that does not parse 500, a bad type or id 400, a percentage that is NaN or outside 0 to 100 400 (a missing `commission_pct` being NaN and an explicit `null` 0), otherwise the composed batch |
| PayoutBatchCreate.NullPctIsZero | netlify/functions/payout-batch-create.js:44-50 | an explicit `"commission_pct": null` gets a batch at 0 per cent, while a body without the key is refused with 400 |
| PayoutBatchCreate.PctBoundsAccepted | netlify/functions/payout-batch-create.js:48 | a percentage is accepted exactly when it lies in 0 to 100, both ends included |
| PayoutBatchCreate.ShareWithinTotal | netlify/functions/payout-batch-create.js:79 | the unrounded share lies between 0 and the total |
| PayoutBatchCreate.CentsAtMost | netlify/functions/payout-batch-create.js:79 | rounding a value no larger than a whole total gives no more hundredths than the total has |
| PayoutBatchCreate.PayoutWithinTotal | netlify/functions/payout-batch-create.js:79 | the rounded payout lies between 0 and the total |
| PayoutBatchCreate.BatchIdPlain | netlify/functions/payout-batch-create.js:29-31 | `PB-<ms>-<HEX>` holds no comma and no line break |
| PayoutBatchCreate.ReplacedIdPlain | netlify/functions/payout-batch-create.js:89 | `id.replaceAll(",", " ")` leaves no comma |
| PayoutBatchCreate.FieldsPlain | netlify/functions/payout-batch-create.js:86-95 | each of the eight row values is free of commas and line breaks |
| PayoutBatchCreate.HeaderColumns | netlify/functions/payout-batch-create.js:85 | the header splits into the eight column names and is one line |
| PayoutBatchCreate.CsvOfPlainFields | netlify/functions/payout-batch-create.js:84-97 | the CSV is two lines, the header and the row, and the row splits back into its values |
| PayoutBatchCreate.ComposedCsv | netlify/functions/payout-batch-create.js:84-97 | the CSV of a composed batch is the header and the row of its eight values |
| PayoutBatchCreate.CsvShape | netlify/functions/payout-batch-create.js:84-109 | the CSV of a successful reply is two lines, the header and a data row that splits into its eight values, for a type of master_agent or agent |
| PayoutBatchCreate.BatchOnlyForAdmins | netlify/functions/payout-batch-create.js:35-50 | only an admin's POST with an accepted type, id and percentage gets a batch |
| AdminBankOne.UuidFromGroups | netlify/functions/admin/bank-one.js:29-31 | five hex groups of 8, 4, 4, 4 and 12 digits with a version digit 1 to 5 and a variant digit 8, 9, a or b, joined with dashes, pass the check |
| AdminBankOne.UuidGroups | netlify/functions/admin/bank-one.js:29-31 | everything that passes is such a join |
| AdminBankOne.UuidIgnoresCase | netlify/functions/admin/bank-one.js:30 | upper-casing an id does not change whether it passes |
| AdminBankOne.LookupOf | netlify/functions/admin/bank-one.js:51-79 | a UUID-shaped master-agent id is looked up as `user_id`, any other as the upper-cased `ma_code`; an agent id as `agent_user_id` |
| AdminBankOne.FirstMa | netlify/functions/admin/bank-one.js:53-68 | `LIMIT 1` gives no row exactly when none matches, and otherwise the first matching row |
| AdminBankOne.BankOf | netlify/functions/admin/bank-one.js:49-79 | an agent gets its `agent_payout_details` row or null; a master agent the first matching `ma_payout` row or null |
| AdminBankOne.Handle | netlify/functions/admin/bank-one.js:33-81 | non-GET is 405, no token 401, a throwing decoder 500, not admin 403, a bad type or id 400, otherwise 200 with the bank found |
| AdminBankOne.NoRowIsNullBank | netlify/functions/admin/bank-one.js:49-81 | an accepted request that finds no row is 200 with `bank: null` |
| AdminBankOne.MaBankMatches | netlify/functions/admin/bank-one.js:51-69 | a master-agent row in the reply is a row of the table whose user id, or upper-cased code, is the requested one |
| AdminBankOne.FoundRowMatches | netlify/functions/admin/bank-one.js:51-69 | the same for the dispatch alone |
| AdminBankOne.AgentLookupByUserId | netlify/functions/admin/bank-one.js:70-79 | an agent's bank is looked up by the id as given, never in `ma_payout` |
| AgentUpsert.IdentityOf | netlify/functions/agent-upsert.js:16-23 | an empty token is anonymous; a throwing decoder is reported; otherwise the caller is known exactly when `sub` is truthy |
| AgentUpsert.PrefixAgrees | netlify/functions/agent-upsert.js:18 | for a header that starts with `Bearer `, removing the first `Bearer ` reads the same token as `getBearerToken` |
| AgentUpsert.RemovesFirstAnywhere | netlify/functions/agent-upsert.js:18 | the first `Bearer ` is cut out of the middle of a header too, and the rest is trimmed |
| AgentUpsert.Decide | netlify/functions/agent-upsert.js:25-70 | non-POST is 405 before the caller check (401); a throwing decoder or body 500; a missing code 400; otherwise 200 and a write of the caller's normalised profile |
| AgentUpsert.AgentsTable.constructor | netlify/functions/agent-upsert.js:46-56 | the table starts empty |
| AgentUpsert.AgentsTable.Upsert | netlify/functions/agent-upsert.js:58-68 | the caller's row gets the new profile and login time and keeps its creation time; every other row stays |
| AgentUpsert.AgentsTable.Serve | netlify/functions/agent-upsert.js:25-70 | the reply is the decision's, and the table is written exactly as the decision says |
| AgentUpsert.UpsertedRow | netlify/functions/agent-upsert.js:58-68 | after an upsert the caller has one row with the given profile and login time, its creation time kept if it existed, and every other row unchanged |
| AgentUpsert.RepeatKeepsValues | netlify/functions/agent-upsert.js:61-67 | repeating an upsert keeps the profile, creation time and keys; only the login time moves |
| AgentUpsert.WriteOnlyOnSuccess | netlify/functions/agent-upsert.js:36-70 | a write happens exactly when the reply is 200, and its code is non-empty and upper-case, its e-mail lower-case, its name trimmed |
| AgentUpsert.RefusalWritesNothing | netlify/functions/agent-upsert.js:27-41 | a refused request leaves the table as it was |
| AgentPayoutSet.Decide | netlify/functions/agent-payout-set.js:28-60 | non-POST is 405 before the caller check (401); a throwing decoder or body 500; a missing bank field 400; otherwise 200 and a write of the three fields |
| AgentPayoutSet.PayoutTable.constructor | netlify/functions/agent-payout-set.js:47-58 | the table starts empty |
| AgentPayoutSet.PayoutTable.Upsert | netlify/functions/agent-payout-set.js:47-58 | the agent's row is created or overwritten and no other row changes |
| AgentPayoutSet.PayoutTable.Serve | netlify/functions/agent-payout-set.js:28-60 | the reply is the decision's, and the table is written exactly as the decision says |
| AgentPayoutSet.WriteOnlyOnSuccess | netlify/functions/agent-payout-set.js:37-60 | a write happens exactly when the reply is 200, with three non-empty trimmed fields and the write's time |
| AgentPayoutSet.WriteKeepsOthers | netlify/functions/agent-payout-set.js:52-57 | after a write the agent has one row holding what was written, and every other row is untouched |
| AgentPayoutSet.RefusalWritesNothing | netlify/functions/agent-payout-set.js:30-43 | a refused request leaves the table as it was |
| AgentPayoutSet.RepeatIsIdempotent | netlify/functions/agent-payout-set.js:52-57 | writing the same row twice gives the table of writing it once |
| AgentPayoutSet.MethodBeforeCaller | netlify/functions/agent-payout-set.js:30-33 | a non-POST is 405 even for an anonymous caller |
| AgentSubmissionsSelf.ConnectionString | netlify/functions/agent-submissions-self.js:29-33 | the connection string is empty exactly when all three variables are |
| AgentSubmissionsSelf.OwnRows | netlify/functions/agent-submissions-self.js:61 | `WHERE agent_user_id = $1` keeps each of the caller's rows as often as it is stored, and nothing else |
| AgentSubmissionsSelf.Handle | netlify/functions/agent-submissions-self.js:41-68 | an anonymous caller is 401 before the method check (405); a throwing decoder 500; no database 500; otherwise the count and the listing |
| AgentSubmissionsSelf.CallerBeforeMethod | netlify/functions/agent-submissions-self.js:43-48 | an anonymous caller is 401 whatever the method |
| AgentSubmissionsSelf.NewestIsPrefix | netlify/functions/agent-submissions-self.js:62-63 | the listing is a prefix of the caller's rows sorted newest first, all of them when fewer than 500 |
| AgentSubmissionsSelf.ListingOwnRows | netlify/functions/agent-submissions-self.js:61-63 | at most 500 rows, all the caller's, each taken from the table |
| AgentSubmissionsSelf.ListingNewestFirst | netlify/functions/agent-submissions-self.js:62 | the listing is newest first |
| AgentSubmissionsSelf.FewRowsAllListed | netlify/functions/agent-submissions-self.js:63 | with at most 500 rows of their own, the caller gets all of them |
| AgentSubmissionsSelf.OmittedAreOlder | netlify/functions/agent-submissions-self.js:62-63 | a row of the caller's that is left out is no newer than any listed row |

## Left out

- The network: every fetch to the Netlify and GoTrue admin APIs, the Google Drive calls and every SQL query are replaced by their results, given as inputs. Headers other than `Link`, time-outs and retries are not modelled.
- `jwt.decode` is an input function from the token to the decoded payload, or to nothing when it throws; signatures and base64 are not modelled.
- `Buffer.from(payload, "base64")` and the bytes of the proof image are not modelled; the payload stays text.
- The connection pools (`getPool`, `_pool`), `neon()` and the `CREATE TABLE IF NOT EXISTS` statement are not modelled; a missing connection string is the only part kept.
- `Date.now()`, `new Date().toISOString()`, `Math.random()` and the database's `NOW()` are inputs (`now`, `isoNow`, `fraction`).
- The response headers (CORS, content type, `no-store`) and `console.error` are not modelled; a reply is its status and body.
- JavaScript strings are `seq<char>`, not UTF-16, and `toLowerCase`/`toUpperCase` map ASCII letters only.
- `localeCompare` is modelled as code-unit order (`Sorting.LexTransitive`), which agrees with it only on ASCII text without locale rules.
- `Object.entries` is modelled in insertion order; JavaScript lists integer-like keys first, which a code such as `123` would be.
- `null` and `undefined` are one value, `Null`. `??`, `?.` and `||` treat them alike, and the handlers apply `String()` only to values already defaulted or known to be truthy, so the two never print differently here. `Number()` does tell them apart (`Number(null)` is 0, `Number(undefined)` NaN); its one use, `commission_pct` in payout-batch-create.js, is read by whether the parsed body has the key (`JsNumbers.FieldNumber`), since `JSON.parse` yields `null` and never `undefined`.
- Exceptions raised by the JavaScript engine (`TypeError`, `SyntaxError`, `ReferenceError`) and by `fetch` are answered with their `err?.message`; the model keeps only which kind was raised, as the fixed texts `TypeErrorMessage`, `SyntaxErrorMessage`, `ReferenceErrorMessage` and `FetchFailedMessage`, and not the engine's own message text.
- JsValues.Spread: metadata is taken to be an object or falsy, as the identity service stores it. Spreading a truthy string or array would add its indexed keys (`{..."ab"}` is `{0: "a", 1: "b"}`); the model adds no field for any value that is not an object.
- MaAgentList.RosterOrdered: `created_at` is taken to be a string or falsy, as GoTrue sends it. For a truthy non-string, `localeCompare` on it throws a `TypeError` and the handler answers 500 (ma-agent-list.js:97, 101-102), but only when that row's value is the receiver, which depends on the engine's sort; the model sorts by `String()` of the value and answers 200.
- JSON numbers are integers: a fractional `commission_pct` can only arrive as text here, and the stored amounts are whole.
- JsNumbers.StringToNumber: reads signed decimal numerals only; exponents, hexadecimal, `Infinity` and numeric separators read as NaN in the model.
- JsNumbers.Cents: computes on exact reals, so the binary floating-point error of `total_rm * (commission_pct / 100)` and of `toFixed(2)` is not modelled, nor is `toFixed` of values of 1e21 and more.
- Aggregates.TotalsOf: totals whole numbers of RM, where the column is `numeric`.
- AdminBankOne.FirstMa: takes the first matching row in table order; SQL gives `LIMIT 1` without `ORDER BY` no fixed order.
- AdminBankOne.LookupOf: compares the `user_id` text exactly; a `uuid` column would also match other casings.
- The SQL column lists are not modelled: a row holds the columns that the handlers write or filter on.
- PayoutBatchCreate.CsvShape: holds for an id without a line break and for a time stamp without commas or line breaks, as `toISOString` prints it.
- MaSubmissionsList.ExtOf: `map[mime]` would also find `Object.prototype` keys such as `constructor`; the model looks up the five listed types only.
- AgentTally.TallyAgents: classifies every user before counting, where the source throws at the first bad role in the loop; the reply is the same because nothing else is observable.
- UserCreate.LookupError: models `findUserIdByEmail` as written, which always throws; no corrected lookup is modelled.
- user-delete.js, admin/user-delete.js, agent-payout-get.js, ma-payout-get.js, ma-payout-set.js, ma-get.js, db-test.js, netlify-debug-identity.js and qarilive-oauth/get-refresh-token.cjs are not part of this model. They only pass calls through to a service or are diagnostics.
- Two concurrent invocations, and a shared `_pool` between them, are not modelled; each handler call is one function of its inputs.
