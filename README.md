# Cloudflare cache-purge automation, modelled in Dafny

This project models the core of a small web front-end. An operator logs in through
a directory service and then asks for a Cloudflare cache purge of one or more
hostnames. The model has four parts.

- `cloudflare.dfy` (module `CloudflareLibrary`) models `libraries/cloudflare.py`.
  - The pure parts are functions: the HTTP status classification (`Classify`), the
    zone query string of a host (`ZoneFilter`) and the zone chosen among several
    (`LongestIndex`).
  - The `Cloudflare` class keeps the source's two fields. `zoneId` is `self.zone_id`,
    which starts at `"123"`. A successful lookup overwrites it, and a failed one leaves
    it unchanged. It becomes `None` only when a lookup reports a count above 1 with an
    empty `result` list. `apps` is `self.apps`, which is never cleared.
  - `GetZoneId` and `PurgeCache` are methods. Each is proved equal to a function
    (`Lookup` and `Purge`), and lemmas state the orchestration properties about those
    functions.
  - HTTP is abstract. A reply is `Reply(status, body)` or `TransportError(message)`.
    The API is a parameter `api: string -> RawReply`, which maps each zone query
    string to its reply.
- `directory_auth.dfy` (module `DirectoryAuth`) models `cloudflare_automation/core/auth.py`.
  - `ExtractGroup` models the search for `CN=([A-Z|a-z|_|-]{1,})` in one `memberOf`
    distinguished name.
  - `ExtractAll` builds the list of group names.
  - `AuthenticateUser` makes the permitted-group decision. Its input is the bind and
    search outcome, as an `LdapOutcome`.
- `local_auth.dfy` (module `LocalAuth`) models `cloudflare_automation/auth.py`: the
  fixed user table and its exact-match check.
- `web.dfy` (module `Web`) models `cloudflare_automation/routers/web.py`.
  - The session helpers are methods that change `Request.session` (a string map). Each
    is specified by a pure function on the map.
  - The route handlers decide between a redirect, a page (the template name and the
    values passed to it) and a server error.
- `pystr.dfy` (module `PyStr`) holds Python's `str.split` and `str.join`, with both
  round trips. `wrappers.dfy` holds `Option`, which stands for Python's `None`.

Facts about the code as written:

- `purge_cache` returns before its dispatch loop (`libraries/cloudflare.py` lines
  223-243), so no purge request is ever sent. This is built into the model, which has
  no channel for purge requests at all; it is not a proved fact.
  - `PurgeOkIffAllResolve` proves that the call succeeds exactly when the host list is
    non-empty, its first host is not the empty string, and every host resolves.
  - `Web.ResolvedHostsFlashSuccess` proves that the operator is then told
    "Cache purgado com sucesso!".
- The failure "No valid zone IDs found for cache purge" can never be returned
  (`PurgeNeverFindsNoValidZoneIds`). The resolve loop is fail-fast, so when it
  completes, every host (at least one) has added an app.
- The regex character class accepts `|` as a literal character, and any digit ends a
  group name (`PipeIsAGroupCharacter`, `DigitEndsGroupName`).

Behaviour of `libraries/cloudflare.py` that the model keeps:

- `self.apps` is kept on the object across calls to `purge_cache`, which only appends
  to it. The web handler builds a new object for each request, so this shows only
  when one object is reused.
- When a zone lookup fails, the code reports "No zones found for …". It does not
  carry the upstream error payload.
- An empty host list is not guarded. `hosts[0]` raises, which is modelled as
  `PurgeRaised`.
- The code chooses between the single-zone and multiple-zone branches with
  `result_info.total_count`, not with the length of `result`. The model keeps this,
  with both edge cases:
  - when the count is above 1 and the list is empty, the zone id becomes `None`;
  - when the count is 1 and the list is empty, the code raises IndexError
    (`ZoneIndexError`).

## Model

| member | source | states |
|---|---|---|
| PyStr.Split | libraries/cloudflare.py:188 | `split` on one character gives one more piece than there are separators, and no piece contains the separator |
| PyStr.Join | libraries/cloudflare.py:193 | `sep.join` of the parts, the empty string for none; what it gives is stated by `JoinEnds`, `JoinSplit` and `SplitJoin` |
| PyStr.JoinEnds | libraries/cloudflare.py:193 | a join of at least one part starts with the first part and ends with the last one |
| PyStr.JoinSplit | libraries/cloudflare.py:188-193 | joining the pieces of a split with the same separator gives the original string back |
| PyStr.SplitJoin | libraries/cloudflare.py:188-193 | splitting a join of separator-free pieces gives the pieces back |
| CloudflareLibrary.Classify | libraries/cloudflare.py:38-64 | a reply is a success iff it is a response with status below 400. A failure carries the status and the `errors` field (default "Unknown error"). A transport error carries no status and the exception message |
| CloudflareLibrary.Labels | libraries/cloudflare.py:143-144 | the label count of a name is its number of dots plus one |
| CloudflareLibrary.ZoneFilter | libraries/cloudflare.py:188-193 | the zone query of a host; what it is, is stated by `ZoneFilterShape`, `ZoneFilterKeepsShortHost` and `ZoneFilterDropsFirstLabel` |
| CloudflareLibrary.ZoneFilterShape | libraries/cloudflare.py:188-193 | the zone query is a suffix of the host, with one label fewer when the host has more than 3 labels and the same labels otherwise |
| CloudflareLibrary.ZoneFilterKeepsShortHost | libraries/cloudflare.py:188-193 | a host of at most 3 labels is its own zone query |
| CloudflareLibrary.ZoneFilterDropsFirstLabel | libraries/cloudflare.py:188-193 | a host of more than 3 labels is its separator-free first label, a dot and the query, and the query's labels are the host's labels after the first |
| CloudflareLibrary.LongestIndex | libraries/cloudflare.py:140-149 | the chosen zone has the greatest label count of all zones, and every earlier zone has strictly fewer labels (the first one wins a tie) |
| CloudflareLibrary.LongestIndexUnique | libraries/cloudflare.py:146-149 | the two properties of the chosen zone determine it uniquely |
| CloudflareLibrary.SelectLongestZone | libraries/cloudflare.py:137-153 | the running-maximum loop (start 0, strict `>`) returns `None` for no zones, and otherwise the id of the zone `LongestIndex` picks |
| CloudflareLibrary.LongestZoneId | libraries/cloudflare.py:137-153 | no id exactly when the zone list is empty; otherwise the id of a zone with the greatest label count |
| CloudflareLibrary.DeeperZoneWins | libraries/cloudflare.py:140-153 | of `a.b.com` and `x.a.b.com` the id of `x.a.b.com` is kept |
| CloudflareLibrary.TieKeepsFirst | libraries/cloudflare.py:146-149 | the example `a.com`, `b.com`: of these two names with equally many labels the first one's id is kept. The general tie rule is the second ensures of `LongestIndex` |
| CloudflareLibrary.Lookup | libraries/cloudflare.py:131-170 | a lookup finds a zone iff the GET succeeds and the count is above 1, or is 1 with a non-empty list. A count of 1 gives `result[0]`'s id, and a count above 1 gives the longest zone's id. On success the returned `zone_id` and `longest_zone_id` are equal. A failed GET or a count of 0 or less gives "No zones found for {zone_name}" with the status and no upstream error. A count of 1 with an empty list raises |
| CloudflareLibrary.Cloudflare.constructor | libraries/cloudflare.py:18-21 | a new purger has zone id "123" and no apps |
| CloudflareLibrary.Cloudflare.GetZoneId | libraries/cloudflare.py:109-170 | returns `Lookup`'s outcome. After a success `self.zone_id` equals the returned `zone_id` and `longest_zone_id`. Otherwise `self.zone_id` is unchanged |
| CloudflareLibrary.Cloudflare.PurgeCache | libraries/cloudflare.py:172-222 | result, new `apps`, new `zone_id` and the zone queries sent are exactly `Purge` of the hosts on the old fields |
| CloudflareLibrary.HostResolves | libraries/cloudflare.py:188-196 | a host resolves iff the reply for its zone query is a response with status below 400 whose count is above 1, or is 1 with a non-empty list |
| CloudflareLibrary.Step | libraries/cloudflare.py:187-209 | one turn of the resolve loop; what it does is stated by `StepOutcome` |
| CloudflareLibrary.StepOutcome | libraries/cloudflare.py:194-209 | one turn sends exactly the host's zone query. It continues iff the host resolves; then the object's zone id becomes the `zone_id` the lookup returned, and the host is appended with that id. Otherwise it stops with the fields unchanged and a failure |
| CloudflareLibrary.Resolve | libraries/cloudflare.py:187-209 | the loop sends at most one zone query per host, and exactly one per host when it completes; a stopped loop never reports success |
| CloudflareLibrary.Purge | libraries/cloudflare.py:172-222 | `purge_cache` on the object's fields sends at most one zone query per host, and one per host when it succeeds; the `Resolve*` and `Purge*` lemmas state its outcome |
| CloudflareLibrary.ResolveAppendsInOrder | libraries/cloudflare.py:187-203 | when every host resolves, each host's query is its zone filter, and one app per host is appended after the old apps in input order. Each app holds the original host, not the filter, with the zone id found |
| CloudflareLibrary.ResolvedIffAllResolve | libraries/cloudflare.py:187-209 | the resolve loop completes iff every host's lookup succeeds |
| CloudflareLibrary.ResolveStopsAtFirstFailure | libraries/cloudflare.py:194-209 | a stopped loop stopped at the first host `k` that did not resolve. Fields are as after hosts `0..k-1`, exactly `k+1` queries were sent, and the error is "Failed to get zone ID for {zone_filter}: {error}" (or the raised IndexError) |
| CloudflareLibrary.ResolveStoppedIsFinal | libraries/cloudflare.py:204-209 | once the loop has returned, later hosts change nothing and are not looked up |
| CloudflareLibrary.ResolveKeepsApps | libraries/cloudflare.py:196-203 | resolving keeps the apps the object already held as a prefix |
| CloudflareLibrary.PurgeEmptyFirstHost | libraries/cloudflare.py:180-185 | an empty first host fails with "No hosts provided for cache purge", sends no query and leaves `apps` and `zone_id` as they were |
| CloudflareLibrary.PurgeOkIffAllResolve | libraries/cloudflare.py:212-222 | a call succeeds iff the first host is non-empty and every host resolves. It then returns the "Multiple zone IDs found…" message, with one new app per host |
| CloudflareLibrary.PurgeNeverFindsNoValidZoneIds | libraries/cloudflare.py:212-217 | the "No valid zone IDs found for cache purge" failure is never returned |
| CloudflareLibrary.PurgeFailureCauses | libraries/cloudflare.py:180-209 | every failure is the empty-host refusal or the lookup failure of some host, after which no later host is queried |
| CloudflareLibrary.PurgeKeepsApps | libraries/cloudflare.py:198-203 | apps from earlier calls on the same object survive every call, in place |
| DirectoryAuth.IsGroupChar | cloudflare_automation/core/auth.py:60 | the regex character class read as Python reads it (ASCII letters, pipe, underscore, hyphen): the pipe is a member, and no digit, comma or `=` is |
| DirectoryAuth.MatchAt | cloudflare_automation/core/auth.py:60 | a match starts with `CN=`, and at a `CN=` the pattern matches iff the greedy run of group characters after it is non-empty (the `{1,}`) |
| DirectoryAuth.RunEnd | cloudflare_automation/core/auth.py:60 | the greedy `{1,}` run covers only group characters and stops at the end or at a non-group character |
| DirectoryAuth.FirstMatch | cloudflare_automation/core/auth.py:60 | finds the leftmost position where `CN=` is followed by a group character, or reports that none exists |
| DirectoryAuth.ExtractGroup | cloudflare_automation/core/auth.py:60-64 | an extracted group is non-empty and made only of group characters (ASCII letters, pipe, underscore, hyphen) |
| DirectoryAuth.ExtractGroupIsLeftmostMatch | cloudflare_automation/core/auth.py:60-64 | there is no group iff no `CN=` is followed by a group character. Otherwise the group is the maximal run after the leftmost such `CN=` |
| DirectoryAuth.DigitEndsGroupName | cloudflare_automation/core/auth.py:60 | `CN=Group1,DC=corp` yields `Group` |
| DirectoryAuth.PipeIsAGroupCharacter | cloudflare_automation/core/auth.py:60 | a `CN=` followed by a digit is passed over, and a pipe character stays inside the group name |
| DirectoryAuth.NoCommonNameNoGroup | cloudflare_automation/core/auth.py:60-64 | a name without `CN=` adds no group |
| DirectoryAuth.ExtractAll | cloudflare_automation/core/auth.py:59-64 | the `member_of` list has at most one entry per distinguished name, and every entry is non-empty |
| DirectoryAuth.ExtractAllMembers | cloudflare_automation/core/auth.py:59-64 | a name is in `member_of` iff some distinguished name yields it |
| DirectoryAuth.PermittedGroups | cloudflare_automation/core/auth.py:18 | `GROUPS_PERMITED` has one more entry than the setting has commas |
| DirectoryAuth.Granted | cloudflare_automation/core/auth.py:67-69 | some permitted group is in `member_of` iff some extracted group is among the permitted ones: the order in which either list is searched does not matter |
| DirectoryAuth.EmptyEntryNeverGrants | cloudflare_automation/core/auth.py:67-69 | access is granted iff some non-empty permitted entry is an extracted group |
| DirectoryAuth.OnlyCommasGrantNobody | cloudflare_automation/core/auth.py:18 | a setting that is empty or all commas grants nobody |
| DirectoryAuth.AuthenticateUser | cloudflare_automation/core/auth.py:36-80 | true iff the bind succeeded, the first search entry has `memberOf` and `displayName`, and some permitted group equals an extracted group exactly. A refused bind, a missing entry or attribute, or any exception gives false |
| LocalAuth.AuthenticateUser | cloudflare_automation/auth.py:29-33 | true iff the user name is a key of the table and its password matches exactly, that is iff the pair is (admin, admin) or (joao, teste123) |
| Web.IsAuthenticated | cloudflare_automation/routers/web.py:31-32 | a session is authenticated iff it holds the `user` key; `LoggedIn`, `LoggedOut`, `HelpersKeepToTheirKeys` and the routes state what each helper does to it |
| Web.LoggedIn | cloudflare_automation/routers/web.py:16-17 | after login the session is authenticated as that user, and no other key changes |
| Web.LoggedOut | cloudflare_automation/routers/web.py:19-20 | after logout the session is not authenticated, no other key changes, and nothing changes if nobody was logged in |
| Web.Flashed | cloudflare_automation/routers/web.py:22-24 | `set_flash` stores message and category and changes no other key |
| Web.FlashCleared | cloudflare_automation/routers/web.py:26-29 | after `get_flash` both flash keys are absent and no other key changes |
| Web.FlashReadOnce | cloudflare_automation/routers/web.py:22-29 | `set_flash` then `get_flash` returns (message, category). A second `get_flash` returns (None, None) |
| Web.HelpersKeepToTheirKeys | cloudflare_automation/routers/web.py:16-32 | the flash helpers do not change whether a user is logged in, and login and logout do not change the flash |
| Web.LoginUser | cloudflare_automation/routers/web.py:16-17 | changes the session as `LoggedIn` |
| Web.LogoutUser | cloudflare_automation/routers/web.py:19-20 | changes the session as `LoggedOut` |
| Web.SetFlash | cloudflare_automation/routers/web.py:22-24 | changes the session as `Flashed` |
| Web.GetFlash | cloudflare_automation/routers/web.py:26-29 | returns the pending flash (None for an absent key) and removes both keys |
| Web.FormHosts | cloudflare_automation/routers/web.py:99 | the hosts are the untrimmed comma-split of the field: none contains a comma, and joining them with commas gives the field back. There is always at least one, and a missing field gives `[""]` |
| Web.PurgeFlash | cloudflare_automation/routers/web.py:107-112 | a success flashes ("Cache purgado com sucesso!", "success"). A failure flashes ("Erro ao purgar cache: {error}", "error") |
| Web.PurgeOfForm | cloudflare_automation/routers/web.py:99-105 | a fresh purger run on the form's hosts sends at most one zone query per host; on success it holds exactly one app per host and sent one query per host |
| Web.MissingHostsIsRefused | cloudflare_automation/routers/web.py:97-112 | a missing or empty hosts field reaches the empty-host guard. No zone is looked up, and the flash is the "No hosts provided" error |
| Web.ResolvedHostsFlashSuccess | cloudflare_automation/routers/web.py:103-112 | when the first host is non-empty and every host resolves, the purge succeeds and the success flash "Cache purgado com sucesso!" is set |
| Web.Index | cloudflare_automation/routers/web.py:36-47 | an unauthenticated session is redirected to /login and left unchanged. Otherwise the index page shows the user and the pending flash, and the flash is consumed |
| Web.LoginPage | cloudflare_automation/routers/web.py:50-57 | the login page shows and consumes the pending flash |
| Web.LoginPost | cloudflare_automation/routers/web.py:60-67 | a directory grant logs the user in and redirects to /. Otherwise "Credenciais inválidas" is flashed and the user is sent to /login |
| Web.Logout | cloudflare_automation/routers/web.py:70-73 | logs out and redirects to /login |
| Web.PurgeCachePage | cloudflare_automation/routers/web.py:76-87 | an unauthenticated session is redirected to /login. Otherwise the purge form shows and consumes the pending flash |
| Web.PurgeCachePost | cloudflare_automation/routers/web.py:90-113 | an unauthenticated session is redirected to /login with no lookup. Otherwise a fresh purger runs on the form's hosts, and its outcome is flashed with a redirect to /purge_cache. An escaping exception is a server error |

## Left out

- HTTP transport is not modelled: httpx, the 30-second timeout, headers, the API token and the account id. A reply is an abstract `RawReply`. A body that is not JSON raises a JSONDecodeError, and a JSON body without `result_info`/`result` raises a KeyError. Both escape `purge_cache`; neither is modelled.
- `Cloudflare.PurgeCache` takes `api` as a function of the zone query string. It therefore assumes that within one call, the same query gets the same reply.
- The purge-dispatch loop (`libraries/cloudflare.py` lines 223-243) is not modelled. It is unreachable, because the success branch returns first. `_http_post` is called only from that loop; its status classification is the same as `Classify`.
- Logging and `print` are not modelled. They have no effect on results.
- `user_data["name"]` is not modelled: only whether `displayName` is present matters, since reading it can raise.
- The JWT helpers `create_jwt_token`, `verify_jwt_token` and `get_current_user` in both auth files are not modelled. They wrap a library and depend on the wall clock.
- The ldap3 `Server`/`Connection`/`bind`/`search` calls are not modelled. Their outcome is the `LdapOutcome` input.
- Environment values are parameters. The permitted-groups setting is passed to `AuthenticateUser`, and a missing variable, which makes the import fail, is not modelled.
- FastAPI routing, form parsing, `SessionMiddleware` and Jinja rendering are not modelled. A page is only its template name and its values. Session values other than strings are not modelled.
- `LocalAuth.AuthenticateUser` is not connected to any route; the routes import the directory check.
- cloudflare_automation/cloudflare.py, cloudflare_automation/logger.py and cloudflare_automation/main.py are not part of this model. They hold a hard-coded HTTP wrapper, the logger setup and the application setup.
- Concurrency across requests is not modelled. Each call is sequential and the `await`s are modelled as plain calls.
