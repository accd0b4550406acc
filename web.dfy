/**
 * The session helpers and route handlers of cloudflare_automation/routers/web.py.
 * The session is a string map the helpers change in place; page rendering is
 * abstracted to the template name and the values handed to it.
 */
module Web {
  import opened Wrappers
  import opened PyStr
  import DirectoryAuth
  import CloudflareLibrary

  type Session = map<string, string>

  const UserKey := "user"
  const FlashMessageKey := "flash_message"
  const FlashCategoryKey := "flash_category"

  const LoginPath := "/login"
  const HomePath := "/"
  const PurgeCachePath := "/purge_cache"
  const InvalidCredentials := "Credenciais inválidas"
  const PurgeSucceeded := "Cache purgado com sucesso!"
  const PurgeFailedPrefix := "Erro ao purgar cache: "

  /** What a handler answers: a redirect, a rendered page, or an unhandled exception. */
  datatype Response =
    | Redirect(location: string)
    | Page(template: string, user: Option<string>, flashMessage: Option<string>, flashCategory: Option<string>)
    | ServerError

  /** `is_authenticated`: the session holds a user. */
  predicate IsAuthenticated(s: Session)
  {
    UserKey in s
  }

  /** Keys other than `keys` are present and bound alike in both sessions. */
  ghost predicate SameExcept(s: Session, t: Session, keys: set<string>)
  {
    forall k :: k !in keys ==> (k in s <==> k in t) && (k in s ==> s[k] == t[k])
  }

  /** The session after `login_user`. */
  function LoggedIn(s: Session, username: string): (t: Session)
    ensures IsAuthenticated(t) && t[UserKey] == username
    ensures SameExcept(s, t, {UserKey})
  {
    s[UserKey := username]
  }

  /** The session after `logout_user`; unchanged when nobody was logged in. */
  function LoggedOut(s: Session): (t: Session)
    ensures !IsAuthenticated(t)
    ensures SameExcept(s, t, {UserKey})
    ensures !IsAuthenticated(s) ==> t == s
  {
    s - {UserKey}
  }

  /** The session after `set_flash`. */
  function Flashed(s: Session, message: string, category: string): (t: Session)
    ensures FlashMessageKey in t && t[FlashMessageKey] == message
    ensures FlashCategoryKey in t && t[FlashCategoryKey] == category
    ensures SameExcept(s, t, {FlashMessageKey, FlashCategoryKey})
  {
    s[FlashMessageKey := message][FlashCategoryKey := category]
  }

  /** The flash `get_flash` returns: each key's value, or `None` when absent. */
  function FlashOf(s: Session): (Option<string>, Option<string>)
  {
    (if FlashMessageKey in s then Some(s[FlashMessageKey]) else None,
     if FlashCategoryKey in s then Some(s[FlashCategoryKey]) else None)
  }

  /** The session after `get_flash` has popped both keys. */
  function FlashCleared(s: Session): (t: Session)
    ensures FlashOf(t) == (None, None)
    ensures SameExcept(s, t, {FlashMessageKey, FlashCategoryKey})
  {
    s - {FlashMessageKey, FlashCategoryKey}
  }

  /** A flash is read back once; a second read finds nothing. */
  lemma FlashReadOnce(s: Session, message: string, category: string)
    ensures FlashOf(Flashed(s, message, category)) == (Some(message), Some(category))
    ensures FlashOf(FlashCleared(Flashed(s, message, category))) == (None, None)
  {
  }

  /** Login state and flash are independent: each helper leaves the other's keys alone. */
  lemma HelpersKeepToTheirKeys(s: Session, username: string, message: string, category: string)
    ensures IsAuthenticated(Flashed(s, message, category)) == IsAuthenticated(s)
    ensures IsAuthenticated(FlashCleared(s)) == IsAuthenticated(s)
    ensures FlashOf(LoggedIn(s, username)) == FlashOf(s)
    ensures FlashOf(LoggedOut(s)) == FlashOf(s)
  {
  }

  /** The request object; only its session is modelled. */
  class Request {
    var session: Session

    constructor(session: Session)
      ensures this.session == session
    {
      this.session := session;
    }
  }

  method LoginUser(request: Request, username: string)
    modifies request
    ensures request.session == LoggedIn(old(request.session), username)
  {
    request.session := request.session[UserKey := username];
  }

  method LogoutUser(request: Request)
    modifies request
    ensures request.session == LoggedOut(old(request.session))
  {
    request.session := request.session - {UserKey};
  }

  method SetFlash(request: Request, message: string, category: string)
    modifies request
    ensures request.session == Flashed(old(request.session), message, category)
  {
    request.session := request.session[FlashMessageKey := message];
    request.session := request.session[FlashCategoryKey := category];
  }

  method GetFlash(request: Request) returns (message: Option<string>, category: Option<string>)
    modifies request
    ensures (message, category) == FlashOf(old(request.session))
    ensures request.session == FlashCleared(old(request.session))
  {
    message := None;
    if FlashMessageKey in request.session {
      message := Some(request.session[FlashMessageKey]);
      request.session := request.session - {FlashMessageKey};
    }
    category := None;
    if FlashCategoryKey in request.session {
      category := Some(request.session[FlashCategoryKey]);
      request.session := request.session - {FlashCategoryKey};
    }
  }

  /** The hosts of the purge form: the `hosts` field split on commas, untrimmed; `""` when missing. */
  function FormHosts(form: map<string, string>): (hosts: seq<string>)
    ensures |hosts| >= 1
    ensures "hosts" !in form ==> hosts == [""]
    ensures "hosts" in form ==> Join(hosts, ",") == form["hosts"]
    ensures forall i :: 0 <= i < |hosts| ==> ',' !in hosts[i]
  {
    var field := if "hosts" in form then form["hosts"] else "";
    JoinSplit(field, ',');
    assert "," == [','];
    Split(field, ',')
  }

  /** The flash `purge_cache_post` sets for a result the purger returned. */
  function PurgeFlash(result: CloudflareLibrary.PurgeResult): (flash: (string, string))
    requires !result.PurgeRaised?
    ensures result.PurgeOk? ==> flash == (PurgeSucceeded, "success")
    ensures result.PurgeErr? ==> flash == (PurgeFailedPrefix + result.error, "error")
  {
    match result
    case PurgeOk(_) => (PurgeSucceeded, "success")
    case PurgeErr(error) => (PurgeFailedPrefix + error, "error")
  }

  /** `purge_cache_post` as run on a fresh purger for the hosts of `form`. */
  function PurgeOfForm(form: map<string, string>, api: string -> CloudflareLibrary.RawReply): (r: CloudflareLibrary.PurgeRun)
    ensures |r.queries| <= |FormHosts(form)|
    ensures r.result.PurgeOk? ==> |r.apps| == |FormHosts(form)| && |r.queries| == |FormHosts(form)|
  {
    CloudflareLibrary.PurgeOkIffAllResolve(FormHosts(form), api, [], Some(CloudflareLibrary.InitialZoneId));
    CloudflareLibrary.Purge(FormHosts(form), api, [], Some(CloudflareLibrary.InitialZoneId))
  }

  /** A form without hosts reaches the purger's empty-host guard, and no zone is looked up. */
  lemma MissingHostsIsRefused(form: map<string, string>, api: string -> CloudflareLibrary.RawReply)
    requires "hosts" !in form || form["hosts"] == ""
    ensures PurgeOfForm(form, api).queries == []
    ensures PurgeFlash(PurgeOfForm(form, api).result) ==
      (PurgeFailedPrefix + CloudflareLibrary.NoHostsProvided, "error")
  {
    assert Split("", ',') == [""];
  }

  /**
   * When the first host is non-empty and every host resolves, the purge succeeds
   * and the operator is told the cache was purged.
   */
  lemma ResolvedHostsFlashSuccess(form: map<string, string>, api: string -> CloudflareLibrary.RawReply)
    requires FormHosts(form)[0] != ""
    requires forall k :: 0 <= k < |FormHosts(form)| ==> CloudflareLibrary.HostResolves(FormHosts(form)[k], api)
    ensures PurgeOfForm(form, api).result.PurgeOk?
    ensures PurgeFlash(PurgeOfForm(form, api).result) == (PurgeSucceeded, "success")
  {
    CloudflareLibrary.PurgeOkIffAllResolve(FormHosts(form), api, [], Some(CloudflareLibrary.InitialZoneId));
  }

  /** `index`: the home page for a logged-in user, with the pending flash; otherwise to the login page. */
  method Index(request: Request) returns (response: Response)
    modifies request
    ensures !IsAuthenticated(old(request.session)) ==>
      response == Redirect(LoginPath) && request.session == old(request.session)
    ensures IsAuthenticated(old(request.session)) ==>
      var (m, c) := FlashOf(old(request.session));
      && response == Page("index.html", Some(old(request.session)[UserKey]), m, c)
      && request.session == FlashCleared(old(request.session))
  {
    if !IsAuthenticated(request.session) {
      return Redirect(LoginPath);
    }
    var message, category := GetFlash(request);
    response := Page("index.html", Some(request.session[UserKey]), message, category);
  }

  /** `login` (GET): the login page with the pending flash. */
  method LoginPage(request: Request) returns (response: Response)
    modifies request
    ensures var (m, c) := FlashOf(old(request.session));
      response == Page("login.html", None, m, c)
    ensures request.session == FlashCleared(old(request.session))
  {
    var message, category := GetFlash(request);
    response := Page("login.html", None, message, category);
  }

  /** `login_post`: on a directory grant the user is logged in, otherwise an error is flashed. */
  method LoginPost(request: Request, username: string, ldap: DirectoryAuth.LdapOutcome, permitted: seq<string>)
    returns (response: Response)
    modifies request
    ensures var granted :=
      && ldap.Bound? && |ldap.response| > 0
      && ldap.response[0].memberOf.Some? && ldap.response[0].displayName.Some?
      && DirectoryAuth.Granted(permitted, DirectoryAuth.ExtractAll(ldap.response[0].memberOf.value));
      && (granted ==> response == Redirect(HomePath) && request.session == LoggedIn(old(request.session), username))
      && (!granted ==>
            response == Redirect(LoginPath)
            && request.session == Flashed(old(request.session), InvalidCredentials, "error"))
  {
    var ok := DirectoryAuth.AuthenticateUser(ldap, permitted);
    if ok {
      LoginUser(request, username);
      response := Redirect(HomePath);
    } else {
      SetFlash(request, InvalidCredentials, "error");
      response := Redirect(LoginPath);
    }
  }

  /** `logout`: forgets the user and goes to the login page. */
  method Logout(request: Request) returns (response: Response)
    modifies request
    ensures response == Redirect(LoginPath)
    ensures request.session == LoggedOut(old(request.session))
  {
    LogoutUser(request);
    response := Redirect(LoginPath);
  }

  /** `purge_cache` (GET): the purge form for a logged-in user; otherwise to the login page. */
  method PurgeCachePage(request: Request) returns (response: Response)
    modifies request
    ensures !IsAuthenticated(old(request.session)) ==>
      response == Redirect(LoginPath) && request.session == old(request.session)
    ensures IsAuthenticated(old(request.session)) ==>
      var (m, c) := FlashOf(old(request.session));
      && response == Page("purge_cache.html", Some(old(request.session)[UserKey]), m, c)
      && request.session == FlashCleared(old(request.session))
  {
    if !IsAuthenticated(request.session) {
      return Redirect(LoginPath);
    }
    var message, category := GetFlash(request);
    response := Page("purge_cache.html", Some(request.session[UserKey]), message, category);
  }

  /**
   * `purge_cache_post`: for a logged-in user, runs a fresh purger on the form's
   * hosts and flashes its outcome; an exception escaping the purger is a server
   * error. `queries` are the zone names the purger looked up.
   */
  method PurgeCachePost(request: Request, form: map<string, string>, api: string -> CloudflareLibrary.RawReply)
    returns (response: Response, queries: seq<string>)
    modifies request
    ensures !IsAuthenticated(old(request.session)) ==>
      response == Redirect(LoginPath) && queries == [] && request.session == old(request.session)
    ensures IsAuthenticated(old(request.session)) ==>
      var run := PurgeOfForm(form, api);
      && queries == run.queries
      && (run.result.PurgeRaised? ==> response == ServerError && request.session == old(request.session))
      && (!run.result.PurgeRaised? ==>
            response == Redirect(PurgeCachePath)
            && request.session == Flashed(old(request.session), PurgeFlash(run.result).0, PurgeFlash(run.result).1))
  {
    if !IsAuthenticated(request.session) {
      return Redirect(LoginPath), [];
    }
    var hosts := FormHosts(form);
    var cloudflare := new CloudflareLibrary.Cloudflare();
    var result;
    result, queries := cloudflare.PurgeCache(hosts, api);
    if result.PurgeRaised? {
      return ServerError, queries;
    }
    var (message, category) := PurgeFlash(result);
    SetFlash(request, message, category);
    response := Redirect(PurgeCachePath);
  }
}
