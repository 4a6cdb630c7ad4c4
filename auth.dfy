/**
 * The `AUTH` object: the session token slot, the visible address, where the
 * page is sent, the identity shown, and the page guard that decides them.
 *
 * The class Session holds that state and its methods change it as the
 * script does; each method is specified by a function on a Page snapshot,
 * and the lemmas at the end of the module state what the guard promises.
 */
module Auth {
  import opened Wrappers
  import opened Strings
  import opened Base64Url
  import opened Claims
  import opened Permissions

  /** The query parameter the login flow puts the token in. */
  const TokenParam: string := "token"
  /** Where logout sends the browser. */
  const PublicRoot: string := "../"
  const NotAuthenticatedPage: string := "../?error=not_authenticated"
  const NetworkErrorPage: string := "../?error=network_error"
  const UnauthorizedPage: string := "intra-dashboard.html?error=unauthorized_access"
  /** Path fragments that mark a guarded page and the admin page. */
  const IntranetMarker: string := "/intranet/"
  const AdminPageMarker: string := "/intra-admin.html"

  /** The visible address: its path and its already-decoded query parameters in order. */
  datatype Url = Url(pathname: string, query: seq<(string, string)>)

  /**
   * Everything the session code changes: the `doj_token` slot of session storage,
   * the visible address, the last value assigned to `window.location.href`
   * (None when nothing was assigned), and the payload last shown by `updateUserInfo`.
   */
  datatype Page = Page(token: Option<string>, url: Url, redirect: Option<string>, identity: Option<Payload>)

  /** What `POST /auth/verify` comes back with; NetworkError covers a rejected fetch and an unreadable body. */
  datatype VerifyReply = Valid(payload: Option<Payload>) | Invalid | NetworkError

  /** The outcome of `checkAuth`, one constructor per way it can end. */
  datatype Verdict = NoToken | Undecodable | LocallyExpired | RemoteRejected | NetworkFailure | Confirmed(payload: Payload)

  /** A stored token passes `if (!token)`: present and not the empty string. */
  predicate Present(t: Option<string>)
  {
    t.Some? && t.value != ""
  }

  /** `URLSearchParams.get(key)`: the value of the first parameter with that name. */
  function QueryGet(query: seq<(string, string)>, key: string): (r: Option<string>)
    ensures r.None? <==> forall i :: 0 <= i < |query| ==> query[i].0 != key
    ensures r.Some? ==> exists i :: 0 <= i < |query| && query[i] == (key, r.value)
                           && forall j :: 0 <= j < i ==> query[j].0 != key
    decreases |query|
  {
    if query == [] then None
    else if query[0].0 == key then Some(query[0].1)
    else
      var r := QueryGet(query[1..], key);
      assert r.Some? ==> exists i :: 1 <= i < |query| && query[i] == (key, r.value)
                           && forall j :: 0 <= j < i ==> query[j].0 != key by {
        if r.Some? {
          var k :| 0 <= k < |query[1..]| && query[1..][k] == (key, r.value)
                   && forall j :: 0 <= j < k ==> query[1..][j].0 != key;
          assert query[k + 1] == (key, r.value);
          assert forall j :: 0 <= j < k + 1 ==> query[j].0 != key by {
            forall j | 0 <= j < k + 1 ensures query[j].0 != key {
              if j > 0 { assert query[j] == query[1..][j - 1]; }
            }
          }
        }
      }
      r
  }

  /** `logout()`: the slot is emptied and the browser is sent to the public root. */
  function LoggedOut(s: Page): Page
  {
    s.(token := None, redirect := Some(PublicRoot))
  }

  /** The first half of `init()`: a non-empty URL token is stored and the address reduced to its path. */
  function AfterStore(s: Page): Page
  {
    var t := QueryGet(s.url.query, TokenParam);
    if Present(t) then s.(token := t, url := Url(s.url.pathname, [])) else s
  }

  /** `decodeJWT(t)`: the payload it returns and the page after its expiry logout. */
  function Decoding(s: Page, t: string, now: int, decode: string -> Option<Payload>): (Page, Option<Payload>)
  {
    match ParseClaims(t, now, decode)
    case Malformed => (s, None)
    case Expired => (LoggedOut(s), None)
    case Claims(p) => (s, Some(p))
  }

  /**
   * decodeJWT leaves the page as it was unless the token is expired; then it
   * logs out and returns null. A payload is returned exactly for readable claims.
   */
  lemma DecodingChangesOnlyOnExpiry(s: Page, t: string, now: int, decode: string -> Option<Payload>)
    ensures var (r, p) := Decoding(s, t, now, decode);
      && (ParseClaims(t, now, decode) == Expired ==> r == LoggedOut(s) && p.None?)
      && (ParseClaims(t, now, decode) != Expired ==> r == s)
      && (p.Some? <==> ParseClaims(t, now, decode).Claims?)
      && (p.Some? ==> ParseClaims(t, now, decode) == Claims(p.value))
  {
  }

  /** `hasPermission(wanted)`: the answer and the page after the decoding it performs. */
  function Permission(s: Page, wanted: string, now: int, decode: string -> Option<Payload>): (Page, bool)
  {
    if !Present(s.token) then (s, false)
    else
      var (s', p) := Decoding(s, s.token.value, now, decode);
      (s', p.Some? && p.value.permissions.Some? && Grants(p.value.permissions.value, wanted))
  }

  /** The decision `checkAuth` makes, from the stored token, the clock and the verification reply. */
  function Authenticate(token: Option<string>, now: int, reply: VerifyReply, decode: string -> Option<Payload>): Verdict
  {
    if !Present(token) then NoToken
    else match ParseClaims(token.value, now, decode)
      case Malformed => Undecodable
      case Expired => LocallyExpired
      case Claims(_) =>
        match reply
        case Valid(Some(p)) => Confirmed(p)
        // updateUserInfo reads payload.username and throws, which lands in the catch
        case Valid(None) => NetworkFailure
        case Invalid => RemoteRejected
        case NetworkError => NetworkFailure
  }

  /** What each verdict does to the page. */
  function AfterCheck(s: Page, v: Verdict): Page
  {
    match v
    case NoToken => s.(redirect := Some(NotAuthenticatedPage))
    case Undecodable => s
    case LocallyExpired => LoggedOut(s)
    case RemoteRejected => LoggedOut(s)
    case NetworkFailure => s.(redirect := Some(NetworkErrorPage))
    case Confirmed(p) => s.(identity := Some(p))
  }

  /** `handlePermissionCheck()`: the admin page demands `admin-view`. */
  function AfterPermissionCheck(s: Page, now: int, decode: string -> Option<Payload>): Page
  {
    if !Contains(s.url.pathname, AdminPageMarker) then s
    else
      var (s', granted) := Permission(s, AdminView, now, decode);
      if granted then s' else s'.(redirect := Some(UnauthorizedPage))
  }

  /**
   * `init()`: store the URL token, then on an intranet page run checkAuth at
   * instant now and, once it has confirmed, the permission check at instant later.
   */
  function AfterInit(s: Page, now: int, reply: VerifyReply, later: int, decode: string -> Option<Payload>): Page
  {
    var s1 := AfterStore(s);
    if !Contains(s1.url.pathname, IntranetMarker) then s1
    else
      var v := Authenticate(s1.token, now, reply, decode);
      var s2 := AfterCheck(s1, v);
      if v.Confirmed? then AfterPermissionCheck(s2, later, decode) else s2
  }

  class Session {
    /** `atob` followed by `JSON.parse`, None where either throws. */
    const decode: string -> Option<Payload>
    var token: Option<string>
    var url: Url
    var redirect: Option<string>
    var identity: Option<Payload>

    function State(): Page
      reads this
    {
      Page(token, url, redirect, identity)
    }

    /** A page load: session storage may already hold a token from earlier in the tab. */
    constructor (decode: string -> Option<Payload>, stored: Option<string>, url: Url)
      ensures this.decode == decode
      ensures State() == Page(stored, url, None, None)
    {
      this.decode := decode;
      token := stored;
      this.url := url;
      redirect := None;
      identity := None;
    }

    method GetToken() returns (t: Option<string>)
      ensures t == token
    {
      t := token;
    }

    method Logout()
      modifies this
      ensures State() == LoggedOut(old(State()))
    {
      token := None;
      redirect := Some(PublicRoot);
    }

    /** `b64urlDecode(str)`: normalise, then `atob` and `JSON.parse`. */
    method B64UrlDecode(str: string) returns (p: Option<Payload>)
      ensures p == decode(Normalised(str))
    {
      var s := Normalise(str);
      p := decode(s);
    }

    method DecodeJwt(t: string, now: int) returns (p: Option<Payload>)
      modifies this
      ensures (State(), p) == Decoding(old(State()), t, now, decode)
    {
      var parts := Split(t, '.');
      if |parts| != 3 {
        return None;
      }
      p := B64UrlDecode(parts[1]);
      if p.None? {
        // atob or JSON.parse threw; the catch returns null
        return None;
      }
      if IsExpired(p.value, now) {
        Logout();
        return None;
      }
    }

    method HasPermission(wanted: string, now: int) returns (granted: bool)
      modifies this
      ensures (State(), granted) == Permission(old(State()), wanted, now, decode)
    {
      var t := GetToken();
      if !Present(t) {
        return false;
      }
      var p := DecodeJwt(t.value, now);
      if p.None? || p.value.permissions.None? {
        return false;
      }
      granted := Grants(p.value.permissions.value, wanted);
    }

    method CheckAuth(now: int, reply: VerifyReply) returns (ok: bool)
      modifies this
      ensures ok == Authenticate(old(token), now, reply, decode).Confirmed?
      ensures State() == AfterCheck(old(State()), Authenticate(old(token), now, reply, decode))
    {
      var t := GetToken();
      if !Present(t) {
        redirect := Some(NotAuthenticatedPage);
        return false;
      }
      var local := DecodeJwt(t.value, now);
      if local.None? {
        return false;
      }
      match reply
      case Valid(Some(p)) =>
        identity := Some(p);
        ok := true;
      case Valid(None) =>
        redirect := Some(NetworkErrorPage);
        ok := false;
      case Invalid =>
        Logout();
        ok := false;
      case NetworkError =>
        redirect := Some(NetworkErrorPage);
        ok := false;
    }

    method HandlePermissionCheck(now: int)
      modifies this
      ensures State() == AfterPermissionCheck(old(State()), now, decode)
    {
      if Contains(url.pathname, AdminPageMarker) {
        var granted := HasPermission(AdminView, now);
        if !granted {
          redirect := Some(UnauthorizedPage);
        }
      }
    }

    method Init(now: int, reply: VerifyReply, later: int)
      modifies this
      ensures State() == AfterInit(old(State()), now, reply, later, decode)
    {
      var t := QueryGet(url.query, TokenParam);
      if Present(t) {
        token := t;
        url := Url(url.pathname, []);
      }
      if Contains(url.pathname, IntranetMarker) {
        var ok := CheckAuth(now, reply);
        if ok {
          HandlePermissionCheck(later);
        }
      }
    }
  }

  /** Storing is done once: the reduced address carries no token, so a reload stores nothing again. */
  lemma StoreIsIdempotent(s: Page)
    ensures AfterStore(AfterStore(s)) == AfterStore(s)
    ensures AfterStore(s) != s ==> AfterStore(s).url == Url(s.url.pathname, []) && !Present(QueryGet(AfterStore(s).url.query, TokenParam))
  {
  }

  /** A non-empty URL token replaces the stored one; otherwise the slot is untouched. Nothing navigates. */
  lemma StoreMovesUrlToken(s: Page)
    ensures var r := AfterStore(s);
      && r.redirect == s.redirect && r.identity == s.identity && r.url.pathname == s.url.pathname
      && (Present(QueryGet(s.url.query, TokenParam)) ==> r.token == QueryGet(s.url.query, TokenParam) && r.url.query == [])
      && (!Present(QueryGet(s.url.query, TokenParam)) ==> r.token == s.token && r.url == s.url)
  {
  }

  /** No stored token, or an empty one: sent to the login error page, slot untouched, false. */
  lemma NoTokenRedirectsToLogin(s: Page, now: int, reply: VerifyReply, decode: string -> Option<Payload>)
    requires s.token == None || s.token == Some("")
    ensures var v := Authenticate(s.token, now, reply, decode);
      !v.Confirmed? && AfterCheck(s, v) == s.(redirect := Some(NotAuthenticatedPage))
  {
  }

  /** A present token that does not decode: false, no navigation, token kept. */
  lemma MalformedTokenIsKept(s: Page, now: int, reply: VerifyReply, decode: string -> Option<Payload>)
    requires Present(s.token)
    requires multiset(s.token.value)['.'] != 2
          || (|Split(s.token.value, '.')| == 3 && decode(Normalised(Split(s.token.value, '.')[1])).None?)
    ensures var v := Authenticate(s.token, now, reply, decode);
      !v.Confirmed? && AfterCheck(s, v) == s
  {
    ThreeSegments(s.token.value);
  }

  /** A locally expired token logs out before any request, whatever the server would say. */
  lemma ExpiredTokenLogsOut(s: Page, now: int, reply: VerifyReply, decode: string -> Option<Payload>, p: Payload)
    requires Present(s.token)
    requires |Split(s.token.value, '.')| == 3
    requires decode(Normalised(Split(s.token.value, '.')[1])) == Some(p)
    requires IsExpired(p, now)
    ensures var v := Authenticate(s.token, now, reply, decode);
      v == LocallyExpired && AfterCheck(s, v) == LoggedOut(s)
  {
  }

  /** The server calls a live token invalid: the slot is cleared and the browser sent to the public root. */
  lemma RejectedTokenLogsOut(s: Page, now: int, decode: string -> Option<Payload>)
    requires Present(s.token) && ParseClaims(s.token.value, now, decode).Claims?
    ensures var v := Authenticate(s.token, now, Invalid, decode);
      !v.Confirmed? && AfterCheck(s, v) == LoggedOut(s)
  {
  }

  /** A failed request, or a valid reply without a payload: network error page, token kept. */
  lemma NetworkErrorKeepsToken(s: Page, now: int, reply: VerifyReply, decode: string -> Option<Payload>)
    requires Present(s.token) && ParseClaims(s.token.value, now, decode).Claims?
    requires reply == NetworkError || reply == Valid(None)
    ensures var v := Authenticate(s.token, now, reply, decode);
      !v.Confirmed? && AfterCheck(s, v) == s.(redirect := Some(NetworkErrorPage))
  {
  }

  /**
   * checkAuth returns true only for a two-dot token that decodes locally,
   * has not expired and that the server confirms with a payload; it then
   * shows the server's payload and neither clears nor navigates.
   */
  lemma OnlyConfirmedSucceeds(s: Page, now: int, reply: VerifyReply, decode: string -> Option<Payload>)
    ensures var v := Authenticate(s.token, now, reply, decode);
      v.Confirmed? <==> Present(s.token) && ParseClaims(s.token.value, now, decode).Claims? && reply.Valid? && reply.payload.Some?
    ensures var v := Authenticate(s.token, now, reply, decode);
      v.Confirmed? ==>
        && multiset(s.token.value)['.'] == 2
        && AfterCheck(s, v) == s.(identity := reply.payload)
  {
    var v := Authenticate(s.token, now, reply, decode);
    if v.Confirmed? {
      ReadableNeedsTwoDots(s.token.value, now, decode);
    }
  }

  /** checkAuth clears the slot only on local expiry or a server rejection, and never touches the address. */
  lemma CheckClearsOnlyOnExpiryOrRejection(s: Page, now: int, reply: VerifyReply, decode: string -> Option<Payload>)
    ensures var v := Authenticate(s.token, now, reply, decode); var r := AfterCheck(s, v);
      && r.url == s.url
      && (r.token != s.token ==> r.token == None && (v == LocallyExpired || v == RemoteRejected))
      && (r.identity != s.identity ==> v.Confirmed?)
  {
  }

  /** hasPermission is false without a token, and then changes nothing. */
  lemma NoTokenNoPermission(s: Page, wanted: string, now: int, decode: string -> Option<Payload>)
    requires s.token == None || s.token == Some("")
    ensures Permission(s, wanted, now, decode) == (s, false)
  {
  }

  /** With readable claims hasPermission changes nothing and answers by the permission rule; no list means false. */
  lemma PermissionFollowsClaims(s: Page, wanted: string, now: int, decode: string -> Option<Payload>, p: Payload)
    requires Present(s.token) && ParseClaims(s.token.value, now, decode) == Claims(p)
    ensures Permission(s, wanted, now, decode).0 == s
    ensures p.permissions.None? ==> !Permission(s, wanted, now, decode).1
    ensures p.permissions.Some? && Wildcard in p.permissions.value ==> Permission(s, wanted, now, decode).1
    ensures p.permissions.Some? && AdminFull in p.permissions.value ==> Permission(s, AdminView, now, decode).1
    ensures p.permissions.Some? ==> Permission(s, wanted, now, decode).1 == Grants(p.permissions.value, wanted)
  {
  }

  /** A present token that does not decode (wrong dot count, or atob or JSON.parse throws) has no permission and changes nothing. */
  lemma UndecodableNoPermission(s: Page, wanted: string, now: int, decode: string -> Option<Payload>)
    requires Present(s.token)
    requires multiset(s.token.value)['.'] != 2
          || (|Split(s.token.value, '.')| == 3 && decode(Normalised(Split(s.token.value, '.')[1])).None?)
    ensures Permission(s, wanted, now, decode) == (s, false)
  {
    ThreeSegments(s.token.value);
  }

  /** An expired token has no permission, and asking logs out. */
  lemma LapsedTokenDenied(s: Page, wanted: string, now: int, decode: string -> Option<Payload>)
    requires Present(s.token) && ParseClaims(s.token.value, now, decode) == Expired
    ensures Permission(s, wanted, now, decode) == (LoggedOut(s), false)
  {
  }

  /**
   * On the admin page without `admin-view` the browser is sent to the
   * dashboard's unauthorized page, and the token is kept unless it has expired.
   */
  lemma AdminPageDenied(s: Page, now: int, decode: string -> Option<Payload>)
    requires Contains(s.url.pathname, AdminPageMarker)
    requires !Permission(s, AdminView, now, decode).1
    ensures var r := AfterPermissionCheck(s, now, decode);
      && r.redirect == Some(UnauthorizedPage)
      && r.url == s.url && r.identity == s.identity
      && r.token == (if Present(s.token) && ParseClaims(s.token.value, now, decode) == Expired then None else s.token)
  {
  }

  /** Pages other than the admin page demand nothing; a granted admin page is left as it was. */
  lemma PermissionCheckPasses(s: Page, now: int, decode: string -> Option<Payload>)
    requires !Contains(s.url.pathname, AdminPageMarker) || Permission(s, AdminView, now, decode).1
    ensures AfterPermissionCheck(s, now, decode) == s
  {
  }

  /** Outside the intranet init only stores the URL token: no check runs and nothing navigates. */
  lemma InitOffIntranet(s: Page, now: int, reply: VerifyReply, later: int, decode: string -> Option<Payload>)
    requires !Contains(s.url.pathname, IntranetMarker)
    ensures AfterInit(s, now, reply, later, decode) == AfterStore(s)
  {
  }

  /**
   * When the permission check runs at the instant checkAuth confirmed, or at
   * any later instant at which the token is still readable, the token
   * survives the whole of init; the only navigation possible is the
   * unauthorized page.
   */
  lemma InitKeepsConfirmedToken(s: Page, now: int, reply: VerifyReply, later: int, decode: string -> Option<Payload>)
    requires Contains(AfterStore(s).url.pathname, IntranetMarker)
    requires Authenticate(AfterStore(s).token, now, reply, decode).Confirmed?
    requires later == now || ParseClaims(AfterStore(s).token.value, later, decode).Claims?
    ensures var r := AfterInit(s, now, reply, later, decode);
      && r.token == AfterStore(s).token
      && r.identity == reply.payload
      && (r.redirect == s.redirect || r.redirect == Some(UnauthorizedPage))
  {
  }

  /**
   * A token that expires between checkAuth and the permission check on the
   * admin page is cleared, and the navigation to the public root is then
   * overwritten by the one to the unauthorized page.
   */
  lemma ExpiryBetweenChecks(s: Page, now: int, reply: VerifyReply, later: int, decode: string -> Option<Payload>)
    requires Contains(AfterStore(s).url.pathname, IntranetMarker) && Contains(AfterStore(s).url.pathname, AdminPageMarker)
    requires Authenticate(AfterStore(s).token, now, reply, decode).Confirmed?
    requires ParseClaims(AfterStore(s).token.value, later, decode) == Expired
    ensures var r := AfterInit(s, now, reply, later, decode);
      r.token == None && r.redirect == Some(UnauthorizedPage)
  {
  }
}
