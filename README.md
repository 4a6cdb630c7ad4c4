# DOJ intranet session guard, modelled in Dafny

The site's browser script holds a session token in session storage under
`doj_token`. It reads that token out of the login redirect's `token` query
parameter and decodes the token's claims locally to catch expiry. On intranet
pages it confirms the token with a remote `/auth/verify` call. It matches
permission names against the token's `permissions` list, and on the admin page
it loads and saves a session-timeout setting that the server keeps in seconds
and the page shows in minutes.

This project models that decision core: the `AUTH` and `ADMIN` objects of
`script.js`.

- `Wrappers` — `Option`.
- `Strings` — the JavaScript built-ins the code leans on: `split` with a
  one-character separator, a global one-character `replace`, and `includes`.
  Each comes with its characterising lemmas.
- `Base64Url` — the normalisation `b64urlDecode` does before `atob`. It swaps
  the URL-safe alphabet of section 5 of RFC 4648 back to the standard one and
  pads with `=` to a multiple of 4. The padding loop is a method proved against
  the function `Normalised`, and a round-trip lemma shows that nothing is lost.
- `Claims` — the claims payload and `ParseClaims`, the decision `decodeJWT`
  makes. A token is malformed unless it has exactly three dot-separated
  segments and its middle segment decodes. It is expired when `exp` is truthy
  and strictly below `now`. Otherwise its payload is readable.
- `Permissions` — the rule `hasPermission` applies to a permissions list:
  the wildcard `*`, the one implication `admin-full` to `admin-view`, and
  otherwise exact membership. It is proved equal to an explicit implication
  table.
- `Auth` — class `Session`, with the token slot, the visible address, the last
  navigation target and the identity shown. Its methods `GetToken`, `Logout`,
  `B64UrlDecode`, `DecodeJwt`, `HasPermission`, `CheckAuth`,
  `HandlePermissionCheck` and `Init` change those fields as the script does.
  Each state-changing method is specified by a step function on a `Page` snapshot. The lemmas
  about those functions state the guard's outcomes: which ones clear the
  token, which navigate where, and which return true.
- `Admin` — class `Settings`, with the timeout select's value. Loading is gated
  on `admin-view` and saving on `admin-full`. Seconds become minutes by floor
  division and minutes become seconds by multiplying by 60.

External effects are inputs. `atob` followed by `JSON.parse` is an arbitrary
total function `decode: string -> Option<Payload>`, with `None` wherever
either would throw. The current time is an integer parameter; `Init` takes two
of them, one for `checkAuth` and one for the later `handlePermissionCheck` that
runs in its `.then`. Each server reply is a datatype: `VerifyReply`,
`LoadReply` or `SaveReply`.

Three details of the code that the model keeps:

- Expiry is strict (`exp < now`). A token whose `exp` equals `now` is still
  accepted.
- A verification reply marked valid but carrying no payload makes
  `updateUserInfo` throw when it reads `payload.username`. That throw sends
  the page to the network-error address.
- Assignments to `window.location.href` are modelled as "the last one wins".
  So when the permission check finds the token expired, its logout's `../` is
  overwritten by the unauthorized page (`Auth.ExpiryBetweenChecks`).

## Model

| member | source | states |
|---|---|---|
| `Strings.SplitCount` | script.js:40-41 | `token.split('.')` yields exactly one more piece than the token has dots |
| `Strings.SplitPieces` | script.js:40 | no piece of a split contains the separator |
| `Strings.SplitJoin` | script.js:40 | joining the pieces with the separator restores the token |
| `Strings.ReplaceAll` | script.js:7 | a global replace keeps the length and changes exactly the matching characters |
| `Strings.ContainsAt` | script.js:23 | `includes` holds exactly when the fragment is a prefix of some suffix of the path |
| `Base64Url.Normalise` | script.js:7-8 | the two replacements and the `=`-appending loop compute `Normalised(str)` |
| `Base64Url.NormalisedShape` | script.js:7-8 | the normalised string has no `-` or `_`, a length that is a multiple of 4, and is the input in the standard alphabet followed by fewer than four `=` |
| `Base64Url.NormaliseRoundTrip` | script.js:7-8 | for unpadded base64url input, stripping the padding and swapping the alphabet back gives the input again |
| `Claims.ThreeSegments` | script.js:40-41 | the three-part test passes exactly when the token holds two dots |
| `Claims.ReadableNeedsTwoDots` | script.js:40-44 | any token decodeJWT does not reject as malformed has two dots and a middle segment that decodes |
| `Claims.WrongDotCountIsMalformed` | script.js:40-41 | a token with a dot count other than two is malformed whatever its payload |
| `Claims.ExpiryBoundary` | script.js:46-52 | a decodable token is expired exactly when `exp` is truthy and below `now`; `exp` equal to `now`, 0 or absent returns the payload |
| `Claims.ExpiryIsMonotone` | script.js:46 | an expired token stays expired as time passes, and a token readable later was readable, with the same payload, earlier |
| `Permissions.GrantsByTable` | script.js:141-147 | the three `includes` tests answer true exactly when some held permission covers the request by the wildcard, equality or the implication table |
| `Permissions.WildcardGrantsAll` | script.js:142 | `*` grants every permission |
| `Permissions.FullGrantsView` | script.js:145 | `admin-full` grants `admin-view` whether or not `admin-view` is held |
| `Permissions.ViewDoesNotGrantFull` | script.js:145-147 | without `*` or `admin-full`, `admin-full` is refused even when `admin-view` is held |
| `Permissions.ExactOtherwise` | script.js:147 | outside the wildcard and the implication the answer is exact membership |
| `Permissions.GrantsMonotone` | script.js:141-147 | holding more permissions never revokes a grant |
| `Permissions.CoversTransitive` | script.js:144-145 | the coverage relation is transitive, so the one-entry table needs no closure |
| `Auth.QueryGet` | script.js:13-14 | the token parameter is None exactly when no parameter has that name, and otherwise the value of the first one that does |
| `Auth.StoreMovesUrlToken` | script.js:16-20 | a non-empty URL token replaces the stored token and leaves the bare pathname; otherwise slot and address are untouched; nothing navigates |
| `Auth.StoreIsIdempotent` | script.js:16-20 | storing twice equals storing once; the reduced address offers no token to store again |
| `Auth.NoTokenRedirectsToLogin` | script.js:61-67 | no token or an empty one: navigate to `../?error=not_authenticated`, keep the slot, return false |
| `Auth.MalformedTokenIsKept` | script.js:69-73 | a present token with the wrong dot count or an undecodable payload: false, no navigation, token kept |
| `Auth.ExpiredTokenLogsOut` | script.js:46-50 | a locally expired token clears the slot and navigates to `../` before any request, whatever the server would answer |
| `Auth.RejectedTokenLogsOut` | script.js:89-94 | a server rejection of a live token clears the slot, navigates to `../`, returns false |
| `Auth.NetworkErrorKeepsToken` | script.js:96-100 | a failed request, or a valid reply without payload, navigates to `../?error=network_error`, keeps the token, returns false |
| `Auth.OnlyConfirmedSucceeds` | script.js:85-88 | checkAuth is true exactly for a present, locally readable token that the server confirms with a payload; such a token has two dots, and the server's payload is shown with no clearing or navigation |
| `Auth.CheckClearsOnlyOnExpiryOrRejection` | script.js:60-101 | checkAuth clears the slot only on local expiry or rejection, shows an identity only when confirmed, and never changes the address |
| `Auth.DecodingChangesOnlyOnExpiry` | script.js:38-57 | decodeJWT leaves the page unchanged unless the token is expired, when it logs out and returns null; it returns a payload exactly for readable claims |
| `Auth.NoTokenNoPermission` | script.js:135-136 | no token or an empty one: hasPermission is false and changes nothing |
| `Auth.PermissionFollowsClaims` | script.js:138-147 | with readable claims hasPermission changes nothing; no permissions list means false; otherwise the permission rule decides, including `*` and `admin-full` |
| `Auth.UndecodableNoPermission` | script.js:138-139 | a present token with the wrong dot count or an undecodable payload: hasPermission is false and changes nothing |
| `Auth.LapsedTokenDenied` | script.js:138-139 | an expired token is refused and the asking logs out |
| `Auth.AdminPageDenied` | script.js:107-113 | on the admin page without `admin-view` the browser goes to `intra-dashboard.html?error=unauthorized_access`; the token is kept unless it expired |
| `Auth.PermissionCheckPasses` | script.js:104-116 | other pages, or a granted admin page, are left exactly as they were |
| `Auth.InitOffIntranet` | script.js:22-30 | off the intranet init only stores the URL token |
| `Auth.InitKeepsConfirmedToken` | script.js:25-29 | checked at the confirming instant or any later one at which it is still readable, a confirmed token survives init, the server's payload is shown, and the only possible navigation is the unauthorized page |
| `Auth.ExpiryBetweenChecks` | script.js:25-29 | a token expiring between checkAuth and the admin permission check is cleared, and the last navigation is the unauthorized page |
| `Auth.Session.GetToken` | script.js:33-35 | returns the stored token slot |
| `Auth.Session.Logout` | script.js:128-132 | empties the slot and navigates to `../`, nothing else |
| `Auth.Session.B64UrlDecode` | script.js:6-10 | returns the decoder applied to the normalised string |
| `Auth.Session.DecodeJwt` | script.js:38-57 | returns the payload of a readable token; on expiry, and only then, logs out |
| `Auth.Session.HasPermission` | script.js:134-148 | answer and new state as `Permission` on the old state |
| `Auth.Session.CheckAuth` | script.js:60-101 | returns true exactly on a `Confirmed` verdict; new state as `AfterCheck` of the verdict |
| `Auth.Session.HandlePermissionCheck` | script.js:104-116 | new state as `AfterPermissionCheck` on the old state |
| `Auth.Session.Init` | script.js:12-31 | new state as `AfterInit`: store, then on intranet pages checkAuth and, once confirmed, the permission check |
| `Admin.MinutesToSeconds` | script.js:200 | the seconds sent are a multiple of 60 whose quotient by 60 is the minutes |
| `Admin.SecondsToMinutes` | script.js:174 | the minutes shown are the floor of the seconds over 60 |
| `Admin.SaveThenLoadShowsMinutes` | script.js:174 | for every integer m, converting m to seconds and back gives m |
| `Admin.LoadThenSaveRoundsDown` | script.js:174 | converting seconds to minutes and back loses less than a minute and never rounds up |
| `Admin.Settings.LoadSessionTimeout` | script.js:156-186 | without `admin-view` nothing is requested; otherwise an ok reply sets an existing select to whole minutes; the session changes as hasPermission's |
| `Admin.Settings.UpdateSessionTimeout` | script.js:188-216 | without `admin-full` nothing is sent and false returned; otherwise `minutes * 60` is sent and true returned only on an ok status with success |
| `Admin.ViewOnlyCannotSave` | script.js:190-194 | holding `admin-view` without `admin-full` or `*`, the save gate refuses and nothing changes |
| `Admin.SaverCanLoad` | script.js:158-161 | anyone passing the save gate passes the load gate, which then changes nothing |

## Left out

- `fetch`, HTTP status handling and response JSON parsing: each reply is an input value (`VerifyReply`, `LoadReply`, `SaveReply`); the worker URL and request headers are not modelled.
- `atob` and `JSON.parse`: an arbitrary total `decode` function, None where either throws. `null` makes `decodeJWT` throw at `payload.exp` and return null. `0`, `false` and `""` are returned as they are. Both callers test only truthiness, so all four correspond to None. A truthy value that is not an object (`5`, `true`, `"x"`) corresponds to a payload with every field absent. `exp` claims that are not integers and `permissions` claims that are not lists of strings are not modelled.
- `Date.now`: the current time in whole seconds is a parameter.
- Async scheduling: `Init` runs `checkAuth` and its `.then` in sequence. The two clock readings are separate parameters.
- The DOM. `updateUserInfo` is reduced to the payload it shows and to its throw on a missing payload. The modal functions, `window.onclick`, the result templates and `document.title` are not modelled.
- Address details: `replaceState` also drops any fragment; the query is taken as already percent-decoded; history entries are not modelled.
- The three form submitters (`submitRecruitmentForm`, `submitAttorneyForm`, `submitDirectionForm`): DOM and network glue with no decision beyond the reply's success flag.
- The `DOMContentLoaded` bootstrap: the logout button, the admin-page load, and the change handler with its `parseInt` and its reload after a failed save.
- Console logging.
- String lengths count Dafny characters, not UTF-16 code units.
- Numbers: `exp`, `now`, the timeout seconds and the minutes are unbounded integers here. JavaScript computes `payload.exp < now`, `Math.floor(data.timeout / 60)` and `minutes * 60` on IEEE doubles, which agree with the model only while the values stay below 2^53 in magnitude.
- `Admin.Settings.LoadSessionTimeout`: a select only accepts values among its options; the model stores any whole number of minutes.
