/**
 * The `ADMIN` object: the session-timeout setting of the admin page, read
 * with `admin-view` and written with `admin-full`. The server keeps the
 * value in seconds; the page shows and edits whole minutes.
 */
module Admin {
  import opened Wrappers
  import opened Claims
  import opened Permissions
  import opened Auth

  /** `minutes * 60`, the body of the update request. */
  function MinutesToSeconds(minutes: int): (seconds: int)
    ensures seconds % 60 == 0 && seconds / 60 == minutes
  {
    minutes * 60
  }

  /** `Math.floor(timeout / 60)`: the largest whole number of minutes not above the timeout. */
  function SecondsToMinutes(timeout: int): (minutes: int)
    ensures 60 * minutes <= timeout < 60 * minutes + 60
  {
    timeout / 60
  }

  /** A value saved in minutes is shown again, unchanged, by the next load. */
  lemma SaveThenLoadShowsMinutes(minutes: int)
    ensures SecondsToMinutes(MinutesToSeconds(minutes)) == minutes
  {
  }

  /** Loading rounds down to a whole number of minutes, losing less than one minute. */
  lemma LoadThenSaveRoundsDown(timeout: int)
    ensures timeout - 60 < MinutesToSeconds(SecondsToMinutes(timeout)) <= timeout
  {
  }

  /** What `GET /api/settings/session-timeout` comes back with. */
  datatype LoadReply =
    | Loaded(seconds: int)   // an ok status with a timeout in seconds
    | LoadRejected           // a status that is not ok
    | LoadFailed             // the request or its JSON body threw

  /** What `POST /api/settings/session-timeout` comes back with. */
  datatype SaveReply =
    | Answered(statusOk: bool, success: bool)
    | SaveFailed             // the request or its JSON body threw

  class Settings {
    const auth: Session
    /** The value of the `#session-timeout-select` control in minutes; None when the page has no such control. */
    var select: Option<int>

    constructor (auth: Session, select: Option<int>)
      ensures this.auth == auth && this.select == select
    {
      this.auth := auth;
      this.select := select;
    }

    /** `loadSessionTimeout()`; requested tells whether the request was sent at all. */
    method LoadSessionTimeout(now: int, reply: LoadReply) returns (requested: bool)
      modifies this, auth
      ensures var (s, granted) := Permission(old(auth.State()), AdminView, now, auth.decode);
        && auth.State() == s
        && requested == granted
        && select == (if granted && reply.Loaded? && old(select).Some? then Some(SecondsToMinutes(reply.seconds)) else old(select))
    {
      requested := auth.HasPermission(AdminView, now);
      if !requested {
        return;
      }
      match reply
      case Loaded(seconds) =>
        if select.Some? {
          select := Some(SecondsToMinutes(seconds));
        }
      case LoadRejected =>
      case LoadFailed =>
    }

    /** `updateSessionTimeout(minutes)`; sent is the timeout in the request body, None when none was sent. */
    method UpdateSessionTimeout(minutes: int, now: int, reply: SaveReply) returns (saved: bool, sent: Option<int>)
      modifies auth
      ensures var (s, granted) := Permission(old(auth.State()), AdminFull, now, auth.decode);
        && auth.State() == s
        && sent == (if granted then Some(MinutesToSeconds(minutes)) else None)
        && saved == (granted && reply == Answered(true, true))
    {
      var granted := auth.HasPermission(AdminFull, now);
      if !granted {
        return false, None;
      }
      sent := Some(MinutesToSeconds(minutes));
      saved := reply.Answered? && reply.statusOk && reply.success;
    }
  }

  /** Holding only `admin-view` the update is refused before any request and the page is left as it was. */
  lemma ViewOnlyCannotSave(s: Page, now: int, decode: string -> Option<Payload>, p: Payload)
    requires Present(s.token) && ParseClaims(s.token.value, now, decode) == Claims(p)
    requires p.permissions.Some? && Wildcard !in p.permissions.value && AdminFull !in p.permissions.value
    ensures Permission(s, AdminFull, now, decode) == (s, false)
  {
  }

  /** Whoever may save may also load: `admin-full` passes the `admin-view` gate. */
  lemma SaverCanLoad(s: Page, now: int, decode: string -> Option<Payload>)
    requires Permission(s, AdminFull, now, decode).1
    ensures Permission(s, AdminView, now, decode) == (s, true)
  {
  }
}
