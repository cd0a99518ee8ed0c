/** The idle-timeout middleware: an authenticated request whose session was last touched
    more than the timeout ago is logged out, any other authenticated request refreshes
    the session's last-touch time. Datetimes are integers in microseconds, the
    resolution of the ISO timestamps stored in the session. */
module IdleTimeout {
  import opened Wrappers

  const DefaultTimeoutMinutes := 15
  const MicrosPerMinute := 60000000
  const LogoutUrl := "/logout/"

  /** The session's "last_touch" entry: absent or empty (falsy), a timestamp that parses
      and compares with the current time, or a value for which parsing or comparing
      raises. */
  datatype StoredTouch = Missing | Stamp(micros: int) | Unreadable

  /** What the middleware does with a request. */
  datatype Action =
    | PassThrough   // not authenticated: the session is not looked at
    | Expire        // the session is flushed and the user redirected
    | Refresh       // last_touch is set to now and the request handled
    | ErrorLogged   // an exception was caught and logged; the request is handled

  /** The moment before which a last touch has expired. */
  function Cutoff(timeoutMinutes: int, now: int): int {
    now - timeoutMinutes * MicrosPerMinute
  }

  /** IdleTimeoutMiddleware.__call__'s decision. The comparison is strict, so a touch
      exactly at the cutoff is kept. */
  function Decide(authenticated: bool, timeoutMinutes: int, touch: StoredTouch, now: int): (a: Action)
    ensures a == PassThrough <==> !authenticated
    ensures a == Expire <==> authenticated && touch.Stamp? && touch.micros < Cutoff(timeoutMinutes, now)
    ensures a == ErrorLogged <==> authenticated && touch.Unreadable?
  {
    if !authenticated then PassThrough
    else match touch
      case Missing => Refresh
      case Unreadable => ErrorLogged
      case Stamp(t) => if t < Cutoff(timeoutMinutes, now) then Expire else Refresh
  }

  /** A session touched exactly at the cutoff, or without a last touch, is refreshed. */
  lemma BoundaryIsNotExpired(timeoutMinutes: int, now: int)
    ensures Decide(true, timeoutMinutes, Stamp(Cutoff(timeoutMinutes, now)), now) == Refresh
    ensures Decide(true, timeoutMinutes, Missing, now) == Refresh
  {
  }

  /** Once expired, a session stays expired for every later request time. */
  lemma ExpiryIsMonotone(timeoutMinutes: int, t: int, now: int, later: int)
    requires now <= later
    requires Decide(true, timeoutMinutes, Stamp(t), now) == Expire
    ensures Decide(true, timeoutMinutes, Stamp(t), later) == Expire
  {
  }

  /** After a refresh at `now`, a request within the timeout is refreshed again, and one
      more than the timeout later is logged out. */
  lemma RefreshKeepsSessionAlive(timeoutMinutes: int, now: int, later: int)
    requires timeoutMinutes >= 0 && now <= later
    ensures later - now <= timeoutMinutes * MicrosPerMinute ==> Decide(true, timeoutMinutes, Stamp(now), later) == Refresh
    ensures later - now > timeoutMinutes * MicrosPerMinute ==> Decide(true, timeoutMinutes, Stamp(now), later) == Expire
  {
  }

  /** A session: its last-touch entry and the rest of its data. */
  class Session {
    var lastTouch: StoredTouch
    var data: map<string, string>

    constructor (lastTouch: StoredTouch, data: map<string, string>)
      ensures this.lastTouch == lastTouch && this.data == data
    {
      this.lastTouch := lastTouch;
      this.data := data;
    }
  }

  /** The response: the downstream handler's, or a redirect. */
  datatype Response = Handled | Redirect(location: string)

  class IdleTimeoutMiddleware {
    const timeoutMinutes: int

    /** The timeout comes from the IDLE_TIMEOUT setting, 15 minutes when it is absent. */
    constructor (setting: Option<int>)
      ensures timeoutMinutes == if setting.Some? then setting.value else DefaultTimeoutMinutes
    {
      timeoutMinutes := if setting.Some? then setting.value else DefaultTimeoutMinutes;
    }

    /** __call__: an expired session is flushed and the user redirected to /logout/
        without the downstream handler; otherwise the handler runs, after last_touch is
        set to now unless the request is anonymous or reading the entry raised. */
    method Call(authenticated: bool, session: Session, now: int) returns (response: Response)
      modifies session
      ensures var a := Decide(authenticated, timeoutMinutes, old(session.lastTouch), now);
        && (response == if a == Expire then Redirect(LogoutUrl) else Handled)
        && (a == Expire ==> session.lastTouch == Missing && session.data == map[])
        && (a == Refresh ==> session.lastTouch == Stamp(now) && session.data == old(session.data))
        && (a == PassThrough || a == ErrorLogged ==>
              session.lastTouch == old(session.lastTouch) && session.data == old(session.data))
    {
      if !authenticated {
        return Handled;
      }
      var touch := session.lastTouch;
      if touch.Unreadable? {
        // fromisoformat or the comparison raised; the error is logged
        return Handled;
      }
      if touch.Stamp? && touch.micros < now - timeoutMinutes * MicrosPerMinute {
        session.lastTouch := Missing;
        session.data := map[];
        return Redirect(LogoutUrl);
      }
      session.lastTouch := Stamp(now);
      return Handled;
    }
  }
}
