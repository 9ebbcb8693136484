/** The session holder shared by every page: the current user, the current
    session and whether the initial session probe is still outstanding. It
    is driven by three events: the probe resolving, a change notification
    from the identity provider, and teardown. */
module AuthContext {
  import opened Js

  /** The provider's user record, reduced to what the pages read; the two
      names come from `user_metadata`. */
  datatype User = User(id: string, email: Option<string>, fullName: Option<string>, name: Option<string>)

  datatype Session = Session(accessToken: string, user: User)

  /** `session?.user ?? null` */
  function UserOf(session: Option<Session>): Option<User> {
    if session.Some? then Some(session.value.user) else None
  }

  class AuthProvider {
    var user: Option<User>
    var session: Option<Session>
    var loading: bool
    /** The effect's liveness flag, checked when the probe resolves. */
    var isMounted: bool
    /** Whether the change listener is still registered with the provider. */
    var subscribed: bool

    /** The published user is always the session's user. */
    ghost predicate Valid()
      reads this
    {
      user == UserOf(session) && subscribed == isMounted
    }

    /** Mount and the effect's start: the session probe is issued, the
        listener registered, and nothing is known yet. */
    constructor ()
      ensures Valid()
      ensures user == None && session == None && loading
      ensures isMounted && subscribed
    {
      user, session, loading := None, None, true;
      isMounted, subscribed := true, true;
    }

    /** `getSession()` resolved with `s`; ignored after teardown. */
    method SessionResolved(s: Option<Session>)
      requires Valid()
      modifies this`user, this`session, this`loading
      ensures Valid()
      ensures old(isMounted) ==> session == s && user == UserOf(s) && !loading
      ensures !old(isMounted) ==> session == old(session) && user == old(user) && loading == old(loading)
      ensures !old(loading) ==> !loading
    {
      if !isMounted {
        return;
      }
      session := s;
      user := UserOf(s);
      loading := false;
    }

    /** A notification from `onAuthStateChange` carrying `s`. The provider
        delivers it only while the listener is registered; it replaces the
        session wholesale and never touches `loading`. */
    method AuthStateChanged(s: Option<Session>)
      requires Valid()
      modifies this`user, this`session
      ensures Valid()
      ensures old(subscribed) ==> session == s && user == UserOf(s)
      ensures !old(subscribed) ==> session == old(session) && user == old(user)
    {
      if !subscribed {
        return;
      }
      session := s;
      user := UserOf(s);
    }

    /** The effect's cleanup: later probe results and notifications are
        no longer applied. */
    method Teardown()
      requires Valid()
      modifies this`isMounted, this`subscribed
      ensures Valid() && !isMounted && !subscribed
    {
      isMounted := false;
      subscribed := false;
    }
  }
}
