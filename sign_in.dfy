/** The sign-in state machine of src/Handlers/HandleSignIn.ts: a current
    session id, an optional current session, and the process-wide registry
    the session is entered into and removed from.

    The session built by `signIn` keeps the current id when it is non-empty
    (see `Session.ResolveSessionId`) and expires `expirationTime` after
    `now`; a generated id is an input. The emitted events are recorded. */
module SignIn {
  import opened Common
  import S = Session
  import R = SessionRegistry

  /** `getSessionFromCookie`: a fixed id for now. */
  const DefaultSessionId: string := "e7b8a6d4-3f2a-4b8a-9f3b-2d6a8e4f9c3e"

  datatype Emitted = SignedIn(session: Option<R.SessionRecord>) | SignedOut(session: Option<R.SessionRecord>)

  /** What the sign-in logic reads and writes: its own two fields and the
      registry's map. */
  datatype View = View(sessionId: string, session: Option<R.SessionRecord>, sessions: map<string, R.SessionRecord>)

  /** The session `new Session(id)` builds at `now`. */
  function NewSession(id: string, freshId: string, now: int, expirationTime: int): R.SessionRecord {
    R.SessionRecord(S.ResolveSessionId(Some(id), freshId), now + expirationTime)
  }

  /** `signIn`'s effect: with no session, one is built from the current id,
      its id becomes the current id and it is registered under it; with a
      session, nothing changes. */
  function SignInStep(v: View, freshId: string, now: int, expirationTime: int): View {
    if v.session.Some? then v
    else
      var s := NewSession(v.sessionId, freshId, now, expirationTime);
      View(s.sessionId, Some(s), v.sessions[s.sessionId := s])
  }

  /** `signOut`'s effect: with a session, the current id is removed from the
      registry and both fields are cleared; without one, nothing changes. */
  function SignOutStep(v: View): View {
    if v.session.None? then v
    else View("", None, v.sessions - {v.sessionId})
  }

  /** The current session, when there is one, is the one the current id names. */
  predicate Consistent(v: View) {
    v.session.Some? ==> v.session.value.sessionId == v.sessionId
  }

  class HandleSignIn {
    /** `_session_id`. */
    var sessionId: string
    /** `_session`. */
    var session: Option<R.SessionRecord>
    /** Every event emitted, in order. */
    var emitted: seq<Emitted>

    /** A new instance: the default id and no session. */
    constructor ()
      ensures sessionId == DefaultSessionId && session == None && emitted == []
    {
      sessionId := DefaultSessionId;
      session := None;
      emitted := [];
    }

    function ViewWith(registry: R.SessionRegistry): View
      reads this, registry
    {
      View(sessionId, session, registry.sessions)
    }

    /** `signIn`: always emits `signedIn` with the resulting session. */
    method SignIn(registry: R.SessionRegistry, freshId: string, now: int, expirationTime: int)
      requires registry.created && registry.Valid()
      modifies this, registry`sessions
      ensures registry.Valid()
      ensures ViewWith(registry) == SignInStep(old(ViewWith(registry)), freshId, now, expirationTime)
      ensures emitted == old(emitted) + [SignedIn(session)]
    {
      if session.None? {
        var s := NewSession(sessionId, freshId, now, expirationTime);
        session := Some(s);
        sessionId := s.sessionId;
        registry.AddSession(s);
      }
      emitted := emitted + [SignedIn(session)];
    }

    /** `signOut`: with a session, the registry disposes and drops the entry
        of the current id, the fields are cleared and `signedOut` is emitted
        with `undefined`; without one, nothing at all happens. */
    method SignOut(registry: R.SessionRegistry)
      requires registry.created && registry.Valid()
      modifies this, registry`sessions, registry`disposed
      ensures registry.Valid()
      ensures ViewWith(registry) == SignOutStep(old(ViewWith(registry)))
      ensures old(session).Some? ==>
                emitted == old(emitted) + [SignedOut(None)]
                && registry.disposed == old(registry.disposed) + (if old(sessionId) in old(registry.sessions) then [old(sessionId)] else [])
      ensures old(session).None? ==> emitted == old(emitted) && registry.disposed == old(registry.disposed)
    {
      if session.Some? {
        registry.RemoveSession(sessionId);
        session := None;
        sessionId := "";
        emitted := emitted + [SignedOut(session)];
      }
    }

    /** The `session_id` setter overwrites unconditionally. */
    method SetSessionId(id: string)
      modifies this`sessionId
      ensures sessionId == id
    {
      sessionId := id;
    }

    /** The `session` setter overwrites unconditionally. */
    method SetSession(s: Option<R.SessionRecord>)
      modifies this`session
      ensures session == s
    {
      session := s;
    }
  }

  // ---------------------------------------------------------------------
  // Properties
  // ---------------------------------------------------------------------

  /** Signing in twice is signing in once. */
  lemma SignInIdempotent(v: View, freshId: string, freshId2: string, now: int, later: int, expirationTime: int)
    ensures SignInStep(SignInStep(v, freshId, now, expirationTime), freshId2, later, expirationTime)
            == SignInStep(v, freshId, now, expirationTime)
  {
  }

  /** Both steps keep the current session named by the current id. */
  lemma StepsKeepConsistent(v: View, freshId: string, now: int, expirationTime: int)
    requires Consistent(v)
    ensures Consistent(SignInStep(v, freshId, now, expirationTime))
    ensures Consistent(SignOutStep(v))
  {
  }

  /** Signing in from a signed-out state keeps a non-empty current id, and
      signing out again removes exactly that id from the registry (any
      entry it had before signing in is lost with it). */
  lemma SignInThenOut(v: View, freshId: string, now: int, expirationTime: int)
    requires v.session.None? && v.sessionId != ""
    ensures SignInStep(v, freshId, now, expirationTime).sessionId == v.sessionId
    ensures SignOutStep(SignInStep(v, freshId, now, expirationTime)) == View("", None, v.sessions - {v.sessionId})
  {
    var w := SignInStep(v, freshId, now, expirationTime);
    assert w.sessions - {v.sessionId} == v.sessions - {v.sessionId};
  }

  /** After signing out, signing in again starts from the empty id, so the
      new session takes a generated id. */
  lemma SignInAfterSignOut(v: View, freshId: string, now: int, expirationTime: int)
    requires v.session.Some?
    ensures SignInStep(SignOutStep(v), freshId, now, expirationTime).sessionId == freshId
  {
  }
}
