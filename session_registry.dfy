/** The process-wide session registry of src/Managers/Session.ts: a singleton
    holding a map from session id to session, with add, lookup, removal and
    a sweep of expired sessions.

    The class holds the registry's static state. A session is represented by
    its id and expiry; disposing one is recorded in `disposed` (what dispose
    does to a session is modelled in the Session module). Time is the
    explicit `now`. */
module SessionRegistry {
  import opened Common

  datatype SessionRecord = SessionRecord(sessionId: string, expiresAt: int)

  /** `session_timeout`, the sweep interval. */
  const SessionTimeout: nat := 10000

  /** The sessions a sweep at `now` keeps: those not yet expired. A session
      whose expiry is exactly `now` is kept. */
  function Unexpired(sessions: map<string, SessionRecord>, now: int): (kept: map<string, SessionRecord>)
    ensures kept.Keys <= sessions.Keys
    ensures forall id :: id in kept ==> kept[id] == sessions[id]
    ensures forall id :: id in sessions ==> (id in kept <==> sessions[id].expiresAt >= now)
  {
    map id | id in sessions && sessions[id].expiresAt >= now :: sessions[id]
  }

  /** Every session is stored under its own id. */
  predicate KeyedById(sessions: map<string, SessionRecord>) {
    forall id :: id in sessions ==> sessions[id].sessionId == id
  }

  class SessionRegistry {
    /** `SessionManager.instance` has been created. */
    var created: bool
    /** `SessionManager.sessions`. */
    var sessions: map<string, SessionRecord>
    /** The ids of the sessions disposed so far, in order. */
    var disposed: seq<string>

    /** The static state before anything runs. */
    constructor ()
      ensures !created && sessions == map[] && disposed == []
    {
      created := false;
      sessions := map[];
      disposed := [];
    }

    predicate Valid()
      reads this
    {
      KeyedById(sessions)
    }

    /** `getInstance`: only the first call creates the instance and an empty
        map; later calls change nothing. */
    method GetInstance()
      modifies this`created, this`sessions
      ensures created
      ensures old(created) ==> sessions == old(sessions)
      ensures !old(created) ==> sessions == map[]
    {
      if !created {
        created := true;
        sessions := map[];
      }
    }

    /** `getSession`: the stored session, or `undefined`. */
    function GetSession(id: string): (r: Option<SessionRecord>)
      reads this
      ensures r.Some? <==> id in sessions
      ensures r.Some? ==> r.value == sessions[id]
    {
      if id in sessions then Some(sessions[id]) else None
    }

    /** `addSession`: the session is stored under its own id, replacing any
        earlier entry there. */
    method AddSession(s: SessionRecord)
      requires created && Valid()
      modifies this`sessions
      ensures Valid()
      ensures sessions == old(sessions)[s.sessionId := s]
    {
      sessions := sessions[s.sessionId := s];
    }

    /** `removeSession`: a present session is disposed, then its key is
        deleted; an absent id disposes nothing and leaves the map as it is. */
    method RemoveSession(id: string)
      requires created && Valid()
      modifies this`sessions, this`disposed
      ensures Valid()
      ensures sessions == old(sessions) - {id}
      ensures disposed == old(disposed) + (if id in old(sessions) then [id] else [])
    {
      var s := GetSession(id);
      if s.Some? {
        disposed := disposed + [s.value.sessionId];
      }
      sessions := sessions - {id};
    }

    /** `deleteExpiredSessions`: every session whose expiry is earlier than
        `now` is disposed and deleted (by its own id); the rest stay. Each
        expired session is disposed exactly once. */
    method DeleteExpiredSessions(now: int)
      requires created && Valid()
      modifies this`sessions, this`disposed
      ensures Valid()
      ensures sessions == Unexpired(old(sessions), now)
      ensures |disposed| >= |old(disposed)| && disposed[..|old(disposed)|] == old(disposed)
      ensures forall id :: id in disposed[|old(disposed)|..] <==> id in old(sessions) && old(sessions)[id].expiresAt < now
      ensures forall i, j :: |old(disposed)| <= i < j < |disposed| ==> disposed[i] != disposed[j]
    {
      var pending := sessions.Keys;
      ghost var swept: seq<string> := [];
      while pending != {}
        invariant pending <= sessions.Keys
        invariant sessions.Keys <= old(sessions).Keys
        invariant forall id :: id in sessions ==> sessions[id] == old(sessions)[id]
        invariant forall id :: id in old(sessions) ==>
                    (id in sessions <==> id in pending || old(sessions)[id].expiresAt >= now)
        invariant disposed == old(disposed) + swept
        invariant forall id :: id in swept <==>
                    id in old(sessions) && id !in pending && old(sessions)[id].expiresAt < now
        invariant forall i, j :: 0 <= i < j < |swept| ==> swept[i] != swept[j]
        invariant KeyedById(old(sessions))
        decreases pending
      {
        var id :| id in pending;
        var s := sessions[id];
        if s.expiresAt < now {
          assert s.sessionId == id;
          disposed := disposed + [s.sessionId];
          swept := swept + [id];
          sessions := sessions - {s.sessionId};
        }
        pending := pending - {id};
      }
      assert disposed[|old(disposed)|..] == swept;
      assert sessions == Unexpired(old(sessions), now);
    }

    /** `removeSession` with teardown as written. Every stored session was
        built by `new Session`, and tearing one down throws (see
        `Session.NewSessionTeardownThrows`). A present id therefore throws
        before its key is deleted. The registry changes in no case: an
        absent id has nothing to delete. */
    method RemoveSessionAsWritten(id: string) returns (threw: bool)
      requires created && Valid()
      ensures threw <==> id in sessions
    {
      var s := GetSession(id);
      threw := s.Some?;
    }

    /** `deleteExpiredSessions` with teardown as written: the sweep throws
        at the first expired session it meets, before deleting it. So it
        throws exactly when some session has expired, and it never
        deletes anything. */
    method DeleteExpiredSessionsAsWritten(now: int) returns (threw: bool)
      requires created && Valid()
      ensures threw <==> exists id :: id in sessions && sessions[id].expiresAt < now
    {
      var pending := sessions.Keys;
      while pending != {}
        invariant pending <= sessions.Keys
        invariant forall id :: id in sessions && id !in pending ==> sessions[id].expiresAt >= now
        decreases pending
      {
        var id :| id in pending;
        if sessions[id].expiresAt < now {
          return true;
        }
        pending := pending - {id};
      }
      threw := false;
    }
  }

  // ---------------------------------------------------------------------
  // Properties
  // ---------------------------------------------------------------------

  /** A sweep keeps every session keyed by its own id. */
  lemma UnexpiredKeepsKeying(sessions: map<string, SessionRecord>, now: int)
    requires KeyedById(sessions)
    ensures KeyedById(Unexpired(sessions, now))
  {
  }

  /** Sweeping twice at the same instant removes nothing more. */
  lemma SweepIdempotent(sessions: map<string, SessionRecord>, now: int)
    ensures Unexpired(Unexpired(sessions, now), now) == Unexpired(sessions, now)
  {
  }

  /** A later sweep removes at least what an earlier one removed. */
  lemma SweepMonotone(sessions: map<string, SessionRecord>, earlier: int, later: int)
    requires earlier <= later
    ensures Unexpired(sessions, later).Keys <= Unexpired(sessions, earlier).Keys
    ensures Unexpired(Unexpired(sessions, earlier), later) == Unexpired(sessions, later)
  {
  }
}
