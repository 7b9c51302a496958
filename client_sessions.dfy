/** The client's per-user session table, Client/controllers/sessionsManager.ts:
    a static two-level dictionary from user id to session id to session
    handler.

    The handler the table stores is not modelled beyond the calls made on
    it: each stored handler is its log of `appendHistory`, `addFeedback` and
    `clearSessionData` calls, in order. A handler is named by its two keys. */
module ClientSessions {

  /** A call made on a stored session handler. */
  datatype HandlerCall =
    | AppendHistory(history: string)
    | AddFeedback(feedbackText: string, feedbackId: string)
    | ClearSessionData

  /** User id to session id to the handler's call log. */
  type Table = map<string, map<string, seq<HandlerCall>>>

  /** A handler, by user id and session id. */
  datatype HandlerRef = HandlerRef(userId: string, sessionId: string)

  /** Every user bucket holds at least one session: buckets are created
      together with their first session and dropped with their last. */
  predicate NoEmptyBucket(t: Table) {
    forall userId :: userId in t ==> t[userId] != map[]
  }

  predicate Stored(t: Table, userId: string, sessionId: string) {
    userId in t && sessionId in t[userId]
  }

  /** The table after `getSession(userId, sessionId)`: the bucket and the
      entry are created if missing; an existing handler is kept as it is. */
  function Ensured(t: Table, userId: string, sessionId: string): (r: Table)
    ensures Stored(r, userId, sessionId)
    ensures r[userId][sessionId] == if Stored(t, userId, sessionId) then t[userId][sessionId] else []
    ensures r.Keys == t.Keys + {userId}
    ensures userId in t ==> r[userId].Keys == t[userId].Keys + {sessionId}
    ensures forall u :: u in t && u != userId ==> r[u] == t[u]
    ensures userId in t ==> forall s :: s in t[userId] ==> r[userId][s] == t[userId][s]
  {
    var bucket := if userId in t then t[userId] else map[];
    if sessionId in bucket then t
    else t[userId := bucket[sessionId := []]]
  }

  /** The table after a call is made on the (ensured) handler. */
  function Called(t: Table, userId: string, sessionId: string, call: HandlerCall): (r: Table)
    ensures Stored(r, userId, sessionId)
    ensures r[userId][sessionId] == (if Stored(t, userId, sessionId) then t[userId][sessionId] else []) + [call]
    ensures r.Keys == t.Keys + {userId}
    ensures userId in t ==> r[userId].Keys == t[userId].Keys + {sessionId}
    ensures forall u :: u in t && u != userId ==> r[u] == t[u]
    ensures userId in t ==> forall s :: s in t[userId] && s != sessionId ==> r[userId][s] == t[userId][s]
  {
    var e := Ensured(t, userId, sessionId);
    e[userId := e[userId][sessionId := e[userId][sessionId] + [call]]]
  }

  /** The table after `clearSession(userId, sessionId, false)`: the session
      is deleted, and the user too once no session is left; an absent user
      or session leaves the table as it is. */
  function Deleted(t: Table, userId: string, sessionId: string): (r: Table)
    ensures !Stored(r, userId, sessionId)
    ensures !Stored(t, userId, sessionId) ==> r == t
    ensures forall u :: u in t && u != userId ==> u in r && r[u] == t[u]
    ensures r.Keys <= t.Keys
    ensures userId in r ==> forall s :: s in r[userId] <==> s in t[userId] && s != sessionId
    ensures userId in r ==> forall s :: s in r[userId] ==> r[userId][s] == t[userId][s]
  {
    if Stored(t, userId, sessionId) then
      var bucket := t[userId] - {sessionId};
      if bucket == map[] then t - {userId} else t[userId := bucket]
    else t
  }

  class SessionManager {
    /** `SessionManager.sessions`. */
    var sessions: Table

    constructor ()
      ensures sessions == map[]
    {
      sessions := map[];
    }

    predicate Valid()
      reads this
    {
      NoEmptyBucket(sessions)
    }

    /** `getSession`: creates the handler on first use and returns it;
        an existing handler is returned untouched. */
    method GetSession(userId: string, sessionId: string) returns (handler: HandlerRef)
      requires Valid()
      modifies this`sessions
      ensures Valid()
      ensures sessions == Ensured(old(sessions), userId, sessionId)
      ensures Stored(old(sessions), userId, sessionId) ==> sessions == old(sessions)
      ensures handler == HandlerRef(userId, sessionId) && Stored(sessions, userId, sessionId)
    {
      if userId !in sessions {
        sessions := sessions[userId := map[]];
      }
      if sessionId !in sessions[userId] {
        sessions := sessions[userId := sessions[userId][sessionId := []]];
      }
      assert sessions == Ensured(old(sessions), userId, sessionId);
      handler := HandlerRef(userId, sessionId);
    }

    /** Records a call on a stored handler. */
    method Record(handler: HandlerRef, call: HandlerCall)
      requires Stored(sessions, handler.userId, handler.sessionId)
      modifies this`sessions
      ensures sessions == old(sessions)[handler.userId := old(sessions)[handler.userId][handler.sessionId :=
                 old(sessions)[handler.userId][handler.sessionId] + [call]]]
    {
      var bucket := sessions[handler.userId];
      sessions := sessions[handler.userId := bucket[handler.sessionId := bucket[handler.sessionId] + [call]]];
    }

    /** `updateSessionHistory`: the handler, created if absent, is given
        the new history. */
    method UpdateSessionHistory(userId: string, sessionId: string, newHistory: string)
      requires Valid()
      modifies this`sessions
      ensures Valid()
      ensures sessions == Called(old(sessions), userId, sessionId, AppendHistory(newHistory))
    {
      var handler := GetSession(userId, sessionId);
      Record(handler, AppendHistory(newHistory));
    }

    /** `addFeedback`: the handler, created if absent, is given the
        feedback text and id. */
    method AddFeedback(userId: string, sessionId: string, feedbackText: string, feedbackId: string)
      requires Valid()
      modifies this`sessions
      ensures Valid()
      ensures sessions == Called(old(sessions), userId, sessionId, HandlerCall.AddFeedback(feedbackText, feedbackId))
    {
      var handler := GetSession(userId, sessionId);
      Record(handler, HandlerCall.AddFeedback(feedbackText, feedbackId));
    }

    /** `clearSession(userId, sessionId, clearOnly)`: nothing happens for an
        absent user or session; otherwise the handler's data is cleared, or
        the session is deleted (and its user with its last session). */
    method ClearSession(userId: string, sessionId: string, clearOnly: bool)
      requires Valid()
      modifies this`sessions
      ensures Valid()
      ensures !Stored(old(sessions), userId, sessionId) ==> sessions == old(sessions)
      ensures Stored(old(sessions), userId, sessionId) && clearOnly ==>
                sessions == Called(old(sessions), userId, sessionId, ClearSessionData)
      ensures !clearOnly ==> sessions == Deleted(old(sessions), userId, sessionId)
    {
      if userId in sessions && sessionId in sessions[userId] {
        if clearOnly {
          Record(HandlerRef(userId, sessionId), ClearSessionData);
        } else {
          sessions := sessions[userId := sessions[userId] - {sessionId}];
          if sessions[userId] == map[] {
            sessions := sessions - {userId};
          }
        }
      }
    }

    /** `getUserSessions`: the session ids stored for the user, none for an
        unknown user. (The order of `Object.keys` is not modelled.) */
    function UserSessions(userId: string): (ids: set<string>)
      reads this
      ensures forall s :: s in ids <==> Stored(sessions, userId, s)
    {
      if userId in sessions then sessions[userId].Keys else {}
    }
  }

  // ---------------------------------------------------------------------
  // Properties
  // ---------------------------------------------------------------------

  /** Asking twice for a handler is asking once. */
  lemma EnsuredIdempotent(t: Table, userId: string, sessionId: string)
    ensures Ensured(Ensured(t, userId, sessionId), userId, sessionId) == Ensured(t, userId, sessionId)
  {
  }

  /** Creating a session that was not there and deleting it again gives
      back the table, in a table with no empty bucket: a user created for
      it is dropped again. */
  lemma {:induction false} DeleteUndoesCreate(t: Table, userId: string, sessionId: string)
    requires NoEmptyBucket(t) && !Stored(t, userId, sessionId)
    ensures Deleted(Ensured(t, userId, sessionId), userId, sessionId) == t
  {
    var e := Ensured(t, userId, sessionId);
    if userId in t {
      assert e[userId] - {sessionId} == t[userId];
      assert e[userId] - {sessionId} != map[];
      assert e[userId := t[userId]] == t;
    } else {
      assert e[userId] - {sessionId} == map[];
      assert e - {userId} == t;
    }
  }

  /** Clearing only keeps the session listed; deleting unlists it and no
      other session of the user. */
  lemma ClearOnlyKeepsListing(t: Table, userId: string, sessionId: string, other: string)
    requires Stored(t, userId, sessionId)
    ensures Stored(Called(t, userId, sessionId, ClearSessionData), userId, other) <==> Stored(t, userId, other)
    ensures Stored(Deleted(t, userId, sessionId), userId, other) <==> Stored(t, userId, other) && other != sessionId
  {
    if t[userId] - {sessionId} == map[] && other != sessionId {
      assert other !in t[userId] - {sessionId};
    }
  }
}
