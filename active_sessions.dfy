/** The proxy's store of active sessions, clientserver/SessionManager.ts: a
    map from session id to expiry time (milliseconds), with add, validate,
    update, remove and a periodic clean.

    The class holds the static map. Time is the explicit `now`; the timer
    that runs the clean is replaced by calling `CleanSessions`. */
module ActiveSessions {

  /** Session id to expiry time. */
  type Store = map<string, int>

  /** What `validActiveSession` accepts: a truthy (non-zero) expiry later
      than now. */
  predicate Live(expiry: int, now: int) {
    expiry != 0 && expiry > now
  }

  /** The answer and the new map of `validActiveSession(id)`. */
  function Validated(m: Store, id: string, now: int): (result: (bool, Store))
    ensures result.0 <==> id in m && Live(m[id], now)
    ensures result.1 == if id in m && !Live(m[id], now) then m - {id} else m
  {
    if id in m then
      if Live(m[id], now) then (true, m) else (false, m - {id})
    else (false, m)
  }

  /** What `_cleanSessions` keeps: the entries whose expiry is not earlier
      than now. An entry expiring exactly now is kept. */
  function Cleaned(m: Store, now: int): (kept: Store)
    ensures kept.Keys <= m.Keys
    ensures forall id :: id in kept ==> kept[id] == m[id]
    ensures forall id :: id in m ==> (id in kept <==> m[id] >= now)
  {
    map id | id in m && m[id] >= now :: m[id]
  }

  class SessionManager {
    /** `_sessions`. */
    var sessions: Store
    /** `constants.expirationTime`. */
    const expirationTime: int

    constructor (expirationTime: int)
      ensures sessions == map[] && this.expirationTime == expirationTime
    {
      sessions := map[];
      this.expirationTime := expirationTime;
    }

    /** `addActiveSession`: the id expires `expirationTime` after now,
        whatever it held before. */
    method AddActiveSession(id: string, now: int)
      modifies this`sessions
      ensures sessions == old(sessions)[id := now + expirationTime]
    {
      sessions := sessions[id := now + expirationTime];
    }

    /** `removeActiveSession`. */
    method RemoveActiveSession(id: string)
      modifies this`sessions
      ensures sessions == old(sessions) - {id}
    {
      sessions := sessions - {id};
    }

    /** `validActiveSession`: a live entry is accepted and kept; a present
        entry that is not live is removed and rejected; an absent id is
        rejected and nothing changes. */
    method ValidActiveSession(id: string, now: int) returns (valid: bool)
      modifies this`sessions
      ensures (valid, sessions) == Validated(old(sessions), id, now)
    {
      if id in sessions {
        if sessions[id] != 0 && sessions[id] > now {
          return true;
        } else {
          RemoveActiveSession(id);
          return false;
        }
      }
      valid := false;
    }

    /** `updateActiveSession`: a present id gets a fresh expiry and the
        answer is `true`; an absent id is not inserted. */
    method UpdateActiveSession(id: string, now: int) returns (updated: bool)
      modifies this`sessions
      ensures updated <==> id in old(sessions)
      ensures sessions == if updated then old(sessions)[id := now + expirationTime] else old(sessions)
    {
      if id in sessions {
        sessions := sessions[id := now + expirationTime];
        return true;
      }
      updated := false;
    }

    /** `_cleanSessions`: every entry whose expiry is earlier than now is
        removed, one key at a time. */
    method CleanSessions(now: int)
      modifies this`sessions
      ensures sessions == Cleaned(old(sessions), now)
    {
      var pending := sessions.Keys;
      while pending != {}
        invariant pending <= sessions.Keys <= old(sessions).Keys
        invariant forall id :: id in sessions ==> sessions[id] == old(sessions)[id]
        invariant forall id :: id in old(sessions) ==> (id in sessions <==> id in pending || old(sessions)[id] >= now)
        decreases pending
      {
        var id :| id in pending;
        if sessions[id] < now {
          RemoveActiveSession(id);
        }
        pending := pending - {id};
      }
      assert sessions == Cleaned(old(sessions), now);
    }
  }

  // ---------------------------------------------------------------------
  // Properties
  // ---------------------------------------------------------------------

  /** An id just added is valid until its expiry, when the expiration time
      is positive and the clock is not negative. */
  lemma AddedIsValid(m: Store, id: string, now: int, later: int, expirationTime: int)
    requires expirationTime > 0 && 0 <= now <= later < now + expirationTime
    ensures Validated(m[id := now + expirationTime], id, later).0
  {
  }

  /** Cleaning never removes an entry validation would accept, so cleaning
      first does not change any validation's answer. */
  lemma CleanKeepsValidity(m: Store, id: string, now: int)
    ensures Validated(Cleaned(m, now), id, now).0 == Validated(m, id, now).0
  {
  }

  /** The two sweeps disagree at the boundary: an entry expiring exactly now
      survives cleaning, yet validation rejects and removes it. */
  lemma ExpiringNowSurvivesCleanButFailsValidation(m: Store, id: string, now: int)
    requires id in m && m[id] == now
    ensures id in Cleaned(m, now)
    ensures Validated(m, id, now) == (false, m - {id})
  {
  }

  /** Validation touches only the id it is given. */
  lemma ValidatedTouchesOnlyItsId(m: Store, id: string, other: string, now: int)
    requires other != id
    ensures other in Validated(m, id, now).1 <==> other in m
    ensures other in m ==> Validated(m, id, now).1[other] == m[other]
  {
  }
}
