/** The client's cache of active sessions, src/Handlers/SessionManager.ts.

    The cache maps a session id to the session built for it; a cached session
    is represented by its expiry, which is all the cache reads. The remote
    calls (`getRequest`, `postRequest`) are abstract: the model records each
    request the cache issues and takes the settled outcome as an input where
    the result depends on it. Time is the explicit `now`. */
module SessionCache {
  import opened Common

  /** What the cache reads of a session: `expiresAt`, which stays undefined
      when the session's construction failed in debug mode. */
  datatype CachedSession = CachedSession(expiresAt: Option<int>)

  datatype Verb = Get | Post
  datatype Request = Request(verb: Verb, path: string)

  /** How a remote request settled: a response with a status and its data,
      or a rejection. */
  datatype RemoteOutcome = Response(status: int, data: string) | Failure

  function ActivePath(sessionId: string): string {
    "/session/active/" + sessionId
  }

  const HistoryPath: string := "/session/history"

  /** A cached session is still usable when its expiry is later than now. */
  predicate Unexpired(s: CachedSession, now: int) {
    s.expiresAt.Some? && s.expiresAt.value > now
  }

  /** The session `_addLocalActiveSession` builds at `now`: its constructor
      succeeds and sets the expiry `expirationTime` after creation. */
  function FreshSession(now: int, expirationTime: int): CachedSession {
    CachedSession(Some(now + expirationTime))
  }

  /** The answer and the new cache of one `validActiveSession(id)` call. */
  function Validate(cache: map<string, CachedSession>, id: string, now: int, expirationTime: int)
    : (result: (bool, map<string, CachedSession>))
    ensures !result.0 <==> id in cache && !Unexpired(cache[id], now)
    ensures !result.0 ==> result.1 == cache - {id}
    ensures result.0 ==> result.1 == cache[id := FreshSession(now, expirationTime)]
  {
    if id in cache && !Unexpired(cache[id], now) then (false, cache - {id})
    else (true, cache[id := FreshSession(now, expirationTime)])
  }

  /** `getSessionHistorySummaries`: the data of a 200 response, and
      `undefined` for any other status or a failure. */
  function Summaries(outcome: RemoteOutcome): (r: Option<string>)
    ensures r.Some? <==> outcome.Response? && outcome.status == 200
    ensures r.Some? ==> r.value == outcome.data
  {
    match outcome
    case Response(status, data) => if status == 200 then Some(data) else None
    case Failure => None
  }

  class SessionCache {
    /** `activeSessions`. */
    var activeSessions: map<string, CachedSession>
    /** `activeSessionId`. */
    var activeSessionId: string
    /** Every remote request the cache has issued, in order. */
    var requests: seq<Request>
    /** `constants.expirationTime`, read by the sessions the cache builds. */
    const expirationTime: int

    constructor (expirationTime: int)
      ensures activeSessions == map[] && activeSessionId == "" && requests == []
      ensures this.expirationTime == expirationTime
    {
      activeSessions := map[];
      activeSessionId := "";
      requests := [];
      this.expirationTime := expirationTime;
    }

    /** `_sessionInCache`. */
    function InCache(id: string): (r: bool)
      reads this
      ensures r <==> id in activeSessions
    {
      id in activeSessions
    }

    /** `_addLocalActiveSession`: the entry for `id` becomes a freshly built
        session, whatever was cached before. */
    method AddLocal(id: string, now: int)
      modifies this`activeSessions
      ensures activeSessions == old(activeSessions)[id := FreshSession(now, expirationTime)]
    {
      activeSessions := activeSessions[id := FreshSession(now, expirationTime)];
    }

    /** `validActiveSession(id)`. A cached, expired session is dropped and
        the answer is `false` with no remote check. Otherwise the remote
        check is issued, its verdict is never awaited, the entry is rebuilt
        and the answer is `true`. */
    method ValidActiveSession(id: string, now: int) returns (valid: bool)
      modifies this`activeSessions, this`requests
      ensures (valid, activeSessions) == Validate(old(activeSessions), id, now, expirationTime)
      ensures requests == old(requests) + (if valid then [Request(Get, ActivePath(id))] else [])
    {
      if InCache(id) {
        if !Unexpired(activeSessions[id], now) {
          activeSessions := activeSessions - {id};
          return false;
        }
      }
      requests := requests + [Request(Get, ActivePath(id))];
      AddLocal(id, now);
      valid := true;
    }

    /** `addActiveSession(id)`: the remote POST is issued and, whatever it
        answers, the session is cached locally. */
    method AddActiveSession(id: string, now: int)
      modifies this`activeSessions, this`requests
      ensures activeSessions == old(activeSessions)[id := FreshSession(now, expirationTime)]
      ensures requests == old(requests) + [Request(Post, ActivePath(id))]
    {
      requests := requests + [Request(Post, ActivePath(id))];
      AddLocal(id, now);
    }

    /** `getSessionHistorySummaries`, given how its GET settles. */
    method GetSessionHistorySummaries(outcome: RemoteOutcome) returns (r: Option<string>)
      modifies this`requests
      ensures r == Summaries(outcome)
      ensures requests == old(requests) + [Request(Get, HistoryPath)]
    {
      requests := requests + [Request(Get, HistoryPath)];
      match outcome {
        case Response(status, data) =>
          if status == 200 {
            r := Some(data);
          } else {
            r := None;
          }
        case Failure =>
          r := None;
      }
    }
  }

  // ---------------------------------------------------------------------
  // Properties
  // ---------------------------------------------------------------------

  /** Validation touches only the entry of the id it was given. */
  lemma ValidateTouchesOnlyItsId(cache: map<string, CachedSession>, id: string, now: int, expirationTime: int, other: string)
    requires other != id
    ensures other in Validate(cache, id, now, expirationTime).1 <==> other in cache
    ensures other in cache ==> Validate(cache, id, now, expirationTime).1[other] == cache[other]
  {
  }

  /** With a positive expiration time, a session just validated is found
      valid again at the same instant, and the second call leaves the
      cache as the first one did. */
  lemma ValidateStable(cache: map<string, CachedSession>, id: string, now: int, expirationTime: int)
    requires expirationTime > 0
    requires Validate(cache, id, now, expirationTime).0
    ensures Validate(Validate(cache, id, now, expirationTime).1, id, now, expirationTime)
            == (true, Validate(cache, id, now, expirationTime).1)
  {
    var next := Validate(cache, id, now, expirationTime).1;
    assert next[id] == FreshSession(now, expirationTime);
    assert next[id := FreshSession(now, expirationTime)] == next;
  }

  /** A rejected id is gone, so asking again re-admits it: the second call
      answers `true` with a freshly built session. */
  lemma RejectedThenReadmitted(cache: map<string, CachedSession>, id: string, now: int, expirationTime: int)
    requires !Validate(cache, id, now, expirationTime).0
    ensures Validate(Validate(cache, id, now, expirationTime).1, id, now, expirationTime)
            == (true, cache[id := FreshSession(now, expirationTime)])
  {
    var next := cache - {id};
    assert next[id := FreshSession(now, expirationTime)] == cache[id := FreshSession(now, expirationTime)];
  }
}
