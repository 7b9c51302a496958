/** The session routes of clientserver/routes/session.ts: GET and POST on
    `/session/active/:session_id` answer whether the (sanitised) id is
    active. Neither route adds or refreshes a session. The sanitiser `xss`
    is a parameter. */
module SessionRoute {
  import A = ActiveSessions

  datatype Reply = Reply(status: int, text: string)

  const Active: string := "Session is active"
  const NotActive: string := "Session is not active"

  /** The reply for a validity answer. */
  function ActiveReply(valid: bool): (r: Reply)
    ensures valid <==> r.status == 200
    ensures r == (if valid then Reply(200, Active) else Reply(403, NotActive))
  {
    if valid then Reply(200, Active) else Reply(403, NotActive)
  }

  datatype Verb = Get | Post

  /** Either route: the id from the path is sanitised, checked against the
      store (which drops it if it is no longer live), and answered. The verb
      makes no difference. */
  method SessionActive(verb: Verb, store: A.SessionManager, rawId: string, xss: string -> string, now: int)
    returns (reply: Reply)
    modifies store`sessions
    ensures reply == ActiveReply(A.Validated(old(store.sessions), xss(rawId), now).0)
    ensures store.sessions == A.Validated(old(store.sessions), xss(rawId), now).1
  {
    var sessionId := xss(rawId);
    var valid := store.ValidActiveSession(sessionId, now);
    if valid {
      reply := Reply(200, Active);
    } else {
      reply := Reply(403, NotActive);
    }
  }

  /** The route never grows the store: it can only drop the asked id. */
  lemma RouteNeverAdds(m: A.Store, id: string, now: int)
    ensures A.Validated(m, id, now).1.Keys <= m.Keys
    ensures A.Validated(m, id, now).1.Keys >= m.Keys - {id}
  {
  }

  /** A request answered 200 leaves the store exactly as it was. */
  lemma ActiveAnswerChangesNothing(m: A.Store, id: string, now: int)
    requires ActiveReply(A.Validated(m, id, now).0).status == 200
    ensures A.Validated(m, id, now).1 == m
  {
  }
}
