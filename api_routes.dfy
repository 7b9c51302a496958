/** The proxy's API routes, clientserver/routes/api.ts. Each route is an
    ordered chain of guards that answers early, or forwards the request
    upstream and relays the upstream answer.

    A route is modelled as the list of actions it takes, in order. The facts
    it reads about the request are inputs: its size (`getSizeInBytes`), its
    JSON text (`JSON.stringify(req)`), whether the required body field is
    truthy, and the user and session ids its `cleanHeader` calls return.
    The sanitiser `xss` is a parameter; `checkSession` is an abstract call
    recorded as an action; the upstream outcome is an input. */
module ApiRoutes {
  import opened ProxyResponse

  datatype Config = Config(maxLength: int, useAuth: bool, server: string)

  datatype RequestFacts = RequestFacts(
    size: int,
    json: string,
    hasField: bool,
    userId: string,
    sessionId: string)

  datatype Verb = Get | Post

  datatype Upstream = Answered(status: int, data: string) | Rejected

  datatype Action =
    | Send(reply: Reply)
    | CheckSession(sessionId: string)
    | Forward(verb: Verb, url: string, headers: map<string, string>)

  const UserIdHeader: string := "dash2labs-user-id"
  const SessionIdHeader: string := "dash2labs-session-id"

  function Plain(status: int, text: string): Reply {
    Reply(status, [], Text(text))
  }

  /** The forwarded headers: the (empty) defaults, a fresh correlation id,
      and the cleaned user and session ids. */
  function ForwardHeaders(correlationId: string, userId: string, sessionId: string): (h: map<string, string>)
    ensures h.Keys == {"correlation-id", UserIdHeader, SessionIdHeader}
    ensures h["correlation-id"] == correlationId && h[UserIdHeader] == userId && h[SessionIdHeader] == sessionId
  {
    map["correlation-id" := correlationId, UserIdHeader := userId, SessionIdHeader := sessionId]
  }

  /** How a forwarded request is answered: through `handleResponse`, or 500
      when the upstream call rejects. */
  function Relay(upstream: Upstream, correlationId: string): (r: Reply)
    ensures upstream.Rejected? ==> r == Reply(500, [], ServerError)
    ensures upstream.Answered? ==> r.headers == [("correlation-id", correlationId)]
    ensures r.body.Data? ==> upstream.Answered? && 200 <= upstream.status < 300 && r.body == Data(upstream.data)
  {
    match upstream
    case Answered(status, data) => HandleResponse(status, data, correlationId)
    case Rejected => Reply(500, [], ServerError)
  }

  /** Whether sanitising changes the length of the request's JSON text.
      Only the lengths are compared, so a rewrite that keeps the length
      counts as clean. */
  predicate Unclean(json: string, xss: string -> string): (r: bool)
    ensures r ==> xss(json) != json
  {
    |json| != |xss(json)|
  }

  /** A sanitiser rewrite of the same length passes the gate. */
  lemma SameLengthRewritePasses(json: string, xss: string -> string)
    requires |xss(json)| == |json|
    ensures !Unclean(json, xss)
  {
  }

  /** The tail shared by the forwarding routes. */
  function ForwardAndRelay(verb: Verb, url: string, f: RequestFacts, correlationId: string,
                           upstream: Upstream, checked: bool): seq<Action>
  {
    (if checked then [CheckSession(f.sessionId)] else [])
    + [Forward(verb, url, ForwardHeaders(correlationId, f.userId, f.sessionId)), Send(Relay(upstream, correlationId))]
  }

  /** POST /chat: size, then sanitiser, then the question. A missing
      question is answered 400 but, with no `return`, the route goes on to
      check the session and forward. */
  function PostChat(f: RequestFacts, xss: string -> string, cfg: Config, correlationId: string, upstream: Upstream)
    : (r: seq<Action>)
    ensures r != [] && r[|r| - 1].Send?
    ensures r[0].Send? ==> r[0].reply.status == 400
    ensures !r[0].Forward?
  {
    if f.size > cfg.maxLength then [Send(Plain(400, "Question too long"))]
    else if Unclean(f.json, xss) then [Send(Plain(400, "Invalid characters in question"))]
    else (if !f.hasField then [Send(Plain(400, "No question provided"))] else [])
         + ForwardAndRelay(Post, cfg.server + "/api/chat", f, correlationId, upstream, true)
  }

  /** POST /chat with the missing question ending the route, as the
      feedback route does. */
  function PostChatCorrected(f: RequestFacts, xss: string -> string, cfg: Config, correlationId: string, upstream: Upstream)
    : (r: seq<Action>)
    ensures r != [] && r[|r| - 1].Send?
    ensures r[0].Send? ==> r[0].reply.status == 400
    ensures !r[0].Forward?
  {
    if f.size > cfg.maxLength then [Send(Plain(400, "Question too long"))]
    else if Unclean(f.json, xss) then [Send(Plain(400, "Invalid characters in question"))]
    else if !f.hasField then [Send(Plain(400, "No question provided"))]
    else ForwardAndRelay(Post, cfg.server + "/api/chat", f, correlationId, upstream, true)
  }

  /** POST /feedback: size, then sanitiser, then the feedback text; the
      session is not checked. */
  function PostFeedback(f: RequestFacts, xss: string -> string, cfg: Config, correlationId: string, upstream: Upstream)
    : (r: seq<Action>)
    ensures r != [] && r[|r| - 1].Send?
    ensures r[0].Send? ==> r[0].reply.status == 400
    ensures forall i :: 0 <= i < |r| ==> !r[i].CheckSession?
  {
    if f.size > cfg.maxLength then [Send(Plain(400, "Feedback too long"))]
    else if Unclean(f.json, xss) then [Send(Plain(400, "Invalid characters in feedback"))]
    else if !f.hasField then [Send(Plain(400, "No feedback provided"))]
    else ForwardAndRelay(Post, cfg.server + "/api/feedback", f, correlationId, upstream, false)
  }

  /** GET /history: only the sanitiser guards it. */
  function GetHistory(f: RequestFacts, xss: string -> string, cfg: Config, correlationId: string, upstream: Upstream)
    : (r: seq<Action>)
    ensures r != [] && r[|r| - 1].Send?
    ensures r[0].Send? ==> r[0].reply.status == 400
    ensures !r[0].Forward?
  {
    if Unclean(f.json, xss) then [Send(Plain(400, "Invalid characters in history request"))]
    else ForwardAndRelay(Get, cfg.server + "/api/history", f, correlationId, upstream, true)
  }

  /** GET /settings: only the sanitiser guards it. */
  function GetSettings(f: RequestFacts, xss: string -> string, cfg: Config, correlationId: string, upstream: Upstream)
    : (r: seq<Action>)
    ensures r != [] && r[|r| - 1].Send?
    ensures r[0].Send? ==> r[0].reply.status == 400
    ensures !r[0].Forward?
  {
    if Unclean(f.json, xss) then [Send(Plain(400, "Invalid characters in settings request"))]
    else ForwardAndRelay(Get, cfg.server + "/api/settings", f, correlationId, upstream, true)
  }

  /** POST /settings: size, sanitiser, the settings field (again with no
      `return`), the session check, and then a forward only when
      authentication is on; otherwise 403. */
  function PostSettings(f: RequestFacts, xss: string -> string, cfg: Config, correlationId: string, upstream: Upstream)
    : (r: seq<Action>)
    ensures r != [] && r[|r| - 1].Send?
    ensures r[0].Send? ==> r[0].reply.status == 400
    ensures !r[0].Forward?
  {
    if f.size > cfg.maxLength then [Send(Plain(400, "Settings too long"))]
    else if Unclean(f.json, xss) then [Send(Plain(400, "Invalid characters in settings post request"))]
    else
      (if !f.hasField then [Send(Plain(400, "No settings provided"))] else [])
      + [CheckSession(f.sessionId)]
      + (if cfg.useAuth
         then [Forward(Post, cfg.server + "/api/settings", ForwardHeaders(correlationId, f.userId, f.sessionId)),
               Send(Relay(upstream, correlationId))]
         else [Send(Reply(403, [], UserError))])
  }

  // ---------------------------------------------------------------------
  // Properties
  // ---------------------------------------------------------------------

  predicate Forwards(actions: seq<Action>) {
    exists i :: 0 <= i < |actions| && actions[i].Forward?
  }

  /** The number of replies a route attempts; only the first reaches the
      client. */
  function Replies(actions: seq<Action>): nat {
    if actions == [] then 0 else (if actions[0].Send? then 1 else 0) + Replies(actions[1..])
  }

  lemma {:induction false} RepliesAppend(a: seq<Action>, b: seq<Action>)
    ensures Replies(a + b) == Replies(a) + Replies(b)
    decreases |a|
  {
    if a == [] {
      assert a + b == b;
    } else {
      assert (a + b)[0] == a[0];
      assert (a + b)[1..] == a[1..] + b;
      RepliesAppend(a[1..], b);
    }
  }

  lemma ForwardAndRelayShape(verb: Verb, url: string, f: RequestFacts, correlationId: string,
                             upstream: Upstream, checked: bool)
    ensures Forwards(ForwardAndRelay(verb, url, f, correlationId, upstream, checked))
    ensures Replies(ForwardAndRelay(verb, url, f, correlationId, upstream, checked)) == 1
  {
    var tail := [Forward(verb, url, ForwardHeaders(correlationId, f.userId, f.sessionId)), Send(Relay(upstream, correlationId))];
    var head: seq<Action> := if checked then [CheckSession(f.sessionId)] else [];
    assert ForwardAndRelay(verb, url, f, correlationId, upstream, checked) == head + tail;
    assert (head + tail)[|head|].Forward?;
    RepliesAppend(head, tail);
    assert Replies(head) == 0 by {
      if checked { assert head[1..] == []; }
    }
    assert tail[1..] == [Send(Relay(upstream, correlationId))];
    assert tail[1..][1..] == [];
  }

  lemma ForwardsAppend(a: seq<Action>, b: seq<Action>)
    ensures Forwards(a + b) <==> Forwards(a) || Forwards(b)
  {
    if Forwards(a) {
      var i :| 0 <= i < |a| && a[i].Forward?;
      assert (a + b)[i] == a[i];
    }
    if Forwards(b) {
      var i :| 0 <= i < |b| && b[i].Forward?;
      assert (a + b)[|a| + i] == b[i];
    }
    if Forwards(a + b) {
      var i :| 0 <= i < |a + b| && (a + b)[i].Forward?;
      if i < |a| {
        assert a[i] == (a + b)[i];
      } else {
        assert b[i - |a|] == (a + b)[i];
      }
    }
  }

  /** The chat post forwards exactly past the size and sanitiser gates. */
  lemma ChatForwardsIff(f: RequestFacts, xss: string -> string, cfg: Config, correlationId: string, upstream: Upstream)
    ensures Forwards(PostChat(f, xss, cfg, correlationId, upstream)) <==> f.size <= cfg.maxLength && !Unclean(f.json, xss)
  {
    if f.size <= cfg.maxLength && !Unclean(f.json, xss) {
      var missing: seq<Action> := if !f.hasField then [Send(Plain(400, "No question provided"))] else [];
      var tail := ForwardAndRelay(Post, cfg.server + "/api/chat", f, correlationId, upstream, true);
      ForwardAndRelayShape(Post, cfg.server + "/api/chat", f, correlationId, upstream, true);
      ForwardsAppend(missing, tail);
    }
  }

  /** The settings post forwards exactly past the size and sanitiser gates
      with authentication on. */
  lemma SettingsPostForwardsIff(f: RequestFacts, xss: string -> string, cfg: Config, correlationId: string, upstream: Upstream)
    ensures Forwards(PostSettings(f, xss, cfg, correlationId, upstream)) <==>
              f.size <= cfg.maxLength && !Unclean(f.json, xss) && cfg.useAuth
  {
    if f.size <= cfg.maxLength && !Unclean(f.json, xss) {
      var h := ForwardHeaders(correlationId, f.userId, f.sessionId);
      var noSettings: seq<Action> := if !f.hasField then [Send(Plain(400, "No settings provided"))] else [];
      var tail: seq<Action> := if cfg.useAuth then [Forward(Post, cfg.server + "/api/settings", h), Send(Relay(upstream, correlationId))]
                               else [Send(Reply(403, [], UserError))];
      var a := noSettings + [CheckSession(f.sessionId)] + tail;
      assert PostSettings(f, xss, cfg, correlationId, upstream) == a;
      if cfg.useAuth {
        assert a[|noSettings| + 1].Forward?;
      } else {
        assert forall i :: 0 <= i < |a| ==> !a[i].Forward?;
      }
    }
  }

  /** The gates decide forwarding, in both directions. A chat or settings
      post within the size limit whose text keeps its length under the
      sanitiser is forwarded even without its body field (settings only
      with authentication on). Feedback also needs its field. A GET route
      forwards exactly the requests whose text keeps its length. */
  lemma ForwardOnlyPastGates(f: RequestFacts, xss: string -> string, cfg: Config, correlationId: string, upstream: Upstream)
    ensures Forwards(PostChat(f, xss, cfg, correlationId, upstream)) <==> f.size <= cfg.maxLength && !Unclean(f.json, xss)
    ensures Forwards(PostFeedback(f, xss, cfg, correlationId, upstream)) <==>
              f.size <= cfg.maxLength && !Unclean(f.json, xss) && f.hasField
    ensures Forwards(PostSettings(f, xss, cfg, correlationId, upstream)) <==>
              f.size <= cfg.maxLength && !Unclean(f.json, xss) && cfg.useAuth
    ensures Forwards(GetHistory(f, xss, cfg, correlationId, upstream)) <==> !Unclean(f.json, xss)
    ensures Forwards(GetSettings(f, xss, cfg, correlationId, upstream)) <==> !Unclean(f.json, xss)
  {
    ChatForwardsIff(f, xss, cfg, correlationId, upstream);
    SettingsPostForwardsIff(f, xss, cfg, correlationId, upstream);
    FeedbackForwardsIff(f, xss, cfg, correlationId, upstream);
    GetsForwardIff(f, xss, cfg, correlationId, upstream);
  }

  /** The feedback post forwards exactly past the size, sanitiser and
      field gates. */
  lemma FeedbackForwardsIff(f: RequestFacts, xss: string -> string, cfg: Config, correlationId: string, upstream: Upstream)
    ensures Forwards(PostFeedback(f, xss, cfg, correlationId, upstream)) <==>
              f.size <= cfg.maxLength && !Unclean(f.json, xss) && f.hasField
  {
    ForwardAndRelayShape(Post, cfg.server + "/api/feedback", f, correlationId, upstream, false);
  }

  /** The GET routes forward exactly past the sanitiser gate. */
  lemma GetsForwardIff(f: RequestFacts, xss: string -> string, cfg: Config, correlationId: string, upstream: Upstream)
    ensures Forwards(GetHistory(f, xss, cfg, correlationId, upstream)) <==> !Unclean(f.json, xss)
    ensures Forwards(GetSettings(f, xss, cfg, correlationId, upstream)) <==> !Unclean(f.json, xss)
  {
    ForwardAndRelayShape(Get, cfg.server + "/api/history", f, correlationId, upstream, true);
    ForwardAndRelayShape(Get, cfg.server + "/api/settings", f, correlationId, upstream, true);
  }

  /** Past the size gate, a request whose text changes length under the
      sanitiser is answered 400 with the route's own message, and nothing
      else happens: no session check and no forward. The GET routes have no
      size gate. */
  lemma UncleanAnsweredAlone(f: RequestFacts, xss: string -> string, cfg: Config, correlationId: string, upstream: Upstream)
    requires Unclean(f.json, xss)
    ensures f.size <= cfg.maxLength ==>
              PostChat(f, xss, cfg, correlationId, upstream) == [Send(Plain(400, "Invalid characters in question"))]
    ensures f.size <= cfg.maxLength ==>
              PostFeedback(f, xss, cfg, correlationId, upstream) == [Send(Plain(400, "Invalid characters in feedback"))]
    ensures f.size <= cfg.maxLength ==>
              PostSettings(f, xss, cfg, correlationId, upstream) == [Send(Plain(400, "Invalid characters in settings post request"))]
    ensures GetHistory(f, xss, cfg, correlationId, upstream) == [Send(Plain(400, "Invalid characters in history request"))]
    ensures GetSettings(f, xss, cfg, correlationId, upstream) == [Send(Plain(400, "Invalid characters in settings request"))]
  {
  }

  /** With authentication off, a settings post that passes the size and
      sanitiser gates still has its session checked, and is then refused
      403 with the user error and never forwarded. */
  lemma SettingsWithoutAuthRefused(f: RequestFacts, xss: string -> string, cfg: Config, correlationId: string, upstream: Upstream)
    requires f.size <= cfg.maxLength && !Unclean(f.json, xss) && !cfg.useAuth
    ensures PostSettings(f, xss, cfg, correlationId, upstream)
            == (if f.hasField then [] else [Send(Plain(400, "No settings provided"))])
               + [CheckSession(f.sessionId), Send(Reply(403, [], UserError))]
    ensures !Forwards(PostSettings(f, xss, cfg, correlationId, upstream))
  {
    ForwardOnlyPastGates(f, xss, cfg, correlationId, upstream);
  }

  /** Which routes check the session: chat, the two GET routes and the
      settings post, before forwarding; feedback never does. A clean GET
      checks the session, forwards to its upstream path with the forwarded
      headers, and relays one reply. */
  lemma SessionCheckedExceptFeedback(f: RequestFacts, xss: string -> string, cfg: Config, correlationId: string, upstream: Upstream)
    ensures forall i :: 0 <= i < |PostFeedback(f, xss, cfg, correlationId, upstream)| ==>
              !PostFeedback(f, xss, cfg, correlationId, upstream)[i].CheckSession?
    ensures !Unclean(f.json, xss) ==>
              GetHistory(f, xss, cfg, correlationId, upstream)
              == [CheckSession(f.sessionId), Forward(Get, cfg.server + "/api/history", ForwardHeaders(correlationId, f.userId, f.sessionId)),
                  Send(Relay(upstream, correlationId))]
    ensures !Unclean(f.json, xss) ==>
              GetSettings(f, xss, cfg, correlationId, upstream)
              == [CheckSession(f.sessionId), Forward(Get, cfg.server + "/api/settings", ForwardHeaders(correlationId, f.userId, f.sessionId)),
                  Send(Relay(upstream, correlationId))]
    ensures f.size <= cfg.maxLength && !Unclean(f.json, xss) && f.hasField ==>
              PostChat(f, xss, cfg, correlationId, upstream)[0] == CheckSession(f.sessionId)
  {
  }

  /** The size gate comes first: an oversized POST is answered 400 with the
      route's message and nothing else happens. */
  lemma OversizedPostAnsweredAlone(f: RequestFacts, xss: string -> string, cfg: Config, correlationId: string, upstream: Upstream)
    requires f.size > cfg.maxLength
    ensures PostChat(f, xss, cfg, correlationId, upstream) == [Send(Plain(400, "Question too long"))]
    ensures PostFeedback(f, xss, cfg, correlationId, upstream) == [Send(Plain(400, "Feedback too long"))]
    ensures PostSettings(f, xss, cfg, correlationId, upstream) == [Send(Plain(400, "Settings too long"))]
  {
  }

  /** A forwarded request the upstream rejects is answered 500. */
  lemma RejectedUpstreamIs500(f: RequestFacts, xss: string -> string, cfg: Config, correlationId: string)
    requires f.size <= cfg.maxLength && !Unclean(f.json, xss) && f.hasField
    ensures PostChat(f, xss, cfg, correlationId, Rejected)[|PostChat(f, xss, cfg, correlationId, Rejected)| - 1]
            == Send(Reply(500, [], ServerError))
    ensures PostFeedback(f, xss, cfg, correlationId, Rejected)[|PostFeedback(f, xss, cfg, correlationId, Rejected)| - 1]
            == Send(Reply(500, [], ServerError))
  {
  }

  /** As written, a chat request without a question is answered 400 and is
      still forwarded, and the route then attempts a second reply. */
  lemma MissingQuestionStillForwarded(f: RequestFacts, xss: string -> string, cfg: Config, correlationId: string, upstream: Upstream)
    requires f.size <= cfg.maxLength && !Unclean(f.json, xss) && !f.hasField
    ensures PostChat(f, xss, cfg, correlationId, upstream)[0] == Send(Plain(400, "No question provided"))
    ensures Forwards(PostChat(f, xss, cfg, correlationId, upstream))
    ensures Replies(PostChat(f, xss, cfg, correlationId, upstream)) == 2
  {
    var tail := ForwardAndRelay(Post, cfg.server + "/api/chat", f, correlationId, upstream, true);
    var a := [Send(Plain(400, "No question provided"))] + tail;
    assert PostChat(f, xss, cfg, correlationId, upstream) == a;
    ForwardAndRelayShape(Post, cfg.server + "/api/chat", f, correlationId, upstream, true);
    var i :| 0 <= i < |tail| && tail[i].Forward?;
    assert a[i + 1] == tail[i];
    RepliesAppend([Send(Plain(400, "No question provided"))], tail);
  }

  /** The settings route has the same gap: without a settings field it
      answers 400 and, with authentication on, still forwards. */
  lemma MissingSettingsStillForwarded(f: RequestFacts, xss: string -> string, cfg: Config, correlationId: string, upstream: Upstream)
    requires f.size <= cfg.maxLength && !Unclean(f.json, xss) && !f.hasField && cfg.useAuth
    ensures PostSettings(f, xss, cfg, correlationId, upstream)[0] == Send(Plain(400, "No settings provided"))
    ensures Forwards(PostSettings(f, xss, cfg, correlationId, upstream))
  {
    assert PostSettings(f, xss, cfg, correlationId, upstream)[2].Forward?;
  }

  /** With the `return` in place, every chat request gets exactly one reply,
      and only a request carrying a question is forwarded. */
  lemma CorrectedChatRepliesOnce(f: RequestFacts, xss: string -> string, cfg: Config, correlationId: string, upstream: Upstream)
    ensures Replies(PostChatCorrected(f, xss, cfg, correlationId, upstream)) == 1
    ensures Forwards(PostChatCorrected(f, xss, cfg, correlationId, upstream)) <==>
              f.size <= cfg.maxLength && !Unclean(f.json, xss) && f.hasField
  {
    if f.size <= cfg.maxLength && !Unclean(f.json, xss) && f.hasField {
      ForwardAndRelayShape(Post, cfg.server + "/api/chat", f, correlationId, upstream, true);
    }
  }
}
