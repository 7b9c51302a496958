/** The client transport of src/Handlers/Communicator.ts: one instance keeps a
    retry counter that is never reset, a fixed retry limit of 2, and the header
    configuration of its latest request.

    The HTTP exchange is an input: how `axios.post` settled for this call.
    What the code does with it is modelled as written: the body of the
    `while` loop returns on its first pass, so one call issues at most one
    POST, and a failure only moves the counter. */
module Communicator {
  import opened Common

  /** `_maxRetries`. */
  const MaxRetries: nat := 2

  type Headers = map<string, string>

  /** How the promise returned by `axios.post` settled. */
  datatype PostOutcome =
    | Fulfilled(status: int)           // resolved with a response of this status
    | Rejected(response: Option<int>)  // rejected; the error carries a response status, or no response at all

  /** How one `_sendRequest` call settles. */
  datatype CallResult =
    | Resolved(response: Option<int>)  // resolves with the response (by its status), or with undefined
    | ReadOfMissingResponse            // rejects: the catch handler reads `error.response.status` of an error without a response

  datatype Request = Request(url: string, body: string)

  /** The headers every instance starts from. */
  function DefaultHeaders(): Headers {
    map["Content-Type" := "application/json", "Accept" := "application/json"]
  }

  /** `{...defaults, ...custom}`: the custom headers override key by key. */
  function MergeHeaders(defaults: Headers, custom: Headers): (h: Headers)
    ensures h.Keys == defaults.Keys + custom.Keys
    ensures forall k :: k in custom ==> h[k] == custom[k]
    ensures forall k :: k in defaults && k !in custom ==> h[k] == defaults[k]
  {
    defaults + custom
  }

  /** The custom headers `sendFeedback`, `sendHistory` and `sendChat` build:
      the identity pair only when both parts are non-empty. */
  function IdentityHeaders(sessionId: string, userId: string): (h: Headers)
    ensures h == map[] <==> (sessionId == "" || userId == "")
    ensures h != map[] ==> h.Keys == {"session_id", "user_id"} && h["session_id"] == sessionId && h["user_id"] == userId
  {
    if sessionId != "" && userId != "" then
      var h := map["session_id" := sessionId, "user_id" := userId];
      assert "session_id" in h;
      h
    else map[]
  }

  // ---------------------------------------------------------------------
  // The counter as a state machine over call outcomes
  // ---------------------------------------------------------------------

  /** Whether a call made with this counter value sends a request. */
  predicate Sends(count: nat) {
    count <= MaxRetries
  }

  /** The counter after one call. */
  function NextCount(count: nat, outcome: PostOutcome): (next: nat)
    ensures next >= count
    ensures !Sends(count) ==> next == count
    ensures next > count ==> outcome.Rejected? && outcome.response.Some?
  {
    if !Sends(count) then count
    else match outcome
      case Rejected(Some(status)) => if status >= 500 then count + 1 else MaxRetries + 1
      case _ => count
  }

  /** How one call settles. */
  function ResultOf(count: nat, outcome: PostOutcome): (r: CallResult)
    ensures !Sends(count) ==> r == Resolved(None)
    ensures r.Resolved? && r.response.Some? ==> 200 <= r.response.value < 300 && outcome == Fulfilled(r.response.value)
    ensures r.ReadOfMissingResponse? <==> Sends(count) && outcome == Rejected(None)
  {
    if !Sends(count) then Resolved(None)
    else match outcome
      case Fulfilled(status) => Resolved(if 200 <= status < 300 then Some(status) else None)
      case Rejected(None) => ReadOfMissingResponse
      case Rejected(Some(_)) => Resolved(None)
  }

  /** One call's classification, stated case by case. */
  lemma CallClassification(count: nat, outcome: PostOutcome)
    ensures Sends(count) && outcome.Fulfilled? && 200 <= outcome.status < 300 ==>
              ResultOf(count, outcome) == Resolved(Some(outcome.status)) && NextCount(count, outcome) == count
    ensures Sends(count) && outcome.Rejected? && outcome.response.Some? && outcome.response.value >= 500 ==>
              ResultOf(count, outcome) == Resolved(None) && NextCount(count, outcome) == count + 1
    ensures Sends(count) && outcome.Rejected? && outcome.response.Some? && outcome.response.value < 500 ==>
              ResultOf(count, outcome) == Resolved(None) && NextCount(count, outcome) == MaxRetries + 1
    ensures Sends(count) && outcome == Rejected(None) ==>
              ResultOf(count, outcome) == ReadOfMissingResponse && NextCount(count, outcome) == count
    ensures !Sends(count) ==> ResultOf(count, outcome) == Resolved(None) && NextCount(count, outcome) == count
  {
  }

  /** The counter after a series of calls on one instance. */
  function CountAfter(count: nat, outcomes: seq<PostOutcome>): nat
    decreases |outcomes|
  {
    if outcomes == [] then count else CountAfter(NextCount(count, outcomes[0]), outcomes[1..])
  }

  /** The number of POSTs a series of calls issues. */
  function PostsIssued(count: nat, outcomes: seq<PostOutcome>): nat
    decreases |outcomes|
  {
    if outcomes == [] then 0
    else (if Sends(count) then 1 else 0) + PostsIssued(NextCount(count, outcomes[0]), outcomes[1..])
  }

  /** The number of issued POSTs that failed with a response (status known). */
  function FailedPosts(count: nat, outcomes: seq<PostOutcome>): nat
    decreases |outcomes|
  {
    if outcomes == [] then 0
    else (if Sends(count) && outcomes[0].Rejected? && outcomes[0].response.Some? then 1 else 0)
         + FailedPosts(NextCount(count, outcomes[0]), outcomes[1..])
  }

  /** `_retryCount` never decreases. */
  lemma {:induction false} CountNeverDecreases(count: nat, outcomes: seq<PostOutcome>)
    ensures CountAfter(count, outcomes) >= count
    decreases |outcomes|
  {
    if outcomes != [] {
      CountNeverDecreases(NextCount(count, outcomes[0]), outcomes[1..]);
    }
  }

  /** Once the counter is past the limit the instance is spent: no later
      call sends anything and the counter stays where it is. */
  lemma {:induction false} SpentInstanceSendsNothing(count: nat, outcomes: seq<PostOutcome>)
    requires count > MaxRetries
    ensures CountAfter(count, outcomes) == count
    ensures PostsIssued(count, outcomes) == 0
    decreases |outcomes|
  {
    if outcomes != [] {
      SpentInstanceSendsNothing(count, outcomes[1..]);
    }
  }

  /** Over the whole life of an instance, at most `MaxRetries + 1` issued
      requests can fail with a response: each such failure moves the
      counter up by at least one, and only a counter within the limit sends. */
  lemma {:induction false} FailuresBounded(count: nat, outcomes: seq<PostOutcome>)
    requires count <= MaxRetries + 1
    ensures FailedPosts(count, outcomes) <= MaxRetries + 1 - count
    decreases |outcomes|
  {
    if outcomes != [] {
      var next := NextCount(count, outcomes[0]);
      FailuresBounded(next, outcomes[1..]);
    }
  }

  // ---------------------------------------------------------------------
  // The instance
  // ---------------------------------------------------------------------

  class Communicator {
    /** `_retryCount`. */
    var retryCount: nat
    /** `_config`: unset until the first request merges headers into it. */
    var config: Option<Headers>
    /** Every POST this instance has issued, in order. */
    var posted: seq<Request>
    /** `_defaultHeaders`. */
    const defaultHeaders: Headers

    constructor ()
      ensures retryCount == 0 && config == None && posted == []
      ensures defaultHeaders == DefaultHeaders()
    {
      retryCount := 0;
      config := None;
      posted := [];
      defaultHeaders := DefaultHeaders();
    }

    /** `_appendHeaders`: stores the merged headers; nothing passes them on. */
    method AppendHeaders(custom: Headers)
      modifies this`config
      ensures config == Some(MergeHeaders(defaultHeaders, custom))
    {
      config := Some(defaultHeaders + custom);
    }

    /** `_sendRequest(body, url, custom_headers)`, given how the POST settles. */
    method SendRequest(body: string, url: string, custom: Headers, outcome: PostOutcome) returns (r: CallResult)
      modifies this`config, this`retryCount, this`posted
      ensures config == Some(MergeHeaders(defaultHeaders, custom))
      ensures r == ResultOf(old(retryCount), outcome)
      ensures retryCount == NextCount(old(retryCount), outcome)
      ensures posted == old(posted) + (if Sends(old(retryCount)) then [Request(url, body)] else [])
    {
      AppendHeaders(custom);
      r := Resolved(None);
      // The source's `while (retryCount <= maxRetries)` returns on its first
      // pass whichever way the POST settles, so it runs its body at most once.
      if retryCount <= MaxRetries {
        posted := posted + [Request(url, body)];
        match outcome {
          case Fulfilled(status) =>
            r := Resolved(if 200 <= status < 300 then Some(status) else None);
          case Rejected(None) =>
            r := ReadOfMissingResponse;
          case Rejected(Some(status)) =>
            if status >= 500 {
              retryCount := retryCount + 1;
            } else {
              retryCount := MaxRetries + 1;
            }
            r := Resolved(None);
        }
      }
    }

    /** `sendFeedback`: POST to /api/feedback; the promise is not awaited. */
    method SendFeedback(feedback: string, sessionId: string, userId: string, outcome: PostOutcome)
      modifies this`config, this`retryCount, this`posted
      ensures config == Some(MergeHeaders(defaultHeaders, IdentityHeaders(sessionId, userId)))
      ensures retryCount == NextCount(old(retryCount), outcome)
      ensures posted == old(posted) + (if Sends(old(retryCount)) then [Request("/api/feedback", feedback)] else [])
    {
      var _ := SendRequest(feedback, "/api/feedback", IdentityHeaders(sessionId, userId), outcome);
    }

    /** `sendHistory`: POST to /api/history; the promise is not awaited. */
    method SendHistory(history: string, sessionId: string, userId: string, outcome: PostOutcome)
      modifies this`config, this`retryCount, this`posted
      ensures config == Some(MergeHeaders(defaultHeaders, IdentityHeaders(sessionId, userId)))
      ensures retryCount == NextCount(old(retryCount), outcome)
      ensures posted == old(posted) + (if Sends(old(retryCount)) then [Request("/api/history", history)] else [])
    {
      var _ := SendRequest(history, "/api/history", IdentityHeaders(sessionId, userId), outcome);
    }

    /** `sendChat`: builds the identity headers and sends nothing. */
    method SendChat(chat: string, sessionId: string, userId: string)
      ensures unchanged(this)
    {
      var _ := IdentityHeaders(sessionId, userId);
    }
  }
}
