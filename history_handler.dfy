/** The client's history helpers, Client/controllers/historyHandler.ts:
    `saveHistory`, `getHistory` and `getUsersPastConversations`, each a loop
    of at most three fetches of `/api/history` that stops at the first
    attempt whose reply can be read, and the `needToSave` predicate.

    The network is an input: `fetch(i)` is what the attempt numbered `i`
    (from 0) gets back. The alerts and console messages are not modelled. */
module HistoryHandler {
  import opened Common
  import opened Retry

  /** The `answer` object of a reply: its `history` field, and its
      `sessionIds` field when that is an array. */
  datatype Answer = Answer(history: Option<string>, sessionIds: Option<seq<string>>)

  /** The parsed reply `val`: its `answer` field, absent or an object. */
  datatype Body = Body(answer: Option<Answer>)

  /** What one attempt gets back: the fetch or the JSON parse failed, or
      the reply parsed, possibly to `null`. */
  datatype Response = NetworkError | Parsed(body: Option<Body>)

  datatype Verb = Get | Post

  /** The one `Request` object each helper builds and resends. */
  datatype Request = Request(verb: Verb, path: string, headers: seq<(string, string)>, history: Option<string>)

  /** What `saveHistory` resolves to: the server's `answer` (possibly
      undefined), or one of its fixed messages. */
  datatype SaveOutcome = ServerAnswer(answer: Option<Answer>) | Message(text: string)

  const HistoryNotSaved: string := "History not saved"
  const CouldNotSaveHistory: string := "Could not save history"
  const UnableToLoadHistory: string := "Unable to load history"

  /** `needToSave(userId, history)`: false exactly when there is no
      history or the user id is the text "null". */
  predicate NeedToSave(userId: string, history: Option<string>): (need: bool)
    ensures need ==> history.Some?
    ensures userId == "null" ==> !need
  {
    !(history.None? || userId == "null")
  }

  // ---------------------------------------------------------------------
  // saveHistory
  // ---------------------------------------------------------------------

  function SaveRequest(userId: string, sessionId: string, history: Option<string>): Request {
    Request(Post, "/api/history",
            [("Content-Type", "application/json"), ("userId", userId), ("sessionId", sessionId)], history)
  }

  /** An attempt of `saveHistory` succeeds when the reply parses to an
      object, whose `answer` is then returned. */
  predicate SaveReadable(fetch: nat -> Response, i: nat) {
    fetch(i).Parsed? && fetch(i).body.Some?
  }

  /** What `saveHistory` resolves to. */
  function SaveHistoryResult(userId: string, history: Option<string>, fetch: nat -> Response): (r: SaveOutcome)
    ensures !NeedToSave(userId, history) ==> r == Message(HistoryNotSaved)
    ensures r.ServerAnswer? ==> exists i: nat :: i < MaxRetries && SaveReadable(fetch, i) && r.answer == fetch(i).body.value.answer
    ensures r == Message(CouldNotSaveHistory) ==> forall i: nat :: i < MaxRetries ==> !SaveReadable(fetch, i)
  {
    if !NeedToSave(userId, history) then Message(HistoryNotSaved)
    else match FirstOk((i: nat) => SaveReadable(fetch, i), MaxRetries)
      case Some(i) => ServerAnswer(fetch(i).body.value.answer)
      case None => Message(CouldNotSaveHistory)
  }

  /** How many requests `saveHistory` sends. */
  function SaveHistoryAttempts(userId: string, history: Option<string>, fetch: nat -> Response): nat {
    if !NeedToSave(userId, history) then 0
    else AttemptsMade((i: nat) => SaveReadable(fetch, i), MaxRetries)
  }

  /** `saveHistory(userId, sessionId, history)`; `sent` lists the requests
      made, in order. */
  method SaveHistory(userId: string, sessionId: string, history: Option<string>, fetch: nat -> Response)
    returns (result: SaveOutcome, sent: seq<Request>)
    ensures result == SaveHistoryResult(userId, history, fetch)
    ensures sent == Copies(SaveRequest(userId, sessionId, history), SaveHistoryAttempts(userId, history, fetch))
  {
    sent := [];
    if NeedToSave(userId, history) {
      var request := SaveRequest(userId, sessionId, history);
      var attempt: nat := 0;
      while attempt < MaxRetries
        invariant attempt < MaxRetries
        invariant forall j: nat :: j < attempt ==> !SaveReadable(fetch, j)
        invariant sent == Copies(request, attempt)
      {
        sent := sent + [request];
        var res := fetch(attempt);
        if res.Parsed? && res.body.Some? {
          return ServerAnswer(res.body.value.answer), sent;
        }
        attempt := attempt + 1;
        if attempt >= MaxRetries {
          return Message(CouldNotSaveHistory), sent;
        }
      }
    }
    result := Message(HistoryNotSaved);
  }

  // ---------------------------------------------------------------------
  // saveHistory as written: one Request object resent
  // ---------------------------------------------------------------------

  /** What `saveHistory` resolves to as written. The loop resends the one
      `Request` it built, and that request carries a body, which the first
      `fetch` consumes. Under the Fetch standard, `fetch` of a request whose
      body is already used rejects with a `TypeError` before anything is
      sent. So every retry fails at once, and only the first attempt
      decides the outcome. */
  function SaveHistoryResultAsWritten(userId: string, history: Option<string>, fetch: nat -> Response): SaveOutcome {
    if !NeedToSave(userId, history) then Message(HistoryNotSaved)
    else if SaveReadable(fetch, 0) then ServerAnswer(fetch(0).body.value.answer)
    else Message(CouldNotSaveHistory)
  }

  /** `saveHistory` as written. `bodyUsed` is the request's body-used flag.
      A request is sent only while the flag is clear, and sending sets it. */
  method SaveHistoryAsWritten(userId: string, sessionId: string, history: Option<string>, fetch: nat -> Response)
    returns (result: SaveOutcome, sent: seq<Request>)
    ensures result == SaveHistoryResultAsWritten(userId, history, fetch)
    ensures sent == (if NeedToSave(userId, history) then [SaveRequest(userId, sessionId, history)] else [])
  {
    sent := [];
    if NeedToSave(userId, history) {
      var request := SaveRequest(userId, sessionId, history);
      var bodyUsed := false;
      var attempt: nat := 0;
      while attempt < MaxRetries
        invariant attempt < MaxRetries
        invariant bodyUsed <==> attempt > 0
        invariant attempt > 0 ==> !SaveReadable(fetch, 0)
        invariant sent == (if bodyUsed then [request] else [])
      {
        if !bodyUsed {
          sent := sent + [request];
          bodyUsed := true;
          var res := fetch(attempt);
          if res.Parsed? && res.body.Some? {
            return ServerAnswer(res.body.value.answer), sent;
          }
        }
        attempt := attempt + 1;
        if attempt >= MaxRetries {
          return Message(CouldNotSaveHistory), sent;
        }
      }
    }
    result := Message(HistoryNotSaved);
  }

  /** The reused request loses the retries: a network error on the first
      attempt and a good reply on the second give the fallback message as
      written, where a fresh request per attempt gives the server's
      answer. */
  lemma ReusedRequestLosesRetry(userId: string, history: Option<string>, fetch: nat -> Response, a: Answer)
    requires NeedToSave(userId, history)
    requires fetch(0) == NetworkError && fetch(1) == Parsed(Some(Body(Some(a))))
    ensures SaveHistoryResultAsWritten(userId, history, fetch) == Message(CouldNotSaveHistory)
    ensures SaveHistoryResult(userId, history, fetch) == ServerAnswer(Some(a))
    ensures SaveHistoryAttempts(userId, history, fetch) == 2
  {
    var save := (i: nat) => SaveReadable(fetch, i);
    assert !save(0) && save(1);
  }

  /** The two agree whenever the first attempt is readable, or when every
      attempt fails. */
  lemma AsWrittenAgreesOnFirstOrNone(userId: string, history: Option<string>, fetch: nat -> Response)
    requires SaveReadable(fetch, 0) || forall i: nat :: i < MaxRetries ==> !SaveReadable(fetch, i)
    ensures SaveHistoryResultAsWritten(userId, history, fetch) == SaveHistoryResult(userId, history, fetch)
  {
    var save := (i: nat) => SaveReadable(fetch, i);
    if !save(0) {
      assert forall j: nat :: j < MaxRetries ==> !save(j);
    }
  }

  // ---------------------------------------------------------------------
  // getHistory
  // ---------------------------------------------------------------------

  function GetRequest(userId: string, sessionId: string): Request {
    Request(Get, "/api/history",
            [("Content-Type", "application/json"), ("userId", userId), ("sessionId", sessionId)], None)
  }

  /** An attempt of `getHistory` succeeds when `val.answer.history` can be
      read: the reply is an object with an `answer`. */
  predicate HistoryReadable(fetch: nat -> Response, i: nat) {
    fetch(i).Parsed? && fetch(i).body.Some? && fetch(i).body.value.answer.Some?
  }

  /** What `getHistory` resolves to: the `history` field of the first
      readable answer (undefined when the field is missing), or the fixed
      message. */
  function GetHistoryResult(fetch: nat -> Response): (r: Option<string>)
    ensures r == Some(UnableToLoadHistory)
            || exists i: nat :: i < MaxRetries && HistoryReadable(fetch, i) && r == fetch(i).body.value.answer.value.history
    ensures (forall i: nat :: i < MaxRetries ==> !HistoryReadable(fetch, i)) ==> r == Some(UnableToLoadHistory)
  {
    match FirstOk((i: nat) => HistoryReadable(fetch, i), MaxRetries)
    case Some(i) => fetch(i).body.value.answer.value.history
    case None => Some(UnableToLoadHistory)
  }

  method GetHistory(sessionId: string, userId: string, fetch: nat -> Response)
    returns (result: Option<string>, sent: seq<Request>)
    ensures result == GetHistoryResult(fetch)
    ensures sent == Copies(GetRequest(userId, sessionId), AttemptsMade((i: nat) => HistoryReadable(fetch, i), MaxRetries))
  {
    var request := GetRequest(userId, sessionId);
    sent := [];
    var attempt: nat := 0;
    while attempt < MaxRetries
      invariant attempt < MaxRetries
      invariant forall j: nat :: j < attempt ==> !HistoryReadable(fetch, j)
      invariant sent == Copies(request, attempt)
    {
      sent := sent + [request];
      var res := fetch(attempt);
      if res.Parsed? && res.body.Some? && res.body.value.answer.Some? {
        return res.body.value.answer.value.history, sent;
      }
      attempt := attempt + 1;
      if attempt >= MaxRetries {
        return Some(UnableToLoadHistory), sent;
      }
    }
    result := Some(UnableToLoadHistory);
  }

  // ---------------------------------------------------------------------
  // getUsersPastConversations
  // ---------------------------------------------------------------------

  function PastConversationsRequest(userId: string): Request {
    Request(Get, "/api/history", [("Content-Type", "application/json"), ("userId", userId)], None)
  }

  /** An attempt succeeds only when the reply has an `answer` whose
      `sessionIds` is an array; any other reply counts as a failure. */
  predicate IdsReadable(fetch: nat -> Response, i: nat) {
    fetch(i).Parsed? && fetch(i).body.Some? && fetch(i).body.value.answer.Some?
    && fetch(i).body.value.answer.value.sessionIds.Some?
  }

  function PastConversationsResult(fetch: nat -> Response): (ids: seq<string>)
    ensures ids == []
            || exists i: nat :: i < MaxRetries && IdsReadable(fetch, i) && ids == fetch(i).body.value.answer.value.sessionIds.value
    ensures (forall i: nat :: i < MaxRetries ==> !IdsReadable(fetch, i)) ==> ids == []
  {
    match FirstOk((i: nat) => IdsReadable(fetch, i), MaxRetries)
    case Some(i) => fetch(i).body.value.answer.value.sessionIds.value
    case None => []
  }

  method GetUsersPastConversations(userId: string, fetch: nat -> Response)
    returns (ids: seq<string>, sent: seq<Request>)
    ensures ids == PastConversationsResult(fetch)
    ensures sent == Copies(PastConversationsRequest(userId), AttemptsMade((i: nat) => IdsReadable(fetch, i), MaxRetries))
  {
    var request := PastConversationsRequest(userId);
    sent := [];
    var attempt: nat := 0;
    while attempt < MaxRetries
      invariant attempt < MaxRetries
      invariant forall j: nat :: j < attempt ==> !IdsReadable(fetch, j)
      invariant sent == Copies(request, attempt)
    {
      sent := sent + [request];
      var res := fetch(attempt);
      if res.Parsed? && res.body.Some? && res.body.value.answer.Some? && res.body.value.answer.value.sessionIds.Some? {
        return res.body.value.answer.value.sessionIds.value, sent;
      }
      attempt := attempt + 1;
      if attempt >= MaxRetries {
        return [], sent;
      }
    }
    ids := [];
  }

  // ---------------------------------------------------------------------
  // Properties
  // ---------------------------------------------------------------------

  /** Nothing is sent, and the fixed message comes back, exactly when
      there is nothing to save. */
  lemma NoSaveNoRequest(userId: string, history: Option<string>, fetch: nat -> Response)
    ensures SaveHistoryAttempts(userId, history, fetch) == 0 <==> !NeedToSave(userId, history)
    ensures !NeedToSave(userId, history) ==> SaveHistoryResult(userId, history, fetch) == Message(HistoryNotSaved)
  {
    if NeedToSave(userId, history) {
      var ok := (i: nat) => SaveReadable(fetch, i);
      assert AttemptsMade(ok, MaxRetries) >= 1;
    }
  }

  /** Three failed attempts give the fixed fallback of each helper, and a
      save that could not be made is reported, not silently dropped. */
  lemma {:induction false} ThreeFailuresGiveFallback(userId: string, history: Option<string>, fetch: nat -> Response)
    requires forall i: nat :: i < MaxRetries ==> fetch(i) == NetworkError
    ensures NeedToSave(userId, history) ==> SaveHistoryResult(userId, history, fetch) == Message(CouldNotSaveHistory)
    ensures NeedToSave(userId, history) ==> SaveHistoryAttempts(userId, history, fetch) == MaxRetries
    ensures GetHistoryResult(fetch) == Some(UnableToLoadHistory)
    ensures PastConversationsResult(fetch) == []
  {
    var save := (i: nat) => SaveReadable(fetch, i);
    var load := (i: nat) => HistoryReadable(fetch, i);
    var ids := (i: nat) => IdsReadable(fetch, i);
    assert forall j: nat :: j < MaxRetries ==> !save(j) && !load(j) && !ids(j);
  }

  /** A first attempt that can be read ends the loop after one request,
      whatever later attempts would have got. */
  lemma FirstReadableEndsLoop(fetch: nat -> Response)
    requires IdsReadable(fetch, 0)
    ensures AttemptsMade((i: nat) => IdsReadable(fetch, i), MaxRetries) == 1
    ensures PastConversationsResult(fetch) == fetch(0).body.value.answer.value.sessionIds.value
  {
    var ids := (i: nat) => IdsReadable(fetch, i);
    assert ids(0);
  }

  /** An answer without a `sessionIds` array counts as a failure even
      though the reply was read: with such answers on every attempt,
      `getUsersPastConversations` gives `[]` after three requests while
      `getHistory` takes the first. */
  lemma MissingIdsIsFailure(fetch: nat -> Response, a: Answer)
    requires a.sessionIds.None?
    requires forall i: nat :: fetch(i) == Parsed(Some(Body(Some(a))))
    ensures PastConversationsResult(fetch) == []
    ensures AttemptsMade((i: nat) => IdsReadable(fetch, i), MaxRetries) == MaxRetries
    ensures GetHistoryResult(fetch) == a.history
  {
    var ids := (i: nat) => IdsReadable(fetch, i);
    var load := (i: nat) => HistoryReadable(fetch, i);
    assert forall j: nat :: j < MaxRetries ==> !ids(j);
    assert load(0);
  }
}
