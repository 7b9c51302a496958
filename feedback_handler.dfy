/** `submitFeedback` of Client/controllers/feedbackHandler.ts: the feedback
    payload is posted to `/api/feedback` up to three times, stopping at the
    first success; the third failure is passed on to the caller.

    The network is an input: `post(i)` is what the attempt numbered `i`
    (from 0) gets back. */
module FeedbackHandler {
  import opened Retry

  /** `FeedbackRequest`, the body of every attempt. */
  datatype FeedbackRequest = FeedbackRequest(
    feedback: string, feedbackId: string, question: string, response: string, responseTime: int)

  /** What one POST gets back: success, or an error. */
  datatype PostResult = Posted | PostError(error: string)

  /** How `submitFeedback` ends: it resolves, or rejects with an error. */
  datatype Submission = Submitted | Rethrown(error: string)

  /** The payload: built from the feedback, question, answer and timing
      alone. */
  function Payload(feedbackText: string, feedbackId: string, question: string, response: string,
                   responseTime: int): FeedbackRequest
  {
    FeedbackRequest(feedbackText, feedbackId, question, response, responseTime)
  }

  predicate PostOk(post: nat -> PostResult, i: nat) {
    post(i).Posted?
  }

  /** How the call ends: the first success resolves it; three failures
      reject it with the third attempt's error. */
  function SubmissionResult(post: nat -> PostResult): (r: Submission)
    ensures r == Submitted <==> exists i: nat :: i < MaxRetries && post(i).Posted?
    ensures r.Rethrown? ==> r.error == post(MaxRetries - 1).error
  {
    match FirstOk((i: nat) => PostOk(post, i), MaxRetries)
    case Some(_) => Submitted
    case None => Rethrown(post(MaxRetries - 1).error)
  }

  /** `submitFeedback(userId, sessionId, currentTime, feedbackText,
      feedbackId, question, response, responseTime)`; `sent` lists the
      bodies posted, in order. */
  method SubmitFeedback(userId: string, sessionId: string, currentTime: string, feedbackText: string,
                        feedbackId: string, question: string, response: string, responseTime: int,
                        post: nat -> PostResult)
    returns (result: Submission, sent: seq<FeedbackRequest>)
    ensures result == SubmissionResult(post)
    ensures sent == Copies(Payload(feedbackText, feedbackId, question, response, responseTime),
                           AttemptsMade((i: nat) => PostOk(post, i), MaxRetries))
  {
    var requestBody := FeedbackRequest(feedbackText, feedbackId, question, response, responseTime);
    sent := [];
    var attempt: nat := 0;
    while attempt < MaxRetries
      invariant attempt < MaxRetries
      invariant forall j: nat :: j < attempt ==> !PostOk(post, j)
      invariant sent == Copies(requestBody, attempt)
    {
      sent := sent + [requestBody];
      var outcome := post(attempt);
      if outcome.Posted? {
        return Submitted, sent;
      }
      attempt := attempt + 1;
      if attempt >= MaxRetries {
        return Rethrown(outcome.error), sent;
      }
    }
    result := Submitted;
  }

  // ---------------------------------------------------------------------
  // Properties
  // ---------------------------------------------------------------------

  /** The call rejects exactly when all three attempts fail, and then with
      the last attempt's error, after three posts. */
  lemma {:induction false} RejectsIffAllFail(post: nat -> PostResult)
    ensures SubmissionResult(post).Rethrown? <==> forall i: nat :: i < MaxRetries ==> !post(i).Posted?
    ensures SubmissionResult(post).Rethrown? ==>
              SubmissionResult(post).error == post(2).error
              && AttemptsMade((i: nat) => PostOk(post, i), MaxRetries) == MaxRetries
  {
    var ok := (i: nat) => PostOk(post, i);
    assert forall i: nat :: ok(i) == post(i).Posted?;
  }
}
