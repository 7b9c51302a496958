/** The bounded retry shared by the client's history and feedback helpers
    (Client/controllers/historyHandler.ts, Client/controllers/feedbackHandler.ts):
    up to three sequential attempts, stopping at the first that succeeds.
    Which attempts succeed is an input, `ok(i)` for the attempt numbered
    `i` from 0; the one-second pause between attempts is not modelled. */
module Retry {
  import opened Common

  /** `maxRetries`. */
  const MaxRetries: nat := 3

  /** The first attempt below `n` that succeeds, if any. */
  function FirstOk(ok: nat -> bool, n: nat): (r: Option<nat>)
    ensures r.Some? ==> r.value < n && ok(r.value)
    ensures r.Some? ==> forall j: nat :: j < r.value ==> !ok(j)
    ensures r.None? <==> forall j: nat :: j < n ==> !ok(j)
  {
    if n == 0 then None
    else match FirstOk(ok, n - 1)
      case Some(i) => Some(i)
      case None => if ok(n - 1) then Some(n - 1) else None
  }

  /** How many attempts a retry loop of `n` makes: up to and including
      the first success, or all `n`. */
  function AttemptsMade(ok: nat -> bool, n: nat): (k: nat)
    ensures k <= n
    ensures k < n ==> k >= 1 && ok(k - 1)
    ensures forall j: nat :: j + 1 < k ==> !ok(j)
  {
    match FirstOk(ok, n)
    case Some(i) => i + 1
    case None => n
  }

  /** A later success never changes an earlier answer: the first success
      among more attempts is the first success among fewer, when there
      was one. */
  lemma {:induction false} FirstOkStable(ok: nat -> bool, n: nat, m: nat)
    requires n <= m && FirstOk(ok, n).Some?
    ensures FirstOk(ok, m) == FirstOk(ok, n)
    decreases m - n
  {
    if n < m {
      FirstOkStable(ok, n, m - 1);
    }
  }

  /** `k` copies of the same request: a retry loop resends one request
      object. */
  function Copies<T>(x: T, k: nat): (r: seq<T>)
    ensures |r| == k
    ensures forall j :: 0 <= j < k ==> r[j] == x
  {
    if k == 0 then [] else Copies(x, k - 1) + [x]
  }
}
