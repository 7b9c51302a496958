/** The event handlers of the chat view in src/ChatBotAi.tsx: the active
    session id, the history cards, and the session cache they consult.

    A React component's handlers see the state of the render that created
    them: `setSessionId` changes what the next render shows, not the
    `session_id` the running handler reads. The model keeps both:
    `renderedSessionId` is what the handlers read, `pendingSessionId` what
    the last `setSessionId` asked for. Sessions are represented by their ids;
    the id a newly built session takes is an input. */
module ChatBotAi {
  import opened Common
  import SC = SessionCache

  /** A history card. Its `sessionId` is fixed; `isActive` is set in place. */
  class HistoryItem {
    const sessionId: Option<string>
    var isActive: bool

    constructor (sessionId: Option<string>, isActive: bool)
      ensures this.sessionId == sessionId && this.isActive == isActive
    {
      this.sessionId := sessionId;
      this.isActive := isActive;
    }
  }

  /** Whether a card names the given session. */
  predicate Names(item: HistoryItem, id: string) {
    item.sessionId == Some(id)
  }

  /** The index of the first card naming `id`. */
  function FirstMatch(items: seq<HistoryItem>, id: string): (r: Option<nat>)
    ensures r.Some? ==> r.value < |items| && Names(items[r.value], id)
    ensures r.Some? ==> forall j :: 0 <= j < r.value ==> !Names(items[j], id)
    ensures r.None? ==> forall j :: 0 <= j < |items| ==> !Names(items[j], id)
  {
    if items == [] then None
    else if Names(items[0], id) then Some(0)
    else match FirstMatch(items[1..], id)
      case None => None
      case Some(k) => Some(k + 1)
  }

  /** The element at `i` moved to the front; the others keep their order. */
  function Promote<T>(s: seq<T>, i: nat): (r: seq<T>)
    requires i < |s|
    ensures |r| == |s| && r[0] == s[i]
    ensures r[1..] == s[..i] + s[i + 1..]
  {
    [s[i]] + s[..i] + s[i + 1..]
  }

  /** The reordering `setActiveCardId` computes: the first card naming `id`
      moves to the top; with no such card the order is unchanged. */
  function Reordered(items: seq<HistoryItem>, id: string): (r: seq<HistoryItem>)
    ensures |r| == |items|
    ensures FirstMatch(items, id).None? ==> r == items
    ensures FirstMatch(items, id).Some? ==> r[0] == items[FirstMatch(items, id).value]
  {
    match FirstMatch(items, id)
    case None => items
    case Some(i) => Promote(items, i)
  }

  /** `handleCardClick`'s guard: a card with no (or an empty) session id, or
      with the id already shown, is ignored. */
  predicate CardClickIgnored(card: Option<string>, rendered: string): (ignored: bool)
    ensures !ignored ==> card.Some? && card.value != "" && card.value != rendered
    ensures card.Some? && card.value == rendered ==> ignored
  {
    card.None? || card.value == "" || card.value == rendered
  }

  /** How a handler ended. Two of them end by calling a member the session
      object lacks or by reading a field the payload lacks. */
  datatype Outcome =
    | Ignored
    | QuestionMissing      // `sendChat({message})`: the session reads `question.question.length`
    | NoChatHistoryMember  // `session.getChatHistory()`: sessions have no such member

  /** Which session `getActiveSession` yields. */
  datatype ActiveSession = Cached(id: string) | Created(id: string)

  class ChatBotView {
    const manager: SC.SessionCache
    /** `session_id` as the running handlers see it. */
    const renderedSessionId: string
    /** The value last passed to `setSessionId`. */
    var pendingSessionId: string
    /** `session_history`. */
    var sessionHistory: seq<HistoryItem>
    /** The ids of the sessions `createNewChat` built, in order. */
    var created: seq<string>

    /** A render over the manager, whose active id seeds `session_id`. */
    constructor (manager: SC.SessionCache, history: seq<HistoryItem>)
      ensures this.manager == manager && renderedSessionId == manager.activeSessionId
      ensures pendingSessionId == manager.activeSessionId && sessionHistory == history && created == []
    {
      this.manager := manager;
      renderedSessionId := manager.activeSessionId;
      pendingSessionId := manager.activeSessionId;
      sessionHistory := history;
      created := [];
    }

    /** `updateSessionId`: both the view state and the manager take the id. */
    method UpdateSessionId(id: string) returns (r: string)
      modifies this`pendingSessionId, manager`activeSessionId
      ensures pendingSessionId == id && manager.activeSessionId == id && r == id
    {
      pendingSessionId := id;
      manager.activeSessionId := id;
      r := manager.activeSessionId;
    }

    /** `createNewChat`: a session is built (and not cached) and its id made
        the active id. */
    method CreateNewChat(newId: string) returns (id: string)
      modifies this`pendingSessionId, this`created, manager`activeSessionId
      ensures id == newId && pendingSessionId == newId && manager.activeSessionId == newId
      ensures created == old(created) + [newId]
    {
      created := created + [newId];
      id := UpdateSessionId(newId);
    }

    /** `getActiveSession`: the cached session of the rendered id, or else a
        new chat. */
    method GetActiveSession(newId: string) returns (r: ActiveSession)
      modifies this`pendingSessionId, this`created, manager`activeSessionId
      ensures renderedSessionId in manager.activeSessions ==>
                r == Cached(renderedSessionId) && pendingSessionId == old(pendingSessionId)
                && manager.activeSessionId == old(manager.activeSessionId) && created == old(created)
      ensures renderedSessionId !in manager.activeSessions ==>
                r == Created(newId) && pendingSessionId == newId
                && manager.activeSessionId == newId && created == old(created) + [newId]
    {
      if renderedSessionId in manager.activeSessions {
        r := Cached(renderedSessionId);
      } else {
        var id := CreateNewChat(newId);
        r := Created(id);
      }
    }

    /** `handleChatSubmit(message, sessionId)`: without a session id a new
        chat is built first; then the active session is looked up (by the
        rendered id) and handed `{message}`, which has no `question` field. */
    method HandleChatSubmit(message: string, sessionId: Option<string>, firstNewId: string, secondNewId: string)
      returns (r: Outcome)
      modifies this`pendingSessionId, this`created, manager`activeSessionId
      ensures r == QuestionMissing
      ensures created == old(created)
                         + (if sessionId.None? || sessionId.value == "" then [firstNewId] else [])
                         + (if renderedSessionId !in manager.activeSessions then [secondNewId] else [])
      ensures renderedSessionId !in manager.activeSessions ==>
                pendingSessionId == secondNewId && manager.activeSessionId == secondNewId
      ensures renderedSessionId in manager.activeSessions && (sessionId.None? || sessionId.value == "") ==>
                pendingSessionId == firstNewId && manager.activeSessionId == firstNewId
      ensures renderedSessionId in manager.activeSessions && sessionId.Some? && sessionId.value != "" ==>
                pendingSessionId == old(pendingSessionId) && manager.activeSessionId == old(manager.activeSessionId)
    {
      if sessionId.None? || sessionId.value == "" {
        var _ := CreateNewChat(firstNewId);
      }
      var _ := GetActiveSession(secondNewId);
      r := QuestionMissing;
    }

    /** `setActiveCardId(id)` as written: every card's `isActive` becomes
        whether it names `id`. The reordered copy it computes is dropped, so
        `session_history` keeps its order. */
    method SetActiveCardId(id: string)
      modifies set i | 0 <= i < |sessionHistory| :: sessionHistory[i]
      ensures forall i :: 0 <= i < |sessionHistory| ==> sessionHistory[i].isActive == Names(sessionHistory[i], id)
    {
      for i := 0 to |sessionHistory|
        invariant forall j :: 0 <= j < i ==> sessionHistory[j].isActive == Names(sessionHistory[j], id)
      {
        sessionHistory[i].isActive := Names(sessionHistory[i], id);
      }
    }

    /** `setActiveCardId(id)` with the reordered list kept: the cards are
        flagged as above and the first active card moves to the top. */
    method ActivateCard(id: string)
      modifies this`sessionHistory, set i | 0 <= i < |sessionHistory| :: sessionHistory[i]
      ensures sessionHistory == Reordered(old(sessionHistory), id)
      ensures forall i :: 0 <= i < |sessionHistory| ==> sessionHistory[i].isActive == Names(sessionHistory[i], id)
    {
      SetActiveCardId(id);
      var flagged := sessionHistory;
      var k := 0;
      while k < |flagged| && !flagged[k].isActive
        invariant k <= |flagged|
        invariant forall j :: 0 <= j < k ==> !Names(flagged[j], id)
      {
        k := k + 1;
      }
      if k < |flagged| {
        sessionHistory := [flagged[k]] + flagged[..k] + flagged[k + 1..];
      }
      assert FirstMatch(flagged, id) == (if k < |flagged| then Some(k) else None);
    }

    /** `handleCardClick(card)`: an ignored card changes nothing. Otherwise
        the card's id becomes active, the active session is looked up by the
        rendered id (a new chat, whose id then wins, when it is not cached),
        the cards are flagged, and the call ends asking the session for a
        member it does not have. */
    method HandleCardClick(card: HistoryItem, newId: string) returns (r: Outcome)
      modifies this`pendingSessionId, this`created, manager`activeSessionId
      modifies set i | 0 <= i < |sessionHistory| :: sessionHistory[i]
      ensures CardClickIgnored(card.sessionId, renderedSessionId) ==>
                r == Ignored && pendingSessionId == old(pendingSessionId) && created == old(created)
                && manager.activeSessionId == old(manager.activeSessionId)
                && forall i :: 0 <= i < |sessionHistory| ==> sessionHistory[i].isActive == old(sessionHistory[i].isActive)
      ensures !CardClickIgnored(card.sessionId, renderedSessionId) ==>
                r == NoChatHistoryMember
                && pendingSessionId == manager.activeSessionId
                && pendingSessionId == (if renderedSessionId in manager.activeSessions then card.sessionId.value else newId)
                && created == old(created) + (if renderedSessionId in manager.activeSessions then [] else [newId])
                && forall i :: 0 <= i < |sessionHistory| ==> sessionHistory[i].isActive == Names(sessionHistory[i], card.sessionId.value)
    {
      if CardClickIgnored(card.sessionId, renderedSessionId) {
        return Ignored;
      }
      var _ := UpdateSessionId(card.sessionId.value);
      var _ := GetActiveSession(newId);
      SetActiveCardId(card.sessionId.value);
      r := NoChatHistoryMember;
    }
  }

  // ---------------------------------------------------------------------
  // Properties of the reordering
  // ---------------------------------------------------------------------

  /** Moving one element to the front keeps the same elements. */
  lemma PromotePermutes<T>(s: seq<T>, i: nat)
    requires i < |s|
    ensures multiset(Promote(s, i)) == multiset(s)
  {
    assert s == s[..i] + [s[i]] + s[i + 1..];
  }

  /** The reordering is a permutation whose head names `id` when any card
      does, and which leaves the list alone when none does. */
  lemma ReorderedPermutes(items: seq<HistoryItem>, id: string)
    ensures multiset(Reordered(items, id)) == multiset(items)
    ensures FirstMatch(items, id).Some? ==> Names(Reordered(items, id)[0], id)
    ensures FirstMatch(items, id).None? ==> Reordered(items, id) == items
  {
    if FirstMatch(items, id).Some? {
      PromotePermutes(items, FirstMatch(items, id).value);
    }
  }

  /** Activating the same card twice gives the order of activating it once. */
  lemma ReorderedIdempotent(items: seq<HistoryItem>, id: string)
    ensures Reordered(Reordered(items, id), id) == Reordered(items, id)
  {
    var r := Reordered(items, id);
    if FirstMatch(items, id).Some? {
      assert FirstMatch(r, id) == Some(0);
      assert Promote(r, 0) == r;
    }
  }

  /** The as-written handler and the one that keeps the reordering differ:
      with a second card naming the id, only the latter moves it. */
  lemma DroppedReorderMatters(a: HistoryItem, b: HistoryItem, id: string)
    requires a.sessionId == None && b.sessionId == Some(id)
    ensures Reordered([a, b], id) == [b, a]
    ensures Reordered([a, b], id) != [a, b]
  {
    assert FirstMatch([a, b], id) == Some(1);
  }
}
