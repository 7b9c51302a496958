/** One conversation, as src/Handlers/Session.ts builds it: a user, a session
    id, a communicator, four handlers and the creation and expiry times.

    The handlers are opaque delegates: the model records, in `events`, every
    call the session makes on them, every console error it logs and every
    `dispose` it calls. Payload sizes (`getSizeInBytes`), the generated ids
    (`uuidv4`) and the clock are inputs. */
module Session {
  import opened Common
  import U = User

  /** The build-time constants the session reads. */
  datatype Config = Config(useauth: bool, debug: bool, maxLength: int, expirationTime: int)

  datatype ErrorKind =
    | AuthorizationError
    | SessionError
    | ChatSessionError
    | SettingsSessionError
    | TypeError            // a method called on a handler that was never built

  /** A value thrown inside the constructor's `try`: an `Error` with its
      message and stack, or some other value. */
  datatype Thrown = Error(kind: ErrorKind, message: string, stack: string) | NonError

  /** An exception that leaves a member of the session. */
  datatype Raised = Raised(kind: ErrorKind, message: string)

  datatype ChatObject = ChatObject(question: string)
  datatype FeedbackObject = FeedbackObject(feedback: string, feedbackId: string, question: string, response: string, responseTime: int)
  datatype SettingsObject = SettingsObject(clientSettings: string, userSettings: string)

  datatype Part = ChatHandler | FeedbackHandler | HistoryHandler | SettingsHandler | UserPart | CommunicatorPart

  datatype Event =
    | QuestionSent(chat: ChatObject)
    | FeedbackSent(feedback: FeedbackObject)
    | HistoryRequested
    | SettingsRequested
    | SettingsSent(settings: SettingsObject)
    | ConsoleError(message: string)
    | ErrorLogged(error: Thrown)  // `console.error(error)` in the constructor's debug path
    | Disposed(part: Part)

  /** How a guarded operation ends: handed to its handler, or thrown. */
  datatype Outcome = Delegated | Threw(error: Raised)

  const SessionIdMissing: string := "Session ID not defined"
  const UserMissing: string := "User not defined"
  const InvalidQuestionLength: string := "Invalid Question Length"
  const SettingsTooLong: string := "Settings too long"
  const FeedbackTooLong: string := "Feedback too long"
  const HandlerMissing: string := "handler is undefined"
  const DisposeNotAFunction: string := "[Symbol.dispose] is not a function"

  /** `_initialize`'s choice of id: a supplied (truthy) id is kept verbatim,
      anything else is replaced by a freshly generated one. */
  function ResolveSessionId(supplied: Option<string>, freshId: string): (id: string)
    ensures supplied.Some? && supplied.value != "" ==> id == supplied.value
    ensures supplied.None? || supplied.value == "" ==> id == freshId
  {
    if supplied.Some? && supplied.value != "" then supplied.value else freshId
  }

  /** The constructor's `catch`: in debug mode nothing leaves it; otherwise
      an `AuthorizationError` is rethrown unchanged, any other `Error` becomes
      a `SessionError` whose message names the original message and stack,
      and a non-`Error` value becomes a `SessionError` for an unknown error. */
  function ConstructionFailure(debug: bool, e: Thrown): (r: Option<Raised>)
    ensures debug <==> r.None?
    ensures !debug && e.Error? && e.kind == AuthorizationError ==> r == Some(Raised(AuthorizationError, e.message))
    ensures !debug && e.Error? && e.kind != AuthorizationError ==>
              r == Some(Raised(SessionError, "Session initialization failed: " + e.message + " " + e.stack))
    ensures !debug && e.NonError? ==> r == Some(Raised(SessionError, "Session initialization failed: Unknown error"))
    ensures r.Some? ==> r.value.kind in {AuthorizationError, SessionError}
  {
    if debug then None
    else match e
      case Error(kind, message, stack) =>
        if kind == AuthorizationError then Some(Raised(AuthorizationError, message))
        else Some(Raised(SessionError, "Session initialization failed: " + message + " " + stack))
      case NonError => Some(Raised(SessionError, "Session initialization failed: Unknown error"))
  }

  /** The `dispose` calls teardown makes, in order: chat, feedback and history
      when built, then the user, then the communicator; never the settings
      handler. */
  function DisposeOrder(handlers: bool, user: bool, communicator: bool): (parts: seq<Part>)
    ensures SettingsHandler !in parts
    ensures (ChatHandler in parts) == handlers && (UserPart in parts) == user && (CommunicatorPart in parts) == communicator
    ensures |parts| == (if handlers then 3 else 0) + (if user then 1 else 0) + (if communicator then 1 else 0)
  {
    (if handlers then [ChatHandler, FeedbackHandler, HistoryHandler] else [])
    + (if user then [UserPart] else [])
    + (if communicator then [CommunicatorPart] else [])
  }

  /** One `Disposed` event per part, in the same order. */
  function Disposals(parts: seq<Part>): (evs: seq<Event>)
    ensures |evs| == |parts|
    ensures forall i :: 0 <= i < |parts| ==> evs[i] == Disposed(parts[i])
  {
    if parts == [] then [] else [Disposed(parts[0])] + Disposals(parts[1..])
  }

  function HandlerDisposals(handlers: bool): seq<Event> {
    if handlers then [Disposed(ChatHandler), Disposed(FeedbackHandler), Disposed(HistoryHandler)] else []
  }

  /** The disposal events, part group by part group. */
  lemma DisposeEvents(handlers: bool, user: bool, communicator: bool)
    ensures Disposals(DisposeOrder(handlers, user, communicator)) ==
              HandlerDisposals(handlers)
              + (if user then [Disposed(UserPart)] else [])
              + (if communicator then [Disposed(CommunicatorPart)] else [])
  {
    var parts := DisposeOrder(handlers, user, communicator);
    var evs := HandlerDisposals(handlers)
               + (if user then [Disposed(UserPart)] else [])
               + (if communicator then [Disposed(CommunicatorPart)] else []);
    var hs: seq<Part> := if handlers then [ChatHandler, FeedbackHandler, HistoryHandler] else [];
    var us: seq<Part> := if user then [UserPart] else [];
    var cs: seq<Part> := if communicator then [CommunicatorPart] else [];
    assert parts == hs + us + cs;
    forall i | 0 <= i < |parts| ensures Disposals(parts)[i] == evs[i] {
      if i < |hs| {
        assert parts[i] == hs[i];
      } else if i < |hs| + |us| {
        assert parts[i] == us[i - |hs|];
      } else {
        assert parts[i] == cs[i - |hs| - |us|];
      }
    }
  }

  class Session {
    const config: Config
    /** `_user`. */
    var user: U.User?
    /** `session_id` (undefined until `_initialize` sets it). */
    var sessionId: Option<string>
    /** `_communicator` has been built. */
    var hasCommunicator: bool
    /** `_chat`, `_feedback`, `_history` and `_settings` have been built (together). */
    var hasHandlers: bool
    var createdAt: Option<int>
    var expiresAt: Option<int>
    /** Calls on the handlers, console errors and disposals, in order. */
    var events: seq<Event>

    /** The object before the constructor body runs: every field unset. */
    constructor Blank(config: Config)
      ensures this.config == config
      ensures user == null && sessionId == None && !hasCommunicator && !hasHandlers
      ensures createdAt == None && expiresAt == None && events == []
    {
      this.config := config;
      user := null;
      sessionId := None;
      hasCommunicator := false;
      hasHandlers := false;
      createdAt := None;
      expiresAt := None;
      events := [];
    }

    /** `_initializeUser`: with authentication on, an authenticated user is
        started first (its identity fetch is never awaited), and then,
        whatever `useauth` says, an anonymous user takes its place. */
    method InitializeUser(freshUserId: string)
      modifies this`user
      ensures user != null && fresh(user)
      ensures user.userId == freshUserId && user.photo == "" && !user.awaitingIdentity
    {
      if user == null && config.useauth {
        user := new U.User(false, "");
      }
      user := new U.User(true, freshUserId);
    }

    /** `_initializeHandlers`: an empty session id raises a `SessionError`, a
        missing user id an `AuthorizationError`; otherwise the four handlers
        are built on the one communicator. */
    method InitializeHandlers(stack: string) returns (e: Option<Thrown>)
      modifies this`hasHandlers
      ensures sessionId.None? || sessionId.value == "" ==>
                e == Some(Error(SessionError, SessionIdMissing, stack)) && hasHandlers == old(hasHandlers)
      ensures sessionId.Some? && sessionId.value != "" && (user == null || user.UserIdView().None?) ==>
                e == Some(Error(AuthorizationError, UserMissing, stack)) && hasHandlers == old(hasHandlers)
      ensures sessionId.Some? && sessionId.value != "" && user != null && user.UserIdView().Some? ==>
                e == None && hasHandlers
    {
      if sessionId.None? || sessionId.value == "" {
        e := Some(Error(SessionError, SessionIdMissing, stack));
      } else if user == null || user.UserIdView().None? {
        e := Some(Error(AuthorizationError, UserMissing, stack));
      } else {
        hasHandlers := true;
        e := None;
      }
    }

    /** `_initialize`: the user is always set by `_initializeUser`, so its
        `else` branch (the "User not authorized" throw) cannot be reached. */
    method Initialize(supplied: Option<string>, freshUserId: string, freshSessionId: string, stack: string)
      returns (e: Option<Thrown>)
      modifies this`user, this`sessionId, this`hasCommunicator, this`hasHandlers
      ensures user != null && fresh(user) && user.userId == freshUserId && !user.awaitingIdentity
      ensures sessionId == Some(ResolveSessionId(supplied, freshSessionId)) && hasCommunicator
      ensures ResolveSessionId(supplied, freshSessionId) == "" ==>
                e == Some(Error(SessionError, SessionIdMissing, stack)) && hasHandlers == old(hasHandlers)
      ensures ResolveSessionId(supplied, freshSessionId) != "" && freshUserId == "" ==>
                e == Some(Error(AuthorizationError, UserMissing, stack)) && hasHandlers == old(hasHandlers)
      ensures ResolveSessionId(supplied, freshSessionId) != "" && freshUserId != "" ==> e == None && hasHandlers
    {
      InitializeUser(freshUserId);
      sessionId := Some(ResolveSessionId(supplied, freshSessionId));
      hasCommunicator := true;
      e := InitializeHandlers(stack);
    }

    /** `sendChat`: an empty question, or one whose size exceeds `maxLength`,
        raises `ChatSessionError` and reaches no handler; otherwise the same
        object is handed to the chat handler. */
    method SendChat(question: ChatObject, size: int) returns (r: Outcome)
      modifies this`events
      ensures |question.question| == 0 || size > config.maxLength ==>
                r == Threw(Raised(ChatSessionError, InvalidQuestionLength)) && events == old(events)
      ensures |question.question| > 0 && size <= config.maxLength && hasHandlers ==>
                r == Delegated && events == old(events) + [QuestionSent(question)]
      ensures |question.question| > 0 && size <= config.maxLength && !hasHandlers ==>
                r == Threw(Raised(TypeError, HandlerMissing)) && events == old(events)
    {
      if |question.question| == 0 || size > config.maxLength {
        return Threw(Raised(ChatSessionError, InvalidQuestionLength));
      }
      if !hasHandlers {
        return Threw(Raised(TypeError, HandlerMissing));
      }
      events := events + [QuestionSent(question)];
      r := Delegated;
    }

    /** `sendFeedback`: an oversized payload is only logged; the same object
        is handed to the feedback handler either way. */
    method SendFeedback(feedback: FeedbackObject, size: int) returns (r: Outcome)
      modifies this`events
      ensures hasHandlers ==> r == Delegated
      ensures !hasHandlers ==> r == Threw(Raised(TypeError, HandlerMissing))
      ensures events == old(events)
                        + (if size > config.maxLength then [ConsoleError(FeedbackTooLong)] else [])
                        + (if hasHandlers then [FeedbackSent(feedback)] else [])
    {
      if size > config.maxLength {
        events := events + [ConsoleError(FeedbackTooLong)];
      }
      if !hasHandlers {
        return Threw(Raised(TypeError, HandlerMissing));
      }
      events := events + [FeedbackSent(feedback)];
      r := Delegated;
    }

    /** `getHistory`: delegated unchanged. */
    method GetHistory() returns (r: Outcome)
      modifies this`events
      ensures hasHandlers ==> r == Delegated && events == old(events) + [HistoryRequested]
      ensures !hasHandlers ==> r == Threw(Raised(TypeError, HandlerMissing)) && events == old(events)
    {
      if !hasHandlers {
        return Threw(Raised(TypeError, HandlerMissing));
      }
      events := events + [HistoryRequested];
      r := Delegated;
    }

    /** `getSettings`: delegated unchanged. */
    method GetSettings() returns (r: Outcome)
      modifies this`events
      ensures hasHandlers ==> r == Delegated && events == old(events) + [SettingsRequested]
      ensures !hasHandlers ==> r == Threw(Raised(TypeError, HandlerMissing)) && events == old(events)
    {
      if !hasHandlers {
        return Threw(Raised(TypeError, HandlerMissing));
      }
      events := events + [SettingsRequested];
      r := Delegated;
    }

    /** `setSettings`: a size above `maxLength` raises `SettingsSessionError`;
        otherwise the same object is handed to the settings handler. */
    method SetSettings(settings: SettingsObject, size: int) returns (r: Outcome)
      modifies this`events
      ensures size > config.maxLength ==>
                r == Threw(Raised(SettingsSessionError, SettingsTooLong)) && events == old(events)
      ensures size <= config.maxLength && hasHandlers ==> r == Delegated && events == old(events) + [SettingsSent(settings)]
      ensures size <= config.maxLength && !hasHandlers ==>
                r == Threw(Raised(TypeError, HandlerMissing)) && events == old(events)
    {
      if size > config.maxLength {
        return Threw(Raised(SettingsSessionError, SettingsTooLong));
      }
      if !hasHandlers {
        return Threw(Raised(TypeError, HandlerMissing));
      }
      events := events + [SettingsSent(settings)];
      r := Delegated;
    }

    /** `[Symbol.dispose]`: each present part is disposed, in a fixed order. */
    method Dispose()
      modifies this`events
      ensures events == old(events) + Disposals(DisposeOrder(hasHandlers, user != null, hasCommunicator))
    {
      var handlers: seq<Event> := [];
      if hasHandlers {
        handlers := [Disposed(ChatHandler), Disposed(FeedbackHandler), Disposed(HistoryHandler)];
      }
      var userPart: seq<Event> := [];
      if user != null {
        userPart := [Disposed(UserPart)];
      }
      var communicator: seq<Event> := [];
      if hasCommunicator {
        communicator := [Disposed(CommunicatorPart)];
      }
      DisposeEvents(hasHandlers, user != null, hasCommunicator);
      events := events + (handlers + userPart + communicator);
    }

    /** `[Symbol.dispose]` as written. Chat.ts and Communicator.ts define no
        `[Symbol.dispose]`, so calling it on the chat handler or on the
        communicator throws a `TypeError`. A session with handlers throws
        at its first call and disposes nothing. Without handlers, the user
        is disposed, and then the communicator, if present, throws. */
    method DisposeAsWritten() returns (thrown: Option<Raised>)
      modifies this`events
      ensures thrown.None? <==> !hasHandlers && !hasCommunicator
      ensures thrown.Some? ==> thrown.value == Raised(TypeError, DisposeNotAFunction)
      ensures hasHandlers ==> events == old(events)
      ensures !hasHandlers ==> events == old(events) + (if user != null then [Disposed(UserPart)] else [])
    {
      if hasHandlers {
        return Some(Raised(TypeError, DisposeNotAFunction));
      }
      if user != null {
        events := events + [Disposed(UserPart)];
      }
      if hasCommunicator {
        return Some(Raised(TypeError, DisposeNotAFunction));
      }
      thrown := None;
    }
  }

  /** `new Session(session_id)`. The session comes back either way; `thrown`
      is what the constructor throws. `createdAt` and `expiresAt` are set only
      when `_initialize` returns normally. With non-empty generated ids (as
      `uuidv4` always gives) construction cannot fail. */
  method NewSession(config: Config, supplied: Option<string>, freshUserId: string, freshSessionId: string,
                    now: int, stack: string)
    returns (s: Session, thrown: Option<Raised>)
    ensures fresh(s) && s.config == config
    ensures s.sessionId == Some(ResolveSessionId(supplied, freshSessionId)) && s.hasCommunicator
    ensures s.user != null && s.user.userId == freshUserId
    ensures ResolveSessionId(supplied, freshSessionId) != "" && freshUserId != "" ==>
              thrown == None && s.hasHandlers && s.events == []
              && s.createdAt == Some(now) && s.expiresAt == Some(now + config.expirationTime)
    ensures ResolveSessionId(supplied, freshSessionId) == "" ==>
              thrown == ConstructionFailure(config.debug, Error(SessionError, SessionIdMissing, stack))
              && !s.hasHandlers && s.createdAt == None && s.expiresAt == None
    ensures ResolveSessionId(supplied, freshSessionId) != "" && freshUserId == "" ==>
              thrown == ConstructionFailure(config.debug, Error(AuthorizationError, UserMissing, stack))
              && !s.hasHandlers && s.createdAt == None && s.expiresAt == None
    ensures ResolveSessionId(supplied, freshSessionId) == "" ==>
              s.events == (if config.debug then [ErrorLogged(Error(SessionError, SessionIdMissing, stack))] else [])
    ensures ResolveSessionId(supplied, freshSessionId) != "" && freshUserId == "" ==>
              s.events == (if config.debug then [ErrorLogged(Error(AuthorizationError, UserMissing, stack))] else [])
  {
    s := new Session.Blank(config);
    var e := s.Initialize(supplied, freshUserId, freshSessionId, stack);
    if e.None? {
      s.createdAt := Some(now);
      s.expiresAt := Some(now + config.expirationTime);
      thrown := None;
    } else {
      if config.debug {
        s.events := s.events + [ErrorLogged(e.value)];
      }
      thrown := ConstructionFailure(config.debug, e.value);
    }
  }

  /** As written, tearing down any session that `new Session` built throws:
      the constructor always builds the communicator, which cannot be
      disposed. The disposal that the registry and sign-out rely on never
      completes. */
  method NewSessionTeardownThrows(config: Config, supplied: Option<string>, freshUserId: string,
                                  freshSessionId: string, now: int, stack: string)
    returns (thrown: Option<Raised>)
    ensures thrown == Some(Raised(TypeError, DisposeNotAFunction))
  {
    var s, _ := NewSession(config, supplied, freshUserId, freshSessionId, now, stack);
    thrown := s.DisposeAsWritten();
  }
}
