# Dash2Labs chatbot: session layer, proxy and helpers

This project is a Dafny model of the Dash2Labs chatbot. It covers five parts:

- the browser client's session and transport layer (`src/`): the communicator, user, session, chat history, session cache, session registry, sign-in and the chat view;
- the Express proxy that stands between the browser and the chat server (`clientserver/`): its routes, middleware, response relay and path resolver;
- the client controllers of `Client/controllers/`: the session store and the history and feedback handlers with their retry loops;
- the client-side chatbot controller of `later/ClientServer/`;
- the Python server helpers of `later/Server/`: record shaping, prompt rendering, the needs-context test, request validation, the small utilities and the chat-history retention job.

Objects that the code updates in place are classes, and their methods state the whole new state. Pure code is datatypes and functions. Loops are methods with invariants, proved against a specification function. Everything outside the code is an input of the model, usually a function parameter:

- the identity provider, the HTTP exchanges, the language model chains, MongoDB, the cache and the clock;
- generated ids, payload sizes and the XSS filter;
- renderings such as `json.dumps`, `str` and `strptime`.

Timers and sleeps become explicit calls.

## Model

| member | source | states |
|---|---|---|
| Common.Split | clientserver/resolve_ts_path.ts:28 | `split` always yields at least one piece |
| Common.JoinSplit | clientserver/resolve_ts_path.ts:28 | joining the pieces of a split on the same separator gives back the text |
| Common.SplitPiecesLackSeparator | later/ClientServer/controllers/chatBotClientSideController.ts:96-98 | no piece of a split holds the separator |
| Communicator.MergeHeaders | src/Handlers/Communicator.ts:71-76 | the merged headers hold every default and custom key; a custom header overrides the default of the same name, other defaults are kept |
| Communicator.IdentityHeaders | src/Handlers/Communicator.ts:28 | the identity headers are empty exactly when the session id or the user id is empty, and otherwise hold exactly `session_id` and `user_id` |
| Communicator.CallClassification | src/Handlers/Communicator.ts:49-67 | a 2xx response resolves the call with it and leaves the counter; a rejection with status >= 500 resolves undefined and adds one; any other status resolves undefined and sets the counter to 3; a rejection without a response rejects the call; a counter past 2 sends nothing |
| Communicator.NextCount | src/Handlers/Communicator.ts:58-66 | the counter never decreases, stays put once spent, and grows only on a rejection that carries a response |
| Communicator.ResultOf | src/Handlers/Communicator.ts:49-66 | a spent instance resolves undefined; a call resolves with a response only for a 2xx fulfilment; it rejects exactly on a rejection without a response |
| Communicator.CountNeverDecreases | src/Handlers/Communicator.ts:58-66 | over any series of calls the retry counter never decreases |
| Communicator.SpentInstanceSendsNothing | src/Handlers/Communicator.ts:49 | once the counter exceeds the limit of 2, no later call sends a request and the counter stays put |
| Communicator.FailuresBounded | src/Handlers/Communicator.ts:49-66 | an instance issues at most three requests that fail with a status over its whole life |
| Communicator.Communicator.constructor | src/Handlers/Communicator.ts:14-24 | a new instance has counter 0, no stored configuration, and the JSON default headers |
| Communicator.Communicator.AppendHeaders | src/Handlers/Communicator.ts:71-76 | the stored configuration becomes the merge of defaults and custom headers |
| Communicator.Communicator.SendRequest | src/Handlers/Communicator.ts:44-69 | one call stores the merged headers, posts at most once (only while the counter is within the limit), and settles and moves the counter as the classification says |
| Communicator.Communicator.SendFeedback | src/Handlers/Communicator.ts:26-30 | posts the feedback to `/api/feedback` with the identity headers merged in, under the same counter rules |
| Communicator.Communicator.SendHistory | src/Handlers/Communicator.ts:32-36 | posts the history to `/api/history` with the identity headers merged in, under the same counter rules |
| Communicator.Communicator.SendChat | src/Handlers/Communicator.ts:38-42 | builds the identity headers and changes nothing: no request is sent |
| Session.ResolveSessionId | src/Handlers/Session.ts:118-123 | a supplied non-empty id is kept verbatim; a missing or empty one is replaced by the generated id |
| Session.ConstructionFailure | src/Handlers/Session.ts:42-55 | nothing is thrown in debug mode; otherwise an `AuthorizationError` is rethrown as is, another `Error` becomes a `SessionError` naming its message and stack, and a non-`Error` becomes the unknown-error `SessionError`; nothing else can leave the constructor |
| Session.DisposeOrder | src/Handlers/Session.ts:168-174 | teardown disposes chat, feedback and history (when built), then the user, then the communicator, each only when present, and never the settings handler |
| Session.Disposals | src/Handlers/Session.ts:168-174 | one dispose event per part, in the same order |
| Session.Session.InitializeUser | src/Handlers/Session.ts:138-144 | whatever `useauth` says, the user ends as a fresh anonymous user with the generated id |
| Session.Session.InitializeHandlers | src/Handlers/Session.ts:153-166 | an unset or empty session id raises `SessionError`, a missing user id `AuthorizationError`, and only otherwise are the handlers built |
| Session.Session.Initialize | src/Handlers/Session.ts:115-130 | the user is set, the session id is the resolved one, the communicator is built, and the handlers are built exactly when both ids are non-empty, with the matching error otherwise |
| Session.Session.SendChat | src/Handlers/Session.ts:62-67 | an empty question or one larger than `maxLength` throws `ChatSessionError` and reaches no handler; otherwise the same question is handed to the chat handler |
| Session.Session.SendFeedback | src/Handlers/Session.ts:72-77 | an oversized feedback is only logged; the same object is handed on either way |
| Session.Session.GetHistory | src/Handlers/Session.ts:82-84 | the call is delegated unchanged, or fails when no handler was built |
| Session.Session.GetSettings | src/Handlers/Session.ts:89-91 | the call is delegated unchanged, or fails when no handler was built |
| Session.Session.SetSettings | src/Handlers/Session.ts:96-101 | settings larger than `maxLength` throw `SettingsSessionError` and reach no handler; otherwise they are handed on unchanged |
| Session.Session.Dispose | src/Handlers/Session.ts:168-174 | the intended teardown (see Findings): the events grow by exactly the disposals of the present parts, in the fixed order |
| Session.Session.DisposeAsWritten | src/Handlers/Session.ts:168-174 | as written, the teardown throws a `TypeError` exactly when the chat handler or the communicator is present, because neither class defines `[Symbol.dispose]`; with handlers nothing is disposed, otherwise only the user is |
| Session.NewSessionTeardownThrows | src/Handlers/Session.ts:168-174 | as written, tearing down any session the constructor built throws the `TypeError`, whatever the ids and configuration |
| Session.NewSession | src/Handlers/Session.ts:36-57 | with non-empty ids construction succeeds and sets expiry to creation time plus `expirationTime`; an empty id yields the mapped construction failure, no timestamps, and a logged error only in debug mode |
| User.User.constructor | src/Models/User.ts:18-32 | an anonymous user holds the generated id as the constructor returns; a non-anonymous one returns with the empty id while its identity fetch is pending; the photo starts empty |
| User.User.ResumeInitialize | src/Models/User.ts:23-28 | the provider's id is stored; an empty id rejects with "User not authorized" before the photo is fetched; otherwise the profile photo is stored |
| User.User.UserIdView | src/Models/User.ts:34-36 | the getter is undefined exactly when the stored id is empty, and the stored id otherwise |
| User.User.SetUserId | src/Models/User.ts:37-39 | the setter overwrites the id unconditionally |
| User.User.SetPhoto | src/Models/User.ts:43-45 | the setter overwrites the photo unconditionally |
| ChatHistory.GetChatHistory | src/Handlers/ChatHistory.ts:34-39 | the call throws "StartId must be a number" exactly when `parseInt(startId)` is `NaN`; otherwise it addresses `/api/chats/<session>/?startId=<startId text>&length=<length>` with no headers |
| ChatHistory.ParseIntOfDecimalPrefix | src/Handlers/ChatHistory.ts:35-36 | a cursor that begins with a number's decimal text parses to that number whatever non-digit text follows, so `parseInt` lets a partly numeric cursor through |
| ChatHistory.NonNumericCursorRejected | src/Handlers/ChatHistory.ts:35-38 | a cursor whose first character is not white space, a sign or a digit is rejected before any request |
| ChatHistory.ChatsQueryCarriesCursor | src/Handlers/ChatHistory.ts:39 | the query splits on `&` into exactly the two parameters, the cursor text carried verbatim |
| ChatHistory.ChatsUrlSplitsAtQuery | src/Handlers/ChatHistory.ts:39 | the URL splits on `?` into the session path and the query |
| ChatHistory.ParseInt | src/Handlers/ChatHistory.ts:35-36 | `parseInt` is `NaN` exactly when, after the white space and one sign, no digit follows (for a `0x` prefix, no hexadecimal digit after it); a leading minus gives at most zero, anything else at least zero |
| ChatHistory.ChatsUrl | src/Handlers/ChatHistory.ts:39 | the URL starts with `/api/chats/` and ends with the query carrying the cursor text and the length |
| SessionCache.Validate | src/Handlers/SessionManager.ts:15-33 | the answer is false exactly when the id is cached with an expiry not later than now, and then only that entry is removed; otherwise the answer is true and the entry is rebuilt fresh |
| SessionCache.Summaries | src/Handlers/SessionManager.ts:52-62 | the summaries are the data of a 200 response, and undefined for any other status or a failed request |
| SessionCache.SessionCache.constructor | src/Handlers/SessionManager.ts:6-9 | the cache starts empty with an empty active id and no requests |
| SessionCache.SessionCache.InCache | src/Handlers/SessionManager.ts:76-78 | true exactly when the id has an entry |
| SessionCache.SessionCache.AddLocal | src/Handlers/SessionManager.ts:68-70 | the id's entry becomes a freshly built session and no other entry changes |
| SessionCache.SessionCache.ValidActiveSession | src/Handlers/SessionManager.ts:15-33 | answer and new cache are those of `Validate`; the remote check is issued exactly when the answer is true, and its verdict does not matter |
| SessionCache.SessionCache.AddActiveSession | src/Handlers/SessionManager.ts:38-47 | the remote POST is issued and the session is cached locally whatever it answers |
| SessionCache.SessionCache.GetSessionHistorySummaries | src/Handlers/SessionManager.ts:52-62 | one GET of `/session/history` is issued and the result is `Summaries` of its outcome |
| SessionCache.ValidateTouchesOnlyItsId | src/Handlers/SessionManager.ts:17-19 | validating one id leaves every other entry as it was |
| SessionCache.ValidateStable | src/Handlers/SessionManager.ts:15-33 | with a positive expiration time, a session just validated is valid again at the same instant and the cache does not change |
| SessionCache.RejectedThenReadmitted | src/Handlers/SessionManager.ts:18-31 | an expired id is dropped and answered false, and asking again admits it afresh with true |
| SessionRegistry.Unexpired | src/Managers/Session.ts:40-49 | a sweep keeps exactly the sessions whose expiry is not earlier than now, unchanged, and adds none |
| SessionRegistry.SessionRegistry.constructor | src/Managers/Session.ts:11-14 | before anything runs there is no instance, no session and nothing disposed |
| SessionRegistry.SessionRegistry.GetInstance | src/Managers/Session.ts:16-22 | only the first call creates the instance with an empty map; later calls leave the sessions as they are |
| SessionRegistry.SessionRegistry.GetSession | src/Managers/Session.ts:24-26 | the stored session exactly when the id is present, undefined otherwise |
| SessionRegistry.SessionRegistry.AddSession | src/Managers/Session.ts:28-30 | the session is stored under its own id, replacing any entry there, and nothing else changes |
| SessionRegistry.SessionRegistry.RemoveSession | src/Managers/Session.ts:32-38 | with the intended teardown: the id's entry is deleted, and a present session is disposed first, an absent one disposes nothing |
| SessionRegistry.SessionRegistry.DeleteExpiredSessions | src/Managers/Session.ts:40-49 | with the intended teardown: the map becomes `Unexpired` of the old one; the sessions disposed are exactly the expired ones, each once, appended after the earlier disposals |
| SessionRegistry.SessionRegistry.RemoveSessionAsWritten | src/Managers/Session.ts:32-38 | with the teardown as written, removing a present id throws before its key is deleted, and the registry is left unchanged; an absent id changes nothing |
| SessionRegistry.SessionRegistry.DeleteExpiredSessionsAsWritten | src/Managers/Session.ts:40-49 | with the teardown as written, the sweep throws exactly when some session has expired, and it deletes nothing |
| SessionRegistry.UnexpiredKeepsKeying | src/Managers/Session.ts:40-49 | a sweep keeps every session stored under its own id |
| SessionRegistry.SweepIdempotent | src/Managers/Session.ts:40-49 | sweeping twice at the same instant removes nothing more |
| SessionRegistry.SweepMonotone | src/Managers/Session.ts:40-49 | a later sweep removes at least what an earlier one removed, and an earlier sweep followed by a later one equals the later one alone |
| SignIn.HandleSignIn.constructor | src/Handlers/HandleSignIn.ts:21-24 | a new instance holds the fixed cookie id and no session |
| SignIn.HandleSignIn.SignIn | src/Handlers/HandleSignIn.ts:26-35 | with no session, one is built from the current id, its id becomes current and it is registered under it; with a session nothing changes; `signedIn` is emitted either way |
| SignIn.HandleSignIn.SignOut | src/Handlers/HandleSignIn.ts:37-45 | with the intended teardown and a session, the registry disposes and drops the current id, both fields are cleared and `signedOut` is emitted with undefined; without one nothing happens |
| SignIn.HandleSignIn.SetSessionId | src/Handlers/HandleSignIn.ts:59-61 | the setter overwrites the id |
| SignIn.HandleSignIn.SetSession | src/Handlers/HandleSignIn.ts:67-69 | the setter overwrites the session |
| SignIn.SignInIdempotent | src/Handlers/HandleSignIn.ts:26-33 | signing in twice has the effect of signing in once |
| SignIn.StepsKeepConsistent | src/Handlers/HandleSignIn.ts:26-45 | both steps keep the current session named by the current id |
| SignIn.SignInThenOut | src/Handlers/HandleSignIn.ts:26-45 | signing in from a signed-out state keeps a non-empty id, and signing out again removes exactly that id from the registry |
| SignIn.SignInAfterSignOut | src/Handlers/HandleSignIn.ts:37-43 | after signing out the id is empty, so the next session takes a generated id |
| ChatBotAi.FirstMatch | src/ChatBotAi.tsx:152 | the index found is the first card whose session id equals the given one; no index means no card has it |
| ChatBotAi.Promote | src/ChatBotAi.tsx:153-156 | the chosen card is now first, and the other cards keep their relative order |
| ChatBotAi.Reordered | src/ChatBotAi.tsx:152-156 | the reordering keeps the number of cards, puts the first card naming the id on top, and leaves the list alone when none does |
| ChatBotAi.CardClickIgnored | src/ChatBotAi.tsx:132-134 | a card that is acted on carries a non-empty id other than the one shown, and a card with the shown id is ignored |
| ChatBotAi.HistoryItem.constructor | src/ChatBotAi.tsx:14 | a history card holds its session id and its active flag |
| ChatBotAi.ChatBotView.constructor | src/ChatBotAi.tsx:10-14 | the view seeds `session_id` from the manager's active id, with the history it is given and no chats created yet |
| ChatBotAi.ChatBotView.UpdateSessionId | src/ChatBotAi.tsx:105-109 | both the view's pending id and the manager's active id become the argument, which is returned |
| ChatBotAi.ChatBotView.CreateNewChat | src/ChatBotAi.tsx:115-119 | a session is built, recorded and its id made active everywhere |
| ChatBotAi.ChatBotView.GetActiveSession | src/ChatBotAi.tsx:111-113 | the cached session of the rendered id, with nothing changed, or else a new chat whose id becomes active |
| ChatBotAi.ChatBotView.HandleChatSubmit | src/ChatBotAi.tsx:121-129 | a missing or empty id builds one chat; an uncached rendered id builds another, whose id wins; the payload never carries a `question` |
| ChatBotAi.ChatBotView.SetActiveCardId | src/ChatBotAi.tsx:145-150 | as written, every card is flagged active exactly when it names the id, and the list order is untouched |
| ChatBotAi.ChatBotView.ActivateCard | src/ChatBotAi.tsx:145-158 | the corrected handler flags the cards the same way and leaves the list equal to its reordering |
| ChatBotAi.ChatBotView.HandleCardClick | src/ChatBotAi.tsx:131-143 | an ignored card changes nothing; otherwise the ids agree, the cards are flagged for the clicked id and the call ends asking the session for a missing member |
| ChatBotAi.PromotePermutes | src/ChatBotAi.tsx:153-156 | moving one card to the front keeps the same cards |
| ChatBotAi.ReorderedPermutes | src/ChatBotAi.tsx:152-156 | the reordering is a permutation that puts a card naming the id first when there is one, and leaves the list alone when there is none |
| ChatBotAi.ReorderedIdempotent | src/ChatBotAi.tsx:152-156 | activating the same id twice gives the order that activating it once gives |
| ChatBotAi.DroppedReorderMatters | src/ChatBotAi.tsx:152-157 | a two-card list where the second card names the id: the discarded reordering differs from the kept order |
| ActiveSessions.Validated | clientserver/SessionManager.ts:21-32 | the answer is true exactly for a present id with a non-zero expiry later than now; a present id that fails is removed and nothing else changes |
| ActiveSessions.Cleaned | clientserver/SessionManager.ts:42-48 | the entries kept are exactly those expiring no earlier than now, with their expiry unchanged |
| ActiveSessions.SessionManager.constructor | clientserver/SessionManager.ts:4 | the store starts empty |
| ActiveSessions.SessionManager.AddActiveSession | clientserver/SessionManager.ts:13-15 | the id now expires the configured time after now, whatever it held before |
| ActiveSessions.SessionManager.RemoveActiveSession | clientserver/SessionManager.ts:17-19 | the id is gone and nothing else changes |
| ActiveSessions.SessionManager.ValidActiveSession | clientserver/SessionManager.ts:21-32 | the answer and the new store are those of `Validated` |
| ActiveSessions.SessionManager.UpdateActiveSession | clientserver/SessionManager.ts:34-40 | true exactly when the id was present, which then gets a fresh expiry; an absent id is not inserted |
| ActiveSessions.SessionManager.CleanSessions | clientserver/SessionManager.ts:42-48 | the store becomes `Cleaned` of the old store |
| ActiveSessions.AddedIsValid | clientserver/SessionManager.ts:13-25 | an id just added validates until its expiry |
| ActiveSessions.CleanKeepsValidity | clientserver/SessionManager.ts:21-48 | cleaning first never changes a validation's answer |
| ActiveSessions.ExpiringNowSurvivesCleanButFailsValidation | clientserver/SessionManager.ts:23-44 | an entry expiring exactly now survives the clean but validation rejects and removes it |
| ActiveSessions.ValidatedTouchesOnlyItsId | clientserver/SessionManager.ts:21-32 | validation leaves every other id and its expiry as they were |
| SessionRoute.ActiveReply | clientserver/routes/session.ts:17-21 | the status is 200 exactly when the id is valid, with "Session is active"; otherwise 403 with "Session is not active" |
| SessionRoute.SessionActive | clientserver/routes/session.ts:15-31 | either verb sanitises the id, answers from the store's validation and leaves the store as validation leaves it |
| SessionRoute.RouteNeverAdds | clientserver/routes/session.ts:15-31 | the route never adds an id; at most it drops the one it was asked about |
| SessionRoute.ActiveAnswerChangesNothing | clientserver/routes/session.ts:17-18 | a request answered 200 leaves the store unchanged |
| ProxyResponse.HandleResponse | clientserver/common_imports.ts:15-25 | every reply carries the correlation id; 2xx passes the data through as 200, 4xx becomes 400 with the user error, 5xx and above 500 with the server error, anything else keeps its status with the unknown error |
| ProxyResponse.HandleResponseKeepsClass | clientserver/common_imports.ts:15-25 | the client's status class equals the upstream's for success, client and server errors, and the upstream data reaches the client exactly on success |
| ApiRoutes.ForwardHeaders | clientserver/routes/api.ts:54 | the forwarded headers are exactly the correlation id and the cleaned user and session ids |
| ApiRoutes.ForwardAndRelayShape | clientserver/routes/api.ts:53-61 | the forwarding tail of a route forwards the request and attempts exactly one reply |
| ApiRoutes.ForwardOnlyPastGates | clientserver/routes/api.ts:32-174 | forwarding happens exactly past the gates: chat posts within the size limit whose JSON text keeps its length under the sanitiser, feedback posts that also carry their field, settings posts that also have authentication on, and GETs whose text keeps its length |
| ApiRoutes.ChatForwardsIff | clientserver/routes/api.ts:32-62 | the chat route forwards exactly the requests within the size limit whose JSON text keeps its length under the sanitiser, with or without a question |
| ApiRoutes.SettingsPostForwardsIff | clientserver/routes/api.ts:139-174 | the settings post forwards exactly the requests within the size limit whose JSON text keeps its length under the sanitiser, when authentication is on |
| ApiRoutes.FeedbackForwardsIff | clientserver/routes/api.ts:64-95 | the feedback route forwards exactly the requests within the size limit whose JSON text keeps its length under the sanitiser and that carry `feedback` |
| ApiRoutes.GetsForwardIff | clientserver/routes/api.ts:97-137 | the two GET routes forward exactly the requests whose JSON text keeps its length under the sanitiser, whatever their size |
| ApiRoutes.Unclean | clientserver/routes/api.ts:38 | a request counts as unclean only when the sanitiser changes its JSON text; the test compares lengths, so a rewrite of the same length counts as clean |
| ApiRoutes.SameLengthRewritePasses | clientserver/routes/api.ts:38 | a sanitiser rewrite that keeps the length passes the gate |
| ApiRoutes.PostChat | clientserver/routes/api.ts:32-62 | every path ends in a reply, an early reply is a 400, and the session is checked before any forward; forwarding, the 400s and the double reply are stated by ChatForwardsIff, OversizedPostAnsweredAlone, UncleanAnsweredAlone and MissingQuestionStillForwarded |
| ApiRoutes.PostChatCorrected | clientserver/routes/api.ts:32-62 | the same shape as the chat route with the missing question ending it; CorrectedChatRepliesOnce states the single reply |
| ApiRoutes.PostFeedback | clientserver/routes/api.ts:64-95 | every path ends in a reply, an early reply is a 400, and the session is never checked; ForwardOnlyPastGates, OversizedPostAnsweredAlone, UncleanAnsweredAlone and RejectedUpstreamIs500 state the rest |
| ApiRoutes.GetHistory | clientserver/routes/api.ts:97-116 | every path ends in a reply, an early reply is a 400, and the session is checked before the forward; UncleanAnsweredAlone and SessionCheckedExceptFeedback give the full action lists |
| ApiRoutes.GetSettings | clientserver/routes/api.ts:118-137 | as for the history GET, on `/api/settings` |
| ApiRoutes.PostSettings | clientserver/routes/api.ts:139-174 | every path ends in a reply, an early reply is a 400, and the session is checked before any forward; SettingsPostForwardsIff, SettingsWithoutAuthRefused and MissingSettingsStillForwarded state the rest |
| ApiRoutes.UncleanAnsweredAlone | clientserver/routes/api.ts:38-149 | past the size gate, a request whose JSON text changes length under the sanitiser gets exactly one 400 with the route's own "Invalid characters" message and nothing else: no session check, no forward; the GET routes have no size gate |
| ApiRoutes.SettingsWithoutAuthRefused | clientserver/routes/api.ts:150-173 | with authentication off, a settings post past the size and sanitiser gates has its session checked and is then refused 403 with the user error, never forwarded |
| ApiRoutes.SessionCheckedExceptFeedback | clientserver/routes/api.ts:53-131 | the feedback route never checks the session; a clean GET checks it, forwards to its upstream path with the forwarded headers and relays one reply; a chat post with a question checks it first |
| ApiRoutes.Relay | clientserver/routes/api.ts:56-61 | a rejected upstream call is answered 500 with the server error; an answer carries the correlation id; the client sees upstream data only from a 2xx answer |
| ApiRoutes.OversizedPostAnsweredAlone | clientserver/routes/api.ts:33-36 | an oversized POST is answered 400 with the route's own message, and nothing else happens |
| ApiRoutes.RejectedUpstreamIs500 | clientserver/routes/api.ts:58-61 | a forwarded chat or feedback request that the upstream rejects ends with a 500 server error |
| ApiRoutes.MissingQuestionStillForwarded | clientserver/routes/api.ts:43-46 | as written, a chat request with no question is answered 400, then still forwarded, and a second reply is attempted |
| ApiRoutes.MissingSettingsStillForwarded | clientserver/routes/api.ts:150-164 | as written, a settings post with no settings is answered 400 and, with authentication on, still forwarded |
| ApiRoutes.CorrectedChatRepliesOnce | clientserver/routes/api.ts:43-47 | with the `return` added, every chat request gets exactly one reply, and only a request that passes all three gates is forwarded |
| Middleware.SizeLimit | clientserver/middleware/middleware.ts:17-25 | the chain goes on exactly when the four summed sizes are within the limit; otherwise the only effect is a 400 "Request too long" |
| Middleware.XssCheck | clientserver/middleware/middleware.ts:27-56 | `next` is always called; a 400 "Invalid characters in request" is sent exactly when the running failure flag ends up set |
| Middleware.RunningFailIff | clientserver/middleware/middleware.ts:28-48 | the running OR ends set exactly when it started set or some defined part changes under the sanitiser; undefined parts never count |
| Middleware.RunningFail | clientserver/middleware/middleware.ts:28-48 | once set, the running failure stays set, and parts that are all undefined leave it as it started |
| Middleware.XssCheckFailsIffTampered | clientserver/middleware/middleware.ts:27-54 | the gate answers 400 exactly when the body, headers, query or params is defined and changes under the sanitiser |
| ResolvePath.BaseDir | clientserver/resolve_ts_path.ts:17-18 | the base directory is "../clientserver" exactly in development and "../dist" otherwise |
| ResolvePath.FirstAlias | clientserver/resolve_ts_path.ts:23-25 | the index found is the first alias key, in key order, that starts with the path's first segment; none found means no key does |
| ResolvePath.ReplaceFirstWildcard | clientserver/resolve_ts_path.ts:27 | a pattern without "/*" is kept; otherwise exactly one "/*" is removed |
| ResolvePath.Resolve | clientserver/resolve_ts_path.ts:16-32 | the path is unchanged exactly when no key matches or the matching key is empty; an alias without targets is a type error; otherwise the result joins the environment's base directory, the first target and the rest of the path |
| ResolvePath.ResolvedUsesFirstAlias | clientserver/resolve_ts_path.ts:25-29 | the rewrite uses the first matching alias and its first target, even when a later alias also matches |
| ResolvePath.SegmentAndRestRebuildPath | clientserver/resolve_ts_path.ts:23-28 | the first segment, a slash and the rest give back a path that holds a slash; a path without one has an empty rest |
| ResolvePath.ReplaceFirstWildcardUndone | clientserver/resolve_ts_path.ts:27 | putting "/*" back where the first one was gives the pattern again, and no earlier position held one |
| ResolvePath.EmptySegmentMatchesFirstAlias | clientserver/resolve_ts_path.ts:23-25 | a path with an empty first segment matches the first alias, whatever that alias is |
| ClientSessions.Ensured | Client/controllers/sessionsManager.ts:19-33 | afterwards the handler is stored; an existing one is kept as it was, a missing one starts empty; only the user's bucket can gain an entry |
| ClientSessions.Called | Client/controllers/sessionsManager.ts:41-57 | the ensured handler's log gains the call at its end; every other handler is unchanged |
| ClientSessions.Deleted | Client/controllers/sessionsManager.ts:65-77 | afterwards the session is gone; the user's other sessions and all other users stay; an absent session leaves the table as it was |
| ClientSessions.SessionManager.constructor | Client/controllers/sessionsManager.ts:5 | the table starts empty |
| ClientSessions.SessionManager.GetSession | Client/controllers/sessionsManager.ts:19-33 | the table becomes `Ensured` of the old one, an existing handler leaves it untouched, and no bucket is left empty |
| ClientSessions.SessionManager.UpdateSessionHistory | Client/controllers/sessionsManager.ts:41-45 | the ensured handler is given the new history |
| ClientSessions.SessionManager.AddFeedback | Client/controllers/sessionsManager.ts:53-57 | the ensured handler is given the feedback text and id |
| ClientSessions.SessionManager.ClearSession | Client/controllers/sessionsManager.ts:65-78 | an absent entry changes nothing; clearing only records the clear on the handler; deleting gives `Deleted` of the old table; no bucket is left empty |
| ClientSessions.SessionManager.UserSessions | Client/controllers/sessionsManager.ts:85-87 | the ids listed are exactly the sessions stored for the user, none for an unknown user |
| ClientSessions.EnsuredIdempotent | Client/controllers/sessionsManager.ts:19-33 | asking for a handler twice has the effect of asking once |
| ClientSessions.DeleteUndoesCreate | Client/controllers/sessionsManager.ts:19-77 | creating a new session and deleting it again gives back the table, dropping a user created for it |
| ClientSessions.ClearOnlyKeepsListing | Client/controllers/sessionsManager.ts:65-78 | clearing only keeps the session listed; deleting unlists it and no other session of the user |
| Retry.FirstOk | Client/controllers/historyHandler.ts:44-60 | the attempt found is the first one that succeeds among the first `n`; none found means every one of them failed |
| Retry.AttemptsMade | Client/controllers/historyHandler.ts:44-60 | at most `n` attempts are made; fewer means the last one succeeded, and every attempt before the last one failed |
| Retry.FirstOkStable | Client/controllers/historyHandler.ts:44-60 | allowing more attempts never changes which attempt was the first to succeed |
| HistoryHandler.SaveHistory | Client/controllers/historyHandler.ts:21-65 | the intended retry loop, with the request sent afresh on each attempt (see Findings): the result is the first readable reply's `answer`, "Could not save history" after three failures, or "History not saved" when nothing needs saving; one request is sent per attempt made |
| HistoryHandler.SaveHistoryAsWritten | Client/controllers/historyHandler.ts:21-65 | as written, the one `Request` is sent once: its body is used up, so each retry rejects before sending, and only the first attempt decides the result |
| HistoryHandler.ReusedRequestLosesRetry | Client/controllers/historyHandler.ts:40-60 | a network error then a good reply: as written the save reports "Could not save history", while the intended loop returns the second reply's answer after two requests |
| HistoryHandler.AsWrittenAgreesOnFirstOrNone | Client/controllers/historyHandler.ts:44-56 | the as-written and intended loops agree when the first attempt is readable or when no attempt is |
| HistoryHandler.NeedToSave | Client/controllers/historyHandler.ts:166-172 | saving is needed only when there is a history, and never for the user id "null" |
| HistoryHandler.SaveHistoryResult | Client/controllers/historyHandler.ts:29-64 | nothing to save gives "History not saved"; an answer comes from a readable reply within the three attempts; "Could not save history" only when none was readable |
| HistoryHandler.GetHistoryResult | Client/controllers/historyHandler.ts:88-107 | the result is "Unable to load history" or the `history` of a reply within the three attempts that had an `answer`; with no such reply it is the fixed text |
| HistoryHandler.PastConversationsResult | Client/controllers/historyHandler.ts:130-156 | the result is empty or the `sessionIds` of a reply within the three attempts that had them; with no such reply it is empty |
| HistoryHandler.GetHistory | Client/controllers/historyHandler.ts:74-108 | the result is the `history` of the first reply that has an `answer`, or "Unable to load history" after three failures; one request is sent per attempt |
| HistoryHandler.GetUsersPastConversations | Client/controllers/historyHandler.ts:115-157 | the result is the `sessionIds` array of the first reply that has one, or the empty list after three failures; one request is sent per attempt |
| HistoryHandler.NoSaveNoRequest | Client/controllers/historyHandler.ts:29-64 | no request is sent exactly when the history is missing or the user id is "null", and the result is then "History not saved" |
| HistoryHandler.ThreeFailuresGiveFallback | Client/controllers/historyHandler.ts:53-56 | when all three attempts fail, each helper gives its fixed fallback; the intended save loop then sends three requests |
| HistoryHandler.FirstReadableEndsLoop | Client/controllers/historyHandler.ts:136-137 | a first reply that can be read ends the loop after one request and is returned |
| HistoryHandler.MissingIdsIsFailure | Client/controllers/historyHandler.ts:136-147 | a readable answer without a `sessionIds` array counts as a failure: past conversations come back empty after three requests, while the history of the same answer is taken at once |
| FeedbackHandler.SubmitFeedback | Client/controllers/feedbackHandler.ts:25-69 | the call resolves at the first successful post, or else rejects with the third attempt's error; the same body, built from the feedback, its id, the question, the response and the timing, is posted once per attempt |
| FeedbackHandler.RejectsIffAllFail | Client/controllers/feedbackHandler.ts:49-63 | the call rejects exactly when all three posts fail, and then with the last attempt's error after three posts |
| FeedbackHandler.SubmissionResult | Client/controllers/feedbackHandler.ts:49-63 | the call resolves exactly when one of the three posts succeeds, and otherwise rejects with the third attempt's error |
| ChatBotController.ExpandTabs | later/ClientServer/controllers/chatBotClientSideController.ts:94 | no tab is left; text without tabs is unchanged; every character other than a tab or a space is present afterwards exactly when it was before |
| ChatBotController.Paragraphs | later/ClientServer/controllers/chatBotClientSideController.ts:96 | each line maps to its own paragraph, one for one and in order |
| ChatBotController.BoldOddPieces | later/ClientServer/controllers/chatBotClientSideController.ts:98-101 | every odd-numbered piece is wrapped in bold tags and every even-numbered piece is kept |
| ChatBotController.FormatAnswer | later/ClientServer/controllers/chatBotClientSideController.ts:88-104 | a non-text answer comes back unchanged; text goes through the tab, paragraph and bold passes in that order |
| ChatBotController.ConcatFromBold | later/ClientServer/controllers/chatBotClientSideController.ts:98-102 | joining the pieces the loop produced gives the bold pass's text |
| ChatBotController.ParagraphPassHasNoNewline | later/ClientServer/controllers/chatBotClientSideController.ts:96 | the paragraph pass leaves no line break |
| ChatBotController.PassesKeepCharOut | later/ClientServer/controllers/chatBotClientSideController.ts:96-102 | neither pass introduces a character that is in neither the text nor the tags |
| ChatBotController.FormattedHasNoTabOrNewline | later/ClientServer/controllers/chatBotClientSideController.ts:88-104 | a formatted text answer holds no tab and no line break |
| ChatBotController.BoldPassRemovesMarkers | later/ClientServer/controllers/chatBotClientSideController.ts:98-102 | after the bold pass no two stars are adjacent, so no "**" is left |
| ChatBotController.BoldPassWrapsPair | later/ClientServer/controllers/chatBotClientSideController.ts:98-102 | when its parts hold no star, `a**b**c` becomes `a<b>b</b>c` |
| ChatBotController.OrDefault | later/ClientServer/controllers/chatBotClientSideController.ts:24-29 | a null, undefined or empty id becomes "default-id", and a non-empty id is kept |
| ChatBotController.Ask | later/ClientServer/controllers/chatBotClientSideController.ts:14-51 | the server is asked with the sanitised question and the defaulted ids; a rejection gives the fixed error text and the request's thread id; incomplete data, meaning no data, an answer that is falsy in JavaScript (`null`, `false`, `0`, `""`) or no thread id, gives the no-response text; otherwise the reply is the formatted answer with the server's thread id |
| ChatBotController.HistoryReplyOf | later/ClientServer/controllers/chatBotClientSideController.ts:64-75 | the server's object is passed on unchanged exactly when it resolved with a truthy `text`; any other resolution gives the no-response text and a rejection the fixed error text |
| ChatBotController.AskReplyHasId | later/ClientServer/controllers/chatBotClientSideController.ts:30-49 | every reply of `ask` carries a non-empty id |
| ChatBotController.ExpandTabsAppend | later/ClientServer/controllers/chatBotClientSideController.ts:94 | tab expansion works piece by piece and turns a lone tab into four spaces, so every tab becomes four spaces |
| ChatBotController.AskReplyCases | later/ClientServer/controllers/chatBotClientSideController.ts:30-50 | a rejection gives the fixed error text, and incomplete data (no data, a falsy answer such as `null`, `false`, `0` or `""`, or no thread id) the no-response text, both with the request's thread id; otherwise the reply is the formatted answer with the server's thread id |
| ChatBotController.FalsyAnswersGetNoResponse | later/ClientServer/controllers/chatBotClientSideController.ts:32-41 | an answer that is falsy in JavaScript (`""`, `false` or `0`) gets the no-response text even with a thread id, while an empty array is truthy and is passed on |
| ChatBotController.Formatted | later/ClientServer/controllers/chatBotClientSideController.ts:88-104 | a text answer stays text and any other JSON value comes back unchanged |
| ChatBotController.AskCallOf | later/ClientServer/controllers/chatBotClientSideController.ts:17-30 | the server gets the sanitised question, and thread and user ids that are never empty, kept when the sanitised id is non-empty |
| ChatBotController.AskReplyOf | later/ClientServer/controllers/chatBotClientSideController.ts:30-50 | the reply's id is the request's thread id or the server's `thread_id`, and a non-text reply is the server's own answer passed through |
| ChatBotController.HistoryThreadId | later/ClientServer/controllers/chatBotClientSideController.ts:60-63 | the thread id asked for stays null unless the request gave a non-empty one, which is then sanitised |
| Utilities.Unexpected | later/Server/Utilities.py:9-11 | a string is unexpected exactly when it is "undefined", "" or "[]"; `None` always is; a list, dict or other object never is |
| Utilities.UnexpectedValues | later/Server/Utilities.py:9-11 | the five listed values are unexpected, and so are `False` and `0.0`, which equal `0`; "null", "[ ]", `1` and `True` are not |
| Utilities.SortByKey | later/Server/Utilities.py:13-15 | the sorted entries are the dictionary's entries, no more and no fewer |
| Utilities.SortByKeySorted | later/Server/Utilities.py:15 | with distinct keys, the entries come out in Python's string order on keys |
| Utilities.StringifyOrderIndependent | later/Server/Utilities.py:13-15 | the members come out sorted by key, and two dictionaries with the same entries give the same text, whatever order their keys were inserted in |
| Utilities.StringifyDict | later/Server/Utilities.py:13-15 | the text is a braced object, and the empty dictionary gives `{}` |
| Utilities.ConvertStringToDatetime | later/Server/Utilities.py:21-25 | as written, an input whose length differs from the format string's is refused with its length in the message; any other input is what the parser makes of it |
| Utilities.RenderedDateRefused | later/Server/Utilities.py:23-24 | the format string has 17 characters, so the 19-character date "2023-10-05 12:00:00" is refused before it is parsed |
| Utilities.ConvertStringToDatetimeCorrected | later/Server/Utilities.py:21-25 | with the guard set to the length of a rendered date, an input of that length goes to the parser and any other is refused |
| Utilities.CorrectedGuardPassesRenderedDates | later/Server/Utilities.py:23-25 | with the corrected guard a rendered date reaches the parser and gets the parser's result; any other length is refused, whatever the parser would say |
| ChatData.MissingKey | later/Server/ChatDataProvider.py:122-125 | no key is reported exactly when the document holds every key; a reported key is one of them and absent from the document |
| ChatData.Projected | later/Server/ChatDataProvider.py:122-125 | the record holds exactly the listed keys, each with the document's value |
| ChatData.FirstIncomplete | later/Server/ChatDataProvider.py:121-126 | the index found is the first document lacking a key; none found means every document is complete |
| ChatData.ProjectedAll | later/Server/ChatDataProvider.py:121-126 | one record per document, in order, each the document's projection |
| ChatData.ProjectEach | later/Server/ChatDataProvider.py:121-127 | the loop yields `Projection`: the projections in order, or the KeyError of the first incomplete document |
| ChatData.ProcessResults | later/Server/ChatDataProvider.py:117-127 | the search results are projected on "file" and "page" |
| ChatData.SliceFrom | later/Server/ChatDataProvider.py:135 | Python's `s[start:]`: a negative start counts from the end, and the start is clipped to the ends |
| ChatData.ProcessChatHistory | later/Server/ChatDataProvider.py:129-143 | an empty history gives no records; otherwise the kept documents are projected on "question" and "answer" |
| ChatData.VectorSearchPipeline | later/Server/ChatDataProvider.py:103-115 | two stages: a vector search on "vector_index" over "embedding" with the query vector and the configured limits, then a projection dropping "embeddings" |
| ChatData.ProjectionShape | later/Server/ChatDataProvider.py:117-143 | on success there is one record per document, and each holds exactly the listed keys with the document's values |
| ChatData.IncompleteDocumentFails | later/Server/ChatDataProvider.py:122-125 | a document lacking a key fails the whole call, with a listed key |
| ChatData.HistoryKeepsNewest | later/Server/ChatDataProvider.py:132-143 | with a positive limit the newest documents are kept in order, as many as the smaller of the count and the limit, and that many records result |
| ChatData.DroppedDocumentsNotRead | later/Server/ChatDataProvider.py:134-143 | older documents cut off by the limit are never read: they may lack fields without failing the call |
| ChatData.ZeroLimitKeepsAll | later/Server/ChatDataProvider.py:134-135 | a limit of 0 keeps every document, because `documents[-0:]` is the whole list |
| ChatData.Projection | later/Server/ChatDataProvider.py:121-127 | the loop yields records exactly when every document is complete, one per document; otherwise a KeyError naming a listed key |
| ChatData.KeptHistory | later/Server/ChatDataProvider.py:133-135 | the kept documents are the last `max` when there are more than a positive `max`, and all of them otherwise, `-0` included |
| ChatData.ChatHistoryOf | later/Server/ChatDataProvider.py:129-143 | an empty history gives no records; otherwise one record per kept document, or a KeyError naming "question" or "answer" |
| ChatDriver.Get | later/Server/ChatDriver.py:223-224 | a missing key reads as the empty string; a present key reads as its value |
| ChatDriver.ConvertChatHistoryToString | later/Server/ChatDriver.py:220-226 | the text is the entries' question-and-answer blocks in order |
| ChatDriver.EmptyAndSingle | later/Server/ChatDriver.py:220-226 | an empty history renders as the empty text, and one entry as exactly its block, with missing fields empty |
| ChatDriver.HistoryTextAppend | later/Server/ChatDriver.py:222-225 | rendering two histories one after the other gives the two texts joined |
| ChatDriver.HistoryTextLength | later/Server/ChatDriver.py:220-226 | the text's length is exactly 21 characters per entry plus the lengths of the questions and answers |
| ChatDriver.HistoryText | later/Server/ChatDriver.py:220-226 | the text is empty exactly when the history is, and has at least the 21-character frame of every entry |
| ChatDriver.BranchFor | later/Server/ChatDriver.py:112-117 | the no-context branch is chosen only when "doesn't" or "does not" occurs as a whole word |
| ChatDriver.SearchWord | later/Server/ChatDriver.py:112 | the match found is the leftmost whole-word occurrence from the start position; none found means there is none |
| ChatDriver.NoContextIffWholeWord | later/Server/ChatDriver.py:112-126 | the no-context branch is taken exactly when the classifier's reply holds "doesn't" or "does not" as whole words |
| ChatDriver.WholeWordExamples | later/Server/ChatDriver.py:112 | a reply starting "doesn't need it" takes the no-context branch; "xdoesn'ty", where the word is glued to letters, does not |
| ChatDriver.AskLlmReply | later/Server/ChatDriver.py:111-157 | when the chain answers, the reply is the answer's text alone |
| ChatDriver.FailureGivesBadResponse | later/Server/ChatDriver.py:136-144 | the fixed fallback comes back exactly when the chain raised or returned nothing, whatever the error was; an answer never carries the fallback's `files` key |
| Validations.ValidateCertification | later/Server/Validations.py:19-25 | valid exactly when the certification is among those stored; a message, naming the certification and the stored ones, comes exactly with an invalid verdict |
| Validations.ValidateVariable | later/Server/Validations.py:76-83 | the error is filed under the key itself; valid exactly when the lookup gave nothing or the value is allowed; the message names the value, the key and the valid values |
| Validations.NoCheckValidation | later/Server/Validations.py:62-63 | the keys never checked are exactly the three fixed ones and the configured special-processing keys |
| Validations.ValidateVariables | later/Server/Validations.py:60-74 | the loop's verdict is `ValidationOf` the arguments: failure with the rendered invalid map when some argument is invalid, success otherwise |
| Validations.InvalidVariables | later/Server/Validations.py:64-71 | the invalid map has at most one entry per argument, and never an entry for a key excluded from checking |
| Validations.ValidationOf | later/Server/Validations.py:72-74 | a verdict carries a message exactly when it fails, and no arguments give success |
| Validations.InvalidIff | later/Server/Validations.py:65-71 | an entry is filed exactly when a checked argument with a value gets variables from the lookup that do not allow it, with that argument's message |
| Validations.SkippedArgumentsNeverFail | later/Server/Validations.py:66-68 | arguments that are all skipped keys or `None` values file nothing |
| Validations.MissingLookupAcceptsAll | later/Server/Validations.py:79-80 | when the lookup gives nothing for every key, every call succeeds |
| Validations.ValidationFailsIffInvalid | later/Server/Validations.py:72-74 | the verdict fails, with the rendering of the invalid map, exactly when that map is not empty; success carries no message |
| Validations.CachedTextAcceptsFragments | later/Server/Validations.py:76-83 | against cached text, `in` is a substring test, so the fragment "Pat" of an allowed "Patrol" passes |
| DatabaseMaintainer.OfUser | later/Server/TimerJobs/DatabaseMaintainer.py:43 | the documents found are exactly the user's, and ids stay unique |
| DatabaseMaintainer.Without | later/Server/TimerJobs/DatabaseMaintainer.py:47 | the documents left are exactly those whose `_id` is not deleted, and ids stay unique |
| DatabaseMaintainer.SortNewestFirst | later/Server/TimerJobs/DatabaseMaintainer.py:44 | the sorted cursor holds the same documents |
| DatabaseMaintainer.SortIsNewestFirst | later/Server/TimerJobs/DatabaseMaintainer.py:44 | the sorted cursor has non-increasing timestamps |
| DatabaseMaintainer.Users | later/Server/TimerJobs/DatabaseMaintainer.py:41-42 | the users listed are exactly those owning some document, each listed once |
| DatabaseMaintainer.SurplusIds | later/Server/TimerJobs/DatabaseMaintainer.py:42-47 | an `_id` is deleted exactly when it belongs to one of the listed users' documents past the newest `max` |
| DatabaseMaintainer.Maintainer.constructor | later/Server/TimerJobs/DatabaseMaintainer.py:8-20 | the maintainer holds the connection state and the collection it is given |
| DatabaseMaintainer.Maintainer.DeleteOne | later/Server/TimerJobs/DatabaseMaintainer.py:47 | the document with that `_id`, if any, is removed, and nothing else changes |
| DatabaseMaintainer.Maintainer.DeleteEach | later/Server/TimerJobs/DatabaseMaintainer.py:46-47 | after the inner loop, every document sharing an `_id` with the cursor is gone, and nothing else changes |
| DatabaseMaintainer.Maintainer.CleanChatHistory | later/Server/TimerJobs/DatabaseMaintainer.py:33-47 | without a database nothing changes; with one the collection becomes `Cleaned` of the old collection, with ids still unique |
| DatabaseMaintainer.DeletedIffSurplus | later/Server/TimerJobs/DatabaseMaintainer.py:42-47 | a document is deleted exactly when it is past its own user's newest `max` |
| DatabaseMaintainer.KeptIsRetained | later/Server/TimerJobs/DatabaseMaintainer.py:43-47 | every document kept is among its user's newest `max` |
| DatabaseMaintainer.AtMostMaxPerUser | later/Server/TimerJobs/DatabaseMaintainer.py:34-35 | afterwards no user has more than `max` documents |
| DatabaseMaintainer.NewestRetained | later/Server/TimerJobs/DatabaseMaintainer.py:44-45 | every document kept is at least as new as every deleted document of the same user |
| DatabaseMaintainer.SmallHistoriesKept | later/Server/TimerJobs/DatabaseMaintainer.py:34-35 | a user with at most `max` documents keeps all of them |
| DatabaseMaintainer.CleanedKeepsNonSurplus | later/Server/TimerJobs/DatabaseMaintainer.py:42-47 | the job adds no document, and every document outside its user's surplus survives |
| DatabaseMaintainer.RankedMembers | later/Server/TimerJobs/DatabaseMaintainer.py:43-44 | the sorted cursor of a user holds as many documents as the user has, all of them the user's |
| DatabaseMaintainer.Surplus | later/Server/TimerJobs/DatabaseMaintainer.py:44-45 | the skipped-past documents are the user's own, as many as the user has beyond `max` |
| DatabaseMaintainer.Retained | later/Server/TimerJobs/DatabaseMaintainer.py:44-45 | at most `max` documents are retained, and they followed by the surplus make up the sorted cursor |
| DatabaseMaintainer.Cleaned | later/Server/TimerJobs/DatabaseMaintainer.py:33-47 | the job only removes documents, and ids stay unique |

## Left out

- Console output, alerts and UI rendering are left out. Where the code's control flow depends on them, each is recorded as an event.
- The network, the identity provider, the language model, MongoDB, the Redis-style cache and the clock are inputs. The model describes what the code does with each outcome, not how the outcome arises.
- `getSizeInBytes`, the `xss` filter, `JSON.stringify`/`JSON.parse`, `uuidv4`, SHA-256, `path.resolve`, `json.dumps`, Python's `str` of a list and `datetime.strptime` are function inputs. A SHA-256 digest comparison is modelled as a comparison of the texts. In the proxy routes, `getSizeInBytes(req)` (clientserver/Utilities/Utility.ts:19) and `JSON.stringify(req)` (clientserver/routes/api.ts:33-38) are applied to the whole Express request, which is a circular object, so as written both throw. The model takes the request's size and JSON text as given values instead.
- Concurrency and asynchrony are left out: promises, `setInterval` timers and the one-second pauses of the retry loops. Each sweep or retry is an explicit call or a loop step.
- ResolvePath.Resolve reads the alias prefix literally: regular-expression metacharacters in an alias are not modelled, and `path.resolve` returns its joined arguments.
- ClientSessions.SessionManager.UserSessions returns a set: the order of `Object.keys` is not modelled.
- Utilities.StringifyDict: the JSON quoting of keys and the rendering of values are inputs. Only key order and separators are modelled.
- ChatDriver.BranchFor: `\b` and `\w` are restricted to ASCII word characters. Python's Unicode word characters are not modelled.
- ChatDriver.AskLlmReply covers only how `ask_llm` ends once the classifier has replied. The rest is not modelled: building the context text, the vector search, the metrics, saving the turn, and the mutation of the shared `bad_response` dictionary.
- The `get_distinct_variables` query and its cache are an input (`lookup`). Their caching behaviour is not modelled.
- `DatabaseMaintainer`: MongoDB breaks timestamp ties in storage order, and the model assumes that order. The order in which documents are deleted is not modelled, only the collection that remains. The infinite `run` loop and its sleep are left out.
- The request handlers of `src/Handlers/Chat.ts`, `Feedback.ts`, `Settings.ts` and `History.ts`, and the server-side chatbot controller, are not part of this model. As written, each handler throws. `Chat.sendQuestion` reads `.data` of the `undefined` that `Communicator.sendChat` returns (src/Handlers/Chat.ts:25-26). The others call `getRequest` or `postRequest`, which `Communicator` does not define (its public methods are `sendFeedback`, `sendHistory` and `sendChat`).
- In the proxy routes, the values `cleanHeader` returns are inputs, and a `checkSession` call is recorded as an action; neither body is modelled. The session cache's `getRequest` and `postRequest` are abstract, and the model records each request issued. `Communicator` defines neither method, so as written each of these calls throws a `TypeError`; the model follows the evident intent.
- `User` initialisation is asynchronous. The part after the identity provider answers is `User.User.ResumeInitialize`.
- ChatBotController.ExpandTabs: its own ensures state that no tab is left and that other characters are kept. The full mapping is stated by `ChatBotController.ExpandTabsAppend`.
- SessionCache.SessionCache.InCache reads `activeSessions.has(id)` as a map lookup. In the code, `activeSessions` is a plain object cast to `Map`, so `.has` is not defined on it. The model follows the evident intent here, and a single map stands for the object.
- ChatHistory.GetChatHistory models the cursor guard and the request issued. As written, the request call `getRequest` is not defined on `Communicator`, so past the guard the call throws a `TypeError`; the model records the intended request. The value the call returns is not modelled: it reads `response.data` before the request's callback can have set `response`.
- Middleware.XssCheck: the middleware calls `next` even after answering 400, and this is modelled as written.
- `Communicator`: the `while` loop is modelled as written. Its body returns on the first pass, so no retry happens within one call.
- SignIn.HandleSignIn.SignIn requires that the registry has been created. Nothing in the code calls `SessionManager.getInstance`, so as written the static `sessions` map is undefined. `signIn` then sets the session and its id, and throws a `TypeError` at `SessionManager.addSession` (src/Handlers/HandleSignIn.ts:31) before `signedIn` is emitted. That throw is not modelled.
- SessionRegistry.SessionRegistry.GetSession, AddSession, RemoveSession, DeleteExpiredSessions and their as-written variants require that `getInstance` has run. Otherwise every static call reads the undefined `sessions` map and throws a `TypeError`, and so does each sweep that `ManageSessions` schedules. That throw is not modelled.
- SignIn.HandleSignIn.SignOut also requires the created registry, for the same reason as SignIn.HandleSignIn.SignIn.
- SessionRegistry.SessionRegistry.RemoveSession models the intended teardown (`Session.Session.Dispose`). As written, disposing a present session throws before its key is deleted (`SessionRegistry.SessionRegistry.RemoveSessionAsWritten`).
- SessionRegistry.SessionRegistry.DeleteExpiredSessions models the intended teardown. As written, the sweep throws at the first expired session and deletes nothing (`SessionRegistry.SessionRegistry.DeleteExpiredSessionsAsWritten`). The order of the disposals, which is the map's insertion order, is not modelled: any order of the expired sessions is allowed.
- SignIn.HandleSignIn.SignOut models the intended teardown. As written, the registry's removal of a live session throws, so the fields are not cleared and `signedOut` is not emitted.
- SignIn.SignInThenOut is stated over the intended teardown. As written, signing out throws, so the id is not removed from the registry.
- SignIn.SignInAfterSignOut is stated over the intended teardown. As written, signing out throws before the id is cleared.
- ChatBotAi.ChatBotView.GetActiveSession reads `manager.activeSessions.get` as a map lookup. In the code, `activeSessions` is a plain object cast to `Map` (src/Handlers/SessionManager.ts:7), so the `.get` at src/ChatBotAi.tsx:112 throws a `TypeError`. That throw is not modelled.
- ChatBotAi.ChatBotView.HandleChatSubmit goes through `getActiveSession` and inherits its map reading. As written, it throws the same `TypeError` there.
- ChatBotAi.ChatBotView.HandleCardClick goes through `getActiveSession` for a card it acts on, and inherits its map reading. As written, such a click throws before `setActiveCardId`.
- ChatBotAi.ChatBotView.CreateNewChat takes a fresh string id for the new session. The code at src/ChatBotAi.tsx:116 passes the manager object itself as the session id, and that id is not modelled.
- ChatBotController.TruthyValue: a JSON number is modelled as its exact decimal value. A nonzero literal that rounds to 0 as a double is not modelled.

## Findings

| source | as written | input that shows it | evidently intended | confidence | as-written member | corrected member |
|---|---|---|---|---|---|---|
| Client/controllers/historyHandler.ts:30-46 | `saveHistory` builds one `Request` with a body and passes it to `fetch` on every attempt; the first fetch uses up the body, so every retry rejects before anything is sent | the first attempt fails with a network error, and a second attempt would have been answered | a fresh request on each attempt, so the second attempt's answer is returned | not executed | HistoryHandler.SaveHistoryAsWritten | HistoryHandler.SaveHistory |
| src/Handlers/Session.ts:168-174 | the teardown calls `[Symbol.dispose]` on the chat handler and the communicator, and neither class defines it, so the call throws a `TypeError` | any session the constructor built | every present part disposed in turn | not executed | Session.Session.DisposeAsWritten | Session.Session.Dispose |
| src/ChatBotAi.tsx:152-156 | `setActiveCardId` moves the active card to the front of a local copy and then discards it; the list is never reordered | the cards `[a, b]` where only `b` names the id: the list stays `[a, b]` | the active card comes first: `[b, a]` | not executed | ChatBotAi.DroppedReorderMatters | ChatBotAi.ChatBotView.ActivateCard |
| clientserver/routes/api.ts:43-46 | after answering 400 for a missing question, the chat route falls through, forwards the request and tries to reply a second time (the settings route at lines 150-153 does the same) | a chat POST within the size limit, clean, with no `question` | answer 400 once and stop | not executed | ApiRoutes.MissingQuestionStillForwarded | ApiRoutes.CorrectedChatRepliesOnce |
| later/Server/Utilities.py:23-24 | the length guard compares the input with the length of the format string `%Y-%m-%d %H:%M:%S` (17 characters), not with the length of a date in that format (19 characters) | `"2023-10-05 12:00:00"` is refused before parsing | accept exactly the 19-character inputs and pass them to the parser | not executed | Utilities.RenderedDateRefused | Utilities.CorrectedGuardPassesRenderedDates |

The model follows the code for the date guard: `Utilities.ConvertStringToDatetime` compares with 17. The corrected definition is `Utilities.ConvertStringToDatetimeCorrected`.
