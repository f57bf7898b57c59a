# Verified model of the realtime gateway, its client and the dashboard's state machines

A Dafny model of the parts of the repository that carry state, interleaving or arithmetic, with proofs
about every run of them. `dafny verify dfyconfig.toml` checks everything.

## What is modelled

* **Ticket gateway** (`ActorContext`, `GatewayModel`, `GatewayInvariants`, `GatewayPublish`,
  `GatewayDelivery`, `GatewayFindings`, `GatewayFinality`, `GatewayReached`, `GatewayAnswers`, `Gateway`). Each incoming message starts a handler that nobody
  awaits. Handlers are cut at their awaits (the blocklist lookup, and the three ticket checks), so
  messages, closes, timeouts, publishes and the shutdown may fall in between. A run is a list of events;
  what the token verifier, the blocklist and the ticket authorization answer is carried by the events, so
  the log records every question and answer. `Gateway` has the same handlers as methods of a class over
  mutable maps, each proved equal to its step of the model and to keep the invariant of all runs.
* **Its browser client** (`WebSocketClient`, `Handshake`, `HandshakeReached`): sockets, refs, back-off and the `connected`
  flag, joined to the gateway by one FIFO channel each way.
* **Rate limiter** (`RateLimiter`, `RateLimiterClock`, `RateLimiterClients`): the pruned list per client against the complete log.
* **Schema rewriter** (`SchemaText`, `SchemaRewriter`, `SchemaProperties`, `SchemaTable`): the loop over lines against a
  description of models as sections.
* **Role routing** (`Roles`, `RoleNames`, `Proxy`, `ProxyTable`, `Guards`, `LayoutTable`, `Navigation`): the proxy, the two copies of the primary role,
  the six layouts, and navigation through both guards: a layout runs its guard when it is mounted and stays
  mounted while the pages shown are its own.
* **Service worker** (`ServiceWorker`, `ServiceWorkerOverlap`, `ServiceWorkerShell`, `ServiceWorkerTable`): lookups, fetches and puts in any order.
* **Session and refresh** (`SessionModel`, `SessionTable`, `Session`): the auth store, its stored copy, and calls that
  refresh it.
* **Line items** (`LineItems`, `LineAmounts`) and **Kanban boards** (`Kanban`, `CrmPage`, `DragTable`).

`GatewayAnswers`, `HandshakeReached`, `RateLimiterClients`, `LineAmounts`, `RoleNames` and the modules named
`...Table` say what single operations do in the program's own names, texts, paths and numbers. They fix from outside the
functions that the theorems about runs are stated with.

## What the proofs show

Where a natural claim is false of the code, the code is kept, a failing case is given and, where the claim can
be saved by a condition, the exact condition is proved:

* Rooms can hold sockets that are no longer clients: a subscribe or an authentication that resumes after
  the close joins again, and that can happen exactly while such a handler is suspended. Such members are never
  OPEN and nothing is sent to them.
* A connection can be in two `user:` rooms: two overlapping authentications both pass the check that no
  actor is set. For a registered connection it happens exactly when they name different users.
* An unsubscribe does not cancel a subscribe that is still being checked; it is final exactly when there is none.
* The comment of the gateway class names the `user:` and `ticket:` rooms; the code also joins `org:` and
  `super_admin`, and the model follows the code. Nothing is ever published to an `org:` room.
* The rate limit needs a clock that does not return: once it has been a minute past a reading it must not come
  back to within a minute of it. Smaller steps back break nothing, and any other clock breaks the bound.
* The schema rewriter drops the lines of a model that is not closed before the next one begins.
* With one role in token and store, one move leads home. With different roles, or when /auth/me refuses while
  an HttpOnly token survives `clearAuth`, a visitor still comes to rest, but for some pairs of roles at a page
  whose layout refuses them; `Navigation.Compatible` lists the pairs for which that cannot happen.
* The loading screen can stay up, also at a page that lets the visitor in: an effect that refuses a user from
  session storage leaves the flag set, and a redirect to a page under the same mounted layout does not run it
  again. With an admin's token and a sales agent's user that takes no more than loading /dashboard; with one
  role in token and store it happens on an admin page the proxy does not look at, one with a dot in its path.
* A slow put can replace a newer cached response by an older one.
* Signing out can be undone by the answer to a refresh, and is final exactly when no call can still bring one;
  a refused refresh discards the session that a concurrent one has just renewed.
* A failed move on the CRM board pins the snapshot: later data of the server is not shown at least until
  the next drag. With overlapping drags a refused first move stays on the board.

## Model

| member | source | states |
|---|---|---|
| `GatewayDelivery.DeliveriesAreAuthorized` | services/auth/src/gateway/ticket-events.gateway.ts:310-370 | The authorization boundary, in every interleaved run: whatever is broadcast through `ticket:t` goes to a socket whose actor passed all three ticket checks on t when it asked, with no unsubscribe from t, close or shutdown handled since; through `user:u` or `super_admin` only to a socket with a verified, unblocked token of that subject or such a role; through no other room at all |
| `GatewayDelivery.ReachableHistory` | services/auth/src/gateway/ticket-events.gateway.ts:239-370 | Every reachable state has a complete history: each actor, each room membership and each suspended handler traces back to the logged token, blocklist and ticket answers that earned it |
| `GatewayDelivery.HistoryStep` | services/auth/src/gateway/ticket-events.gateway.ts:189-436 | One event of any kind keeps that history |
| `GatewayDelivery.OnlyPublishDelivers` | services/auth/src/gateway/ticket-events.gateway.ts:438-454 | Only `publish` sends through rooms, and only to an OPEN registered socket in a concerned room |
| `GatewayDelivery.ConnChanges` | services/auth/src/gateway/ticket-events.gateway.ts:163-436 | How one event changes one connection: its actor only by a cleared authentication, its rooms only by joins, leaves and the end of the connection |
| `GatewayDelivery.PersonalRoomsExactStep` | services/auth/src/gateway/ticket-events.gateway.ts:294-300 | The `user:` and `super_admin` rooms of a registered connection are exactly those its completed authentications named |
| `GatewayInvariants.ReachableInv` | services/auth/src/gateway/ticket-events.gateway.ts:163-436 | In every reachable state, with handlers suspended, late or after shutdown: a registered client and the room index agree both ways, no room is empty, every OPEN socket is registered, a socket without an actor is in no room and an authenticated one has no live auth timer |
| `GatewayInvariants.StepKeeps` | services/auth/src/gateway/ticket-events.gateway.ts:106-436 | One event keeps all of that whatever the oracles answer, and never unsets an actor, reopens a socket or takes back what was sent |
| `GatewayInvariants.DisconnectKeeps` | services/auth/src/gateway/ticket-events.gateway.ts:400-412 | A disconnect keeps the invariant: the index loses that socket everywhere its own set says and drops rooms that become empty |
| `GatewayInvariants.LeaveIndex` | services/auth/src/gateway/ticket-events.gateway.ts:426-436 | Leaving takes exactly one pair out of the index and deletes a room that is then empty |
| `GatewayInvariants.BlocklistAnswerKeeps` | services/auth/src/gateway/ticket-events.gateway.ts:280-307 | Resuming an authentication keeps the invariant, also after a disconnect, a timeout or another authentication of that socket |
| `GatewayPublish.PublishIsExact` | services/auth/src/gateway/ticket-events.gateway.ts:120-161 | `publish` leaves the index as it is and puts on an OPEN socket exactly as many copies as the number of distinct concerned rooms it is in, none on any other, and none at all without a ticket id |
| `GatewayPublish.TargetRoomsAre` | services/auth/src/gateway/ticket-events.gateway.ts:137-158 | The rooms broadcast to are, each once, the ticket room, `super_admin` and one per distinct recipient id, however many fields repeat it |
| `GatewayPublish.RecipientsAre` | services/auth/src/gateway/ticket-events.gateway.ts:31-37 | A user is a recipient if and only if some recipient field holds that non-empty string |
| `GatewayPublish.RoomNames` | services/auth/src/gateway/ticket-events.gateway.ts:294-342 | The four families of room names never collide and each is injective |
| `GatewayAnswers.PublishedToTicket` | services/auth/src/gateway/ticket-events.gateway.ts:120-161 | For an event about ticket t, that is with the string t under `ticketId`, or under `id` if `ticketId` is no string: an OPEN socket gets exactly one copy through `ticket:t`, one through `super_admin` and one through `user:x` for each x under the five recipient fields, if it is in that room, and nothing through any other room |
| `GatewayAnswers.PublishedToNobody` | services/auth/src/gateway/ticket-events.gateway.ts:123-135 | An event without a ticket is sent to nobody; an empty `ticketId` counts as none, whatever `id` says |
| `GatewayFindings.TimeoutOnlyUnauthenticated` | services/auth/src/gateway/ticket-events.gateway.ts:163-171 | The 4001 timeout only fires for a socket that has no actor at that moment |
| `GatewayFindings.ConnectionsOnlyGrow` | services/auth/src/gateway/ticket-events.gateway.ts:288-300 | Over any continuation of a run an actor once set stays set, no socket reopens and nothing sent is unsent |
| `GatewayFindings.StaleMembersAreSilent` | services/auth/src/gateway/ticket-events.gateway.ts:438-454 | A room member that is not a registered client is never OPEN and nothing is sent to it |
| `GatewayFindings.StaleJoinExactly` | services/auth/src/gateway/ticket-events.gateway.ts:339-342 | "Rooms hold only registered clients" survives an event if and only if the event is not a handler of a forgotten connection resuming into a room that connection has not joined |
| `Gateway.TicketEventsGateway.Broadcast` | services/auth/src/gateway/ticket-events.gateway.ts:438-454 | The loop over the members sends once to each OPEN one and to nobody else |
| `GatewayFinality.ForgottenIsFinalExactly` | services/auth/src/gateway/ticket-events.gateway.ts:288-342 | In every reachable state with a connection that is no longer registered and in no room: it stays out of every room over every continuation, if and only if no suspended handler of it would join a room its own set lacks |
| `GatewayReached.StaleMemberReached` | services/auth/src/gateway/ticket-events.gateway.ts:335-342 | It does happen: a run from the start in which the socket closes during the last ticket check, the check succeeds, and the closed, forgotten socket is in the room |
| `GatewayFindings.OneUserRoomExactly` | services/auth/src/gateway/ticket-events.gateway.ts:244-294 | A completing authentication leaves its socket with one user room if and only if the user rooms in the socket's own set were already its user's; for a registered socket with one user room at most, if and only if it is the first or names the same user as the last |
| `GatewayReached.TwoUserRoomsReached` | services/auth/src/gateway/ticket-events.gateway.ts:244-294 | For any two users there is a run from the start in which two overlapping authentications of one socket leave it registered and in both users' rooms |
| `GatewayFinality.UnsubscribeIsFinalExactly` | services/auth/src/gateway/ticket-events.gateway.ts:335-393 | In every reachable state with a socket outside the room of t: it stays outside over every continuation without a new subscribe to t, if and only if none of its subscribes to t is still being checked |
| `GatewayFinality.OutsideGetsNothing` | services/auth/src/gateway/ticket-events.gateway.ts:438-454 | And nothing is sent through the room of t to a socket that is outside |
| `GatewayReached.UndoneUnsubscribeReached` | services/auth/src/gateway/ticket-events.gateway.ts:335-393 | A run from the start in which an unsubscribe takes the socket out of the room and a check that was under way puts it back |
| `ActorContext.FlagsAre` | services/auth/src/common/auth/actor.decorator.ts:29-81 | Exactly which role names, in any letter case, make a super admin, an admin, an agent and a client, and that the other fields are the claims or empty |
| `ActorContext.ClaimsAre` | services/auth/src/common/auth/actor.decorator.ts:48-53 | A name is claimed if and only if some role of the token is that name in some letter case |
| `Gateway.TicketEventsGateway.constructor` | services/auth/src/gateway/ticket-events.gateway.ts:75-84 | A new gateway is empty and valid; `Valid()` is the invariant of `ReachableInv`, which every handler below requires and ensures |
| `Gateway.TicketEventsGateway.HandleConnection` | services/auth/src/gateway/ticket-events.gateway.ts:163-187 | The new socket has no actor, a running timer and is in no room |
| `Gateway.TicketEventsGateway.JoinRoom` | services/auth/src/gateway/ticket-events.gateway.ts:414-424 | The room is in the socket's own set, and exactly this pair has come into the index unless the own set had the room already |
| `Gateway.TicketEventsGateway.LeaveRoom` | services/auth/src/gateway/ticket-events.gateway.ts:426-436 | The room is out of the own set, exactly this pair is out of the index, and a room that is now empty is forgotten |
| `Gateway.TicketEventsGateway.HandleMessage` | services/auth/src/gateway/ticket-events.gateway.ts:189-237 | Every branch up to the first await, with the exact answer or the handler left suspended; no message by itself puts anybody in a room |
| `Gateway.TicketEventsGateway.HandleAuth` | services/auth/src/gateway/ticket-events.gateway.ts:239-280 | The checks before the await; a lookup is only awaited for a socket without an actor, and nothing has changed by then |
| `Gateway.TicketEventsGateway.ResumeAuth` | services/auth/src/gateway/ticket-events.gateway.ts:280-307 | Cleared, the socket has the actor of its token and no live timer, and if it is registered it is in its user's room on both sides of the index |
| `Gateway.TicketEventsGateway.HandleSubscribe` | services/auth/src/gateway/ticket-events.gateway.ts:315-338 | The checks before the first await; the later checks use the actor of this moment, and no room has changed |
| `Gateway.TicketEventsGateway.ResumeSubscribe` | services/auth/src/gateway/ticket-events.gateway.ts:342-346 | A registered socket is in the ticket's room on both sides of the index |
| `Gateway.TicketEventsGateway.FailSubscribe` | services/auth/src/gateway/ticket-events.gateway.ts:347-369 | The three error answers, and no change of any room |
| `Gateway.TicketEventsGateway.HandleUnsubscribe` | services/auth/src/gateway/ticket-events.gateway.ts:372-398 | An authenticated socket is out of the ticket's room, and nobody has come into any |
| `Gateway.TicketEventsGateway.HandleDisconnect` | services/auth/src/gateway/ticket-events.gateway.ts:400-412 | The socket is not registered, and if it was, the loop over a copy of its room set has left no room that holds it |
| `Gateway.TicketEventsGateway.OnModuleDestroy` | services/auth/src/gateway/ticket-events.gateway.ts:106-112 | No socket is OPEN and both maps are empty, though connections keep their room sets |
| `Gateway.TicketEventsGateway.Publish` | services/auth/src/gateway/ticket-events.gateway.ts:120-161 | Each OPEN socket gets one copy for each concerned room it is in, every other socket none, and no room changes |
| `GatewayAnswers.PlainMessages` | services/auth/src/gateway/ticket-events.gateway.ts:189-237 | A socket that is not OPEN is not answered, a message over 65536 bytes closes it, and text that is not JSON, has no type or an unknown one gets exactly its error and changes nothing else |
| `GatewayAnswers.AuthAnswers` | services/auth/src/gateway/ticket-events.gateway.ts:239-280 | Already authenticated, no token, no secret and a bad token get their errors, in this order, and only a verified token goes to the blocklist, with its payload |
| `GatewayAnswers.SubscribeAnswers` | services/auth/src/gateway/ticket-events.gateway.ts:315-335 | Without an actor or a ticket id an error; else the ticket checks start for the actor of that moment |
| `GatewayAnswers.UnsubscribeAnswers` | services/auth/src/gateway/ticket-events.gateway.ts:372-398 | The socket is out of `ticket:t` in its own set and in the index, nobody else and no other room is touched, and it is told so |
| `GatewayAnswers.BlocklistAnswers` | services/auth/src/gateway/ticket-events.gateway.ts:280-307 | A failed lookup changes nothing, a blocked token gets its error, a cleared one the actor, `user:`, with an organization `org:`, as super admin `super_admin`, and `auth_ok` if the socket is OPEN |
| `GatewayAnswers.PersonalIndex` | services/auth/src/gateway/ticket-events.gateway.ts:294-300 | And exactly those rooms come into the index for that socket, each unless its own set had it |
| `GatewayAnswers.TicketAnswers` | services/auth/src/gateway/ticket-events.gateway.ts:339-369 | The three failures are told apart; success puts the socket in `ticket:t` and confirms it |
| `GatewayAnswers.TicketSteps` | services/auth/src/gateway/ticket-events.gateway.ts:335-346 | The three checks follow each other on the record and the access that the one before returned, for the actor of the subscribe |
| `GatewayAnswers.LifeOfConnection` | services/auth/src/gateway/ticket-events.gateway.ts:163-187 | A connection begins with no actor, no room and a running timer, which closes it if it fires; its close empties its rooms and cancels a timer still held |
| `WebSocketClient.WebSocketProvider.Dial` | apps/admin-dashboard/hooks/useWebSocket.tsx:145-157 | When it is due, `connect` makes exactly one new socket, and there is never a second live one |
| `WebSocketClient.WebSocketProvider.HandleFrame` | apps/admin-dashboard/hooks/useWebSocket.tsx:162-184 | `connected` is set by `auth_ok` alone |
| `WebSocketClient.WebSocketProvider.HandleClose` | apps/admin-dashboard/hooks/useWebSocket.tsx:191-206 | No socket is alive, and a reconnect is due, after the doubled delay, except for codes 1000 and 4001 |
| `WebSocketClient.BackoffGrows` | apps/admin-dashboard/hooks/useWebSocket.tsx:200-205 | The delay lies between 1 s and 30 s, never falls, and is 30 s exactly from the sixth attempt on |
| `WebSocketClient.BackoffValues` | apps/admin-dashboard/hooks/useWebSocket.tsx:200-205 | 1, 2, 4, 8, 16 and then always 30 seconds |
| `Handshake.ConnectedMeansAuthenticated` | apps/admin-dashboard/hooks/useWebSocket.tsx:145-207 | In every run of client, gateway and two FIFO channels within one login: while the client shows `connected` the gateway has an actor for the socket in its ref |
| `Handshake.SubscribeNeverRefused` | apps/admin-dashboard/hooks/useWebSocket.tsx:321-329 | A subscribe sent by `useTicketRoom` is never answered "Authentication required", although the gateway runs the handlers of one socket concurrently; on an OPEN socket its ticket check starts |
| `Handshake.PlayKeeps` | apps/admin-dashboard/hooks/useWebSocket.tsx:145-258 | The joint invariant after any moves: one live socket and it is the one in the ref, channels hold what was sent and not read, every subscribe under way has an authenticated socket |
| `HandshakeReached.AuthCarriesToken` | apps/admin-dashboard/hooks/useWebSocket.tsx:157-160 | In every play each authentication the client has sent carries the token of the login |
| `HandshakeReached.LoginConnects` | apps/admin-dashboard/hooks/useWebSocket.tsx:145-184 | For every non-empty token, payload and ticket there is a play after which the client is connected and the check of its subscribe is suspended for the actor of the payload: dial, accept, open, deliver, clear of exactly that token, receive, subscribe, deliver |
| `HandshakeReached.ChannelsAreQueues` | apps/admin-dashboard/hooks/useWebSocket.tsx:157-184 | Each side gets the oldest message of the other that it has not had |
| `HandshakeReached.ClientSends` | apps/admin-dashboard/hooks/useWebSocket.tsx:157-160 | Opening sends the authentication on that socket, subscribe, unsubscribe and ping go out on the current socket if it is open, and nothing else is sent |
| `RateLimiter.Limiter.Middleware` | services/ai-service/app/main.py:62-75 | A host is decided on by its own entry, requests without one share the entry "unknown": accepted if and only if fewer than 120 of its times are less than 60 s old, which are then kept with this one; no other entry changes |
| `RateLimiter.EveryWindowIsBounded` | services/ai-service/app/main.py:57-75 | With a clock that never goes back, for every client and every start T at most 120 requests with times in [T, T+60) are accepted, not only in windows that end at a request |
| `RateLimiter.DecisionCountsLog` | services/ai-service/app/main.py:66-74 | Each decision is the one made by counting, in the complete log of accepted requests, those less than 60 s old: the pruned list refines the log and rejected requests never count |
| `RateLimiter.StoreIsRecent` | services/ai-service/app/main.py:68-74 | What the store keeps of a client is the part of its complete log that can still matter |
| `RateLimiter.StoreStaysSmall` | services/ai-service/app/main.py:68-74 | The kept lists stay sorted and at most 120 long |
| `RateLimiter.NeverRejectedExactly` | services/ai-service/app/main.py:66-74 | A client is never rejected if and only if its whole sequence of requests never exceeds 120 in a window of 60 s |
| `RateLimiterClients.OthersDoNotCount` | services/ai-service/app/main.py:62-75 | On any clock every request is decided as if its client had been alone: nobody is refused for the requests of others |
| `RateLimiterClients.RecentAre` | services/ai-service/app/main.py:67-68 | Pruning keeps, in their order, exactly the times less than 60 s old |
| `RateLimiterClients.AcceptedAre` | services/ai-service/app/main.py:69-75 | The complete log of a client lists exactly its accepted requests, in their order |
| `RateLimiterClock.ClockIsSafeExactly` | services/ai-service/app/main.py:62-75 | Whatever the clients do, the bound holds on a clock if and only if the clock never comes back to less than 60 s from a reading after having been at least 60 s past it |
| `RateLimiterClock.WindowIsBounded` | services/ai-service/app/main.py:62-75 | The bound for every client whose own requests were read off such a clock, backward steps included |
| `RateLimiterClock.ReturnBreaksBound` | services/ai-service/app/main.py:62-75 | For every other clock: 120 requests at a, one at b at least 60 s later, and one at c less than 60 s from a, give 121 accepted in one window |
| `RateLimiterClock.SafeClocks` | services/ai-service/app/main.py:65-75 | A clock that never goes back is safe, and so is one that jumps about within one minute |
| `SchemaRewriter.RewriteFile` | scripts/add_indexes.js:58-114 | The script writes `Rewrite` of the text it read |
| `SchemaRewriter.RewriteLines` | scripts/add_indexes.js:96-112 | The parsing loop with its three variables writes what the grammar of sections says |
| `SchemaRewriter.InsertMissing` | scripts/add_indexes.js:64-94 | `processModel`: find, filter and splice give the specified insertion |
| `SchemaRewriter.FeedIsEmit` | scripts/add_indexes.js:96-112 | The line-by-line parser equals the section-by-section description, for every text |
| `SchemaText.SplitJoin` | scripts/add_indexes.js:58-114 | Joining lines with newlines and splitting again gives the lines back |
| `SchemaText.JoinSplit` | scripts/add_indexes.js:58-114 | Splitting a text and joining again gives the text back |
| `SchemaProperties.RewriteSettles` | scripts/add_indexes.js:58-114 | Running the script twice equals running it once, for every text, malformed ones included |
| `SchemaProperties.EmitSettles` | scripts/add_indexes.js:96-112 | The same on lines: the output is read back as the same closed models with nothing missing |
| `SchemaProperties.ProcessAgain` | scripts/add_indexes.js:64-94 | A processed model lacks nothing |
| `SchemaProperties.EmitIsClosed` | scripts/add_indexes.js:96-112 | Whatever the input, every model of the output has a name and is closed before the next begins |
| `SchemaProperties.OnlyInsertsExactly` | scripts/add_indexes.js:96-114 | The output is the input with some lines put in between if and only if every model of the input has a name and is closed before the next begins, and then the lines put in are the missing indexes |
| `SchemaProperties.UnclosedTextIsLost` | scripts/add_indexes.js:96-112 | A text that loses lines: of a model that is never closed nothing is written |
| `SchemaProperties.LeftAloneExactly` | scripts/add_indexes.js:89-114 | The text comes out unchanged if and only if all its models are closed and lack nothing |
| `SchemaProperties.SectionGetsTheMissing` | scripts/add_indexes.js:73-93 | The insertions of a model form one block before its first `@@schema` line or else before its closing brace; each wanted index ends with multiplicity max(original, 1) and every other line with its own |
| `SchemaTable.OtherModels` | scripts/add_indexes.js:64-94 | A model that is not listed gets `@@index([organizationId])` if one of its lines trims to one that begins with `organizationId ` and lacks it, put in before the first `@@schema` line or else the last line; without such a line it is left as it is |
| `SchemaTable.OrganizationModels` | scripts/add_indexes.js:7-56 | The 34 models listed for the organization index get exactly that, where they lack it |
| `SchemaTable.SpecialModels` | scripts/add_indexes.js:10-53 | Lead, Task, Invoice, Ticket, Employee, WorkflowRun and ApiRequestLog get exactly their listed indexes, in that order, where they lack them |
| `SchemaTable.UntouchedModels` | scripts/add_indexes.js:8-55 | The seven models listed for nothing stay as they are, with or without the column |
| `SchemaTable.EachIsThere` | scripts/add_indexes.js:78-91 | Each index a model gets is then there as often as before but at least once, and every other line as often as before |
| `SchemaTable.NameIsSecondWord` | scripts/add_indexes.js:97-99 | The name of a model is what stands between the first space and the next, or the end |
| `SchemaTable.EmitReads` | scripts/add_indexes.js:96-112 | A model reaches to its first line that begins with a brace; one that meets the next model first, or the end, is dropped |
| `Roles.PrimaryRolesAgree` | apps/admin-dashboard/lib/auth-store.ts:34-75 | The proxy's and the store's primary role agree on every list of role strings and are the one strongest role in the set of normalised names, so order and repetition do not matter |
| `RoleNames.NormaliseSays` | apps/admin-dashboard/proxy.ts:33 | A role string counts as a name if and only if it is that name in some letter case with white space around it |
| `RoleNames.PrimaryRoleIs` | apps/admin-dashboard/proxy.ts:32-43 | Which names make which role, strongest first, for every list of role strings |
| `RoleNames.PaddedAdmin` | apps/admin-dashboard/proxy.ts:33-35 | " ADMIN " is an admin, whatever the padding and the case |
| `Proxy.Handle` | apps/admin-dashboard/proxy.ts:79-225 | The branches of `proxy` decide as the table of who may see what says |
| `ProxyTable.HomeUntilExp` | apps/admin-dashboard/proxy.ts:27-30 | Whoever carries a token with an expiry, in the cookie or else in the header, stays at the home of their role if and only if the clock is before exp * 1000 ms, and is sent to /login with the way back from then on |
| `ProxyTable.HomeForever` | apps/admin-dashboard/proxy.ts:27-30 | Without an expiry, or with a zero one, they stay at any time |
| `ProxyTable.SessionEndsAtExp` | apps/admin-dashboard/proxy.ts:79-99 | The same for whom the request is from: until then the strongest role of the token, then nobody |
| `ProxyTable.RolePages` | apps/admin-dashboard/proxy.ts:141-216 | The pages where each of the eight roles stays, by their prefixes, and the home that each is sent to from all others |
| `ProxyTable.SignedOutPages` | apps/admin-dashboard/proxy.ts:111-145 | The prefixes that lead the signed-out to /login and back |
| `ProxyTable.Unseen` | apps/admin-dashboard/proxy.ts:227-231 | The requests that never reach the proxy |
| `Proxy.AtMostThreeRedirects` | apps/admin-dashboard/proxy.ts:79-225 | For every path, role list, cookies and header, token and nondecreasing clock a chain of redirects ends after at most three |
| `Proxy.RedirectsRunOut` | apps/admin-dashboard/proxy.ts:103-222 | Each redirect uses up one of the redirects left, whatever expired meanwhile |
| `Proxy.ThreeRedirectsHappen` | apps/admin-dashboard/proxy.ts:103-216 | Three is reached: logging out with a header token that expires on the way home |
| `Proxy.HomeIsReached` | apps/admin-dashboard/proxy.ts:45-66 | Each role may stay at its home, and anyone not signed in at the login page |
| `Proxy.SessionOnlyExpires` | apps/admin-dashboard/proxy.ts:27-30 | Time only takes a session away |
| `Guards.MountedLayout.RestoreSession` | apps/admin-dashboard/app/(admin)/layout.tsx:22-96 | `restoreSession` of each of the six layouts: the user from memory, storage or /auth/me, the store kept in step, the redirect of the guard table, and when the loading flag stays set |
| `Guards.MountedLayout.Navigate` | apps/admin-dashboard/app/(super-admin)/layout.tsx:33-75 | A layout that stays mounted runs its effect again only if it is the super-admin layout and the path changes; otherwise nothing changes, the loading flag included |
| `LayoutTable.AdminPages` | apps/admin-dashboard/app/(admin)/layout.tsx:48-93 | The pages of the admin layout that each role may see, by their prefixes, and where it is sent from the others |
| `LayoutTable.SuperAdminPages` | apps/admin-dashboard/app/(super-admin)/layout.tsx:33-75 | The super-admin layout refuses exactly the others, and exactly on paths that contain its name anywhere |
| `LayoutTable.GuardMoves` | apps/admin-dashboard/app/(admin)/layout.tsx:22-112 | A layout that is mounted anew: where it sends the visitor, and that its loading flag stays set exactly for a user from session storage who is refused |
| `LayoutTable.SameLayoutRests` | apps/admin-dashboard/app/(admin)/layout.tsx:22-112 | A page under the layout on the screen: its guard does not run and the loading flag stays as it is |
| `Navigation.AlwaysRests` | apps/admin-dashboard/app/(admin)/layout.tsx:22-98 | Proxy and layouts together move a visitor at most four times: from every page and screen, for every token that stays and every user the layouts find or fail to find |
| `Navigation.RankFalls` | apps/admin-dashboard/proxy.ts:103-222 | The measure: each move, by the proxy or by a guard that runs, uses up one of those left |
| `Navigation.RestIsNotRedirected` | apps/admin-dashboard/proxy.ts:103-222 | At the page of rest the proxy does not redirect |
| `Navigation.RestsLetInExactly` | apps/admin-dashboard/app/(admin)/layout.tsx:48-98 | With an unexpired token that survives, every fresh load comes to rest at a page whose layout lets the visitor in if and only if the layouts find a user whose role is compatible with the token's; whether that page or its loading screen is seen is left to `SeesExactly` |
| `Navigation.SeesExactly` | apps/admin-dashboard/app/(admin)/layout.tsx:48-112 | And every fresh load ends with a page the visitor is let into and sees, not the loading screen, if and only if moreover, should the user come from session storage, no page that the proxy opens and its layout refuses has the page the visitor is sent to under the same layout |
| `Navigation.FreshLoadEnds` | apps/admin-dashboard/app/(admin)/layout.tsx:48-112 | Where each fresh load ends, for every token and every visitor: at the first page if its layout lets the visitor in, else at the second, and when on the loading screen |
| `Navigation.LoadingStaysExactly` | apps/admin-dashboard/app/(admin)/layout.tsx:86-112 | For every token, user, path and start: a fresh load ends on the loading screen if and only if the user comes from session storage, the layout of the first page refuses them, and the second page is under that same layout |
| `Navigation.DashboardLoadsForever` | apps/admin-dashboard/app/(admin)/layout.tsx:86-112 | It does happen on plain pages: with an admin's token and a sales or support agent's user in session storage, loading /dashboard ends at that agent's home, which lets them in, on the loading screen |
| `Navigation.DottedPageLoadsForever` | apps/admin-dashboard/app/(admin)/layout.tsx:86-112 | And with one role in token and store: a sales agent who loads an admin page whose path has a dot ends at /crm on the loading screen |
| `Navigation.IncompatibleRests` | apps/admin-dashboard/app/(admin)/layout.tsx:86-98 | The failing page: a load of the home of the token's role rests at that home, whose layout refuses the visitor, on the loading screen if the user came from session storage |
| `Navigation.CompatibleIs` | apps/admin-dashboard/proxy.ts:150-216 | Compatible roles are those for which one of the two homes is open to both guards |
| `Navigation.OneMoveLeadsHome` | apps/admin-dashboard/app/(admin)/layout.tsx:48-93 | With the same role in token and store one move leads home, and there both guards let the visitor stay |
| `Navigation.AtMostThreeMoves` | apps/admin-dashboard/app/(admin)/layout.tsx:48-98 | With the same set of roles in every token carried and in the store, a visitor is moved at most three times, on every path, from every screen and with tokens that expire on the way |
| `Navigation.LoginStays` | apps/admin-dashboard/app/(client)/layout.tsx:35-53 | Once no token is left the login page is where a visitor stays |
| `ServiceWorker.CalmGetsNewest` | apps/agency-web/public/sw.js:60-80 | On the cache-first path, if all steps of a run are calm for a request, whoever asks after an answer was given gets exactly the newest |
| `ServiceWorkerOverlap.CalmIsExact` | apps/agency-web/public/sw.js:11-80 | And the calm steps are exactly the safe ones: where a request is up to date a step keeps it so over every calm continuation if and only if it is calm, that is, the request is not made again while busy, no install crosses its put or miss, and no put of a new answer fails |
| `ServiceWorkerOverlap.RefetchExactly` | apps/agency-web/public/sw.js:60-80 | At every reachable state of a calm run the request may be made again if and only if nothing is under way for it |
| `ServiceWorker.CachedWasGiven` | apps/agency-web/public/sw.js:11-81 | In every interleaving of lookups, fetches and puts a response handed out of the cache was given before by the network for that very request, with status 200 or ok at install, and no other version's cache is left |
| `ServiceWorker.OverlapServesOld` | apps/agency-web/public/sw.js:60-80 | Without that it fails: for any two answers a slow put of the older one replaces the newer, and the next visitor gets the older |
| `ServiceWorkerShell.Shell.HandleInstall` | apps/agency-web/public/sw.js:11-17 | All static assets are stored or none; `Valid()`, which every handler keeps, says that all that is cached was given by the network |
| `ServiceWorkerShell.Shell.HandleActivate` | apps/agency-web/public/sw.js:20-32 | After the loop no cache but the worker's own is left |
| `ServiceWorkerShell.Shell.LookedUp` | apps/agency-web/public/sw.js:54-70 | What a lookup hands to the page the network has given for that very request; then the refresh or the fetch begins |
| `ServiceWorkerShell.Shell.NetworkAnswered` | apps/agency-web/public/sw.js:45-52 | The page gets the answer unless it already has one; a 200 is to be put and any other answer ends the handler, and the cache is not touched yet |
| `ServiceWorkerShell.Shell.NetworkFailed` | apps/agency-web/public/sw.js:54-68 | Network-first falls back to the cache, a miss fails, a refresh is dropped, and the cache stays |
| `ServiceWorkerShell.Shell.PutDone` | apps/agency-web/public/sw.js:47-50 | A lookup now finds this response |
| `ServiceWorker.StepKeeps` | apps/agency-web/public/sw.js:11-81 | Each step keeps the cache, the pending puts and the handed responses traceable to the network |
| `ServiceWorkerTable.FetchStarts` | apps/agency-web/public/sw.js:35-60 | Requests other than GETs of the own origin are left to the browser; paths that begin with /api, /blog or /portfolio go to the network first, all others to the cache |
| `ServiceWorkerTable.LookupEnds` | apps/agency-web/public/sw.js:60-80 | What is in the cache is handed out and asked for again; what is not is asked for |
| `ServiceWorkerTable.AnswerArrives` | apps/agency-web/public/sw.js:45-80 | The page gets the answer unless it has one; a 200 and no other will be put |
| `ServiceWorkerTable.InstallStores` | apps/agency-web/public/sw.js:1-17 | The five assets are stored, over what was there, if each came with an ok status other than 206, and else none |
| `SessionModel.SentAtMostTwice` | apps/admin-dashboard/lib/api-client.ts:30-104 | For any number of concurrent calls and any interleaving of 401s and refreshes each call is sent at most twice and starts at most one refresh, and login, refresh and me never do |
| `SessionModel.UserIsLastWord` | apps/admin-dashboard/lib/auth-store.ts:128-203 | In every run the stored user is that of the last event that set or cleared one, memory agrees as soon as the page has looked, and `isAuthenticated` holds exactly when there is a user |
| `SessionModel.ReloadRestoresUser` | apps/admin-dashboard/lib/auth-store.ts:180-199 | Reload and hydration bring the same user back if and only if there was a user or none is stored; once the page has looked, always |
| `SessionModel.ReloadRestoresToken` | apps/admin-dashboard/lib/auth-store.ts:159-199 | And a non-empty token with it |
| `SessionModel.SignedOutUntilGiven` | apps/admin-dashboard/lib/auth-store.ts:139-158 | After signing out nobody is signed in until a sign-in or the answer to a refresh brings a user |
| `SessionModel.SignOutIsFinalExactly` | apps/admin-dashboard/lib/api-client.ts:36-71 | In every signed-out state: nobody is signed in over every continuation without a sign-in or a new call, if and only if no call waits for a refresh or for a first answer that could start one |
| `SessionModel.LateRefreshSignsIn` | apps/admin-dashboard/lib/api-client.ts:62-68 | Signing out is not final: a refresh that was under way signs the user in again |
| `SessionModel.LaterAnswerDecides` | apps/admin-dashboard/lib/api-client.ts:62-101 | Of two refreshes, one granted and one refused, the later answer decides, so a refusal discards a session just renewed |
| `SessionModel.RetryHeader` | apps/admin-dashboard/lib/api-client.ts:15-27 | A retried call carries the refreshed token if there is one; otherwise it repeats the header it was first sent with |
| `SessionTable.AnswerArrives` | apps/admin-dashboard/lib/api-client.ts:30-60 | The first 401 of a call starts a refresh unless its address contains auth/login, auth/refresh or auth/me; 200 to 299 ends it well and everything else badly; no other call and nothing stored changes |
| `SessionTable.CallGoesOut` | apps/admin-dashboard/lib/api-client.ts:15-27 | A header that is there is kept, else the token in memory, else the stored one, and empty ones count as none |
| `SessionTable.RefreshGranted` | apps/admin-dashboard/lib/api-client.ts:62-71 | The token and the user are set in memory, session storage and cookie, and the call goes out again with the token |
| `SessionTable.TokenTakenUp` | apps/admin-dashboard/lib/auth-store.ts:180-199 | The stored token first, then the cookie |
| `Session.AuthStore.SetUser` | apps/admin-dashboard/lib/auth-store.ts:133-138 | Reloading and hydrating would bring back this user; tokens stay. `Valid()`: authenticated means that there is a user, and that user is the stored one |
| `Session.AuthStore.ClearAuth` | apps/admin-dashboard/lib/auth-store.ts:139-158 | Reloading and hydrating would bring back neither user nor token |
| `Session.AuthStore.SetAuth` | apps/admin-dashboard/lib/auth-store.ts:159-179 | Reloading and hydrating would bring back this user, and the token unless it is empty |
| `Session.AuthStore.HydrateFromStorage` | apps/admin-dashboard/lib/auth-store.ts:180-199 | In memory is now the stored user, the one a reload would bring back |
| `Session.ApiClient.Intercept` | apps/admin-dashboard/lib/api-client.ts:15-27 | A header that is there is kept; otherwise the token in memory is added, else the stored one, else none |
| `Session.ApiClient.HandleResponse` | apps/admin-dashboard/lib/api-client.ts:30-60 | A refresh is only started for a call sent once that has started none; `Valid()` keeps every call at two sendings and one refresh |
| `Session.ApiClient.HandleRefreshed` | apps/admin-dashboard/lib/api-client.ts:62-101 | Answered, the call is sent for the second time and a user in the answer is the one a reload would bring back; refused, nobody is and the page is left |
| `LineItems.EditsNearTotal` | apps/admin-dashboard/components/shared/LineItemsEditor.tsx:33-53 | After any sequence of add, update and remove on a consistent list the n stored amounts sum to the displayed total within 0.005·n |
| `LineItems.EditsKeep` | apps/admin-dashboard/components/shared/LineItemsEditor.tsx:33-46 | And every stored amount equals `computeAmount` of its line |
| `LineItems.AmountsNearTotal` | apps/admin-dashboard/components/shared/LineItemsEditor.tsx:48-53 | The bound for any consistent list |
| `LineItems.BoundIsReached` | apps/admin-dashboard/components/shared/LineItemsEditor.tsx:28-53 | For every n some list of n lines reaches it, so no smaller bound holds |
| `LineItems.RoundsToNearest` | apps/admin-dashboard/components/shared/LineItemsEditor.tsx:28-31 | Below 10^21 the stored amount is the nearest number of cents, ties away from zero, as section 21.1.3.3 of ECMA-262 has it |
| `LineItems.NearestIsUnique` | apps/admin-dashboard/components/shared/LineItemsEditor.tsx:28-31 | Only one number is |
| `LineItems.TotalAfter` | apps/admin-dashboard/components/shared/LineItemsEditor.tsx:34-53 | An update moves the total by what the line gains, a removal by its worth, a new line by nothing |
| `LineAmounts.AmountIs` | apps/admin-dashboard/components/shared/LineItemsEditor.tsx:28-31 | The stored amount is the whole number of cents nearest to quantity * price * (100 + tax) / 100, a half going away from zero, below 10^21 |
| `LineAmounts.TotalsAre` | apps/admin-dashboard/components/shared/LineItemsEditor.tsx:48-53 | Each line adds its price to the subtotal, its tax to the tax and both to the total |
| `LineAmounts.UpdateIs` | apps/admin-dashboard/components/shared/LineItemsEditor.tsx:34-42 | An update replaces the given fields of its line and computes its amount anew; the other lines stay |
| `LineAmounts.AddAndRemove` | apps/admin-dashboard/components/shared/LineItemsEditor.tsx:44-46 | Adding appends the empty line with one unit and 18 percent; removing takes out that line alone |
| `Kanban.Group` | apps/admin-dashboard/components/shared/KanbanBoard.tsx:98-107 | The push loops give every column its items and nothing to unknown columns |
| `Kanban.ColumnIsStable` | apps/admin-dashboard/components/shared/KanbanBoard.tsx:101-105 | A column lists exactly its items, in input order |
| `Kanban.ColumnsPartition` | apps/admin-dashboard/app/(admin)/crm/page.tsx:158-165 | The columns together hold exactly the items with a known column, each as often as the input does |
| `Kanban.MoveChangesTwoColumns` | apps/admin-dashboard/app/(admin)/crm/page.tsx:192-194 | With distinct ids a move takes one card out of its column, puts it into the target, keeps the order of all others and touches no third column |
| `Kanban.CardStandsForColumn` | apps/admin-dashboard/components/shared/KanbanBoard.tsx:120-122 | Dropping onto a card is dropping onto its column |
| `Kanban.KanbanBoard.HandleDragEnd` | apps/admin-dashboard/components/shared/KanbanBoard.tsx:113-130 | `onMoveItem` is called exactly for a drag that ends in another column |
| `DragTable.DropOnColumn` | apps/admin-dashboard/components/shared/KanbanBoard.tsx:120-129 | Dropped on a column the first card of that id moves there, unless it is there |
| `DragTable.DropOnCard` | apps/admin-dashboard/components/shared/KanbanBoard.tsx:120-129 | Dropped on a card it moves to that card's column, unless there is none or it is its own |
| `DragTable.DropNowhere` | apps/admin-dashboard/components/shared/KanbanBoard.tsx:115-127 | Dropped outside, on something unknown, or gone meanwhile it does not move |
| `DragTable.DragToStage` | apps/admin-dashboard/app/(admin)/crm/page.tsx:176-196 | On the page: the lead is shown in its new stage at once, everything else as before, and the snapshot is the list shown before |
| `CrmPage.Board.HandleDragEnd` | apps/admin-dashboard/app/(admin)/crm/page.tsx:176-211 | The branches of the drag, the snapshot, the optimistic list and the mutation that is sent |
| `CrmPage.DragChangesTwoColumns` | apps/admin-dashboard/app/(admin)/crm/page.tsx:176-213 | On the page: two columns change by one lead each and the pipeline value stays |
| `CrmPage.PipelineTotalIsSent` | apps/admin-dashboard/app/(admin)/crm/page.tsx:152-213 | In every run the board shows, up to stages, a list the server sent, so the value shown is that list's |
| `CrmPage.RefusalLeadsBack` | apps/admin-dashboard/app/(admin)/crm/page.tsx:191-207 | However drags and new data follow each other, a refusal leads back to the board of just before the last move |
| `CrmPage.RollsBackExactly` | apps/admin-dashboard/app/(admin)/crm/page.tsx:191-207 | In a run without overlaps, a further move can be rolled back to the board of before if and only if no mutation is under way when it begins |
| `CrmPage.OverlapKeepsFirstMove` | apps/admin-dashboard/app/(admin)/crm/page.tsx:191-207 | With two overlapping drags a refused second move leaves the first on the board, refused or not |
| `CrmPage.FailedMoveRestores` | apps/admin-dashboard/app/(admin)/crm/page.tsx:191-207 | With no other drag in between a refused move restores exactly the earlier board, which then stays, whatever the server sends, until the next drag |

The six layouts that `Guards.MountedLayout` covers are, besides the ones in its rows,
`app/(client)/layout.tsx:29-66`, `app/(agent)/layout.tsx:29-67`, `app/(employee)/layout.tsx:28-66` and
`app/hr/layout.tsx:28-65` of `apps/admin-dashboard`.

## Left out

- Token signatures, the Redis blocklist and the ticket authorization service: oracles whose answers are arbitrary. Their sources are not part of this model.
- The HTTP upgrade, logging, and `ws.send` throwing: sends are taken to succeed on an OPEN socket.
- Gateway.TicketEventsGateway: each ClientState is a value in a map under its socket, not an object of its own, so aliasing of a ClientState is not captured; a connection has one ClientState for life.
- Handshake.ConnectedMeansAuthenticated: holds within one login, that is while the token stays the same; after a token change the late `onclose` of the old socket clears the ref of the new one.
- Handshake.SubscribeNeverRefused: `useTicketRoom` is taken to see `connected` as it is; React's delay between a state change and the effects that read it is not modelled.
- `apps/admin-dashboard/lib/websocket.ts`: a second client that reports connected before authentication; the handshake is not meant for it.
- SchemaProperties.RewriteSettles: model names that are properties of `Object.prototype` are not in the table of listed models here, while the script's lookup would find them; the same goes for Kanban columns of such names.
- Lower-casing beyond the characters whose lower case is ASCII: no role constant has others.
- Proxy.Handle: tokens are decoded by an arbitrary function; cookies are their values, and two cookies of one name are not told apart.
- Navigation.AlwaysRests: the token stays the same along the way, also past /logout; pages that navigate by themselves (the login form, the root page, and /hr, which goes on to /hr/dashboard) and pages whose own API calls end in a full load of /login are not modelled. Layouts are taken to stay mounted across navigations within their folder, and redirected navigations to mount nothing in between, as Next.js documents for its app router.
- ServiceWorker.CachedWasGiven: requests are their address; `Vary` headers, opaque responses and eviction of the whole cache by the browser are not modelled, and requests are served only after activation has finished.
- SessionModel.UserIsLastWord: storage and visible cookies are changed by the store alone; the HttpOnly cookies of the server, and other tabs, are not modelled.
- SessionModel.SentAtMostTwice: axios is taken to keep `_retry` on the request's configuration.
- LineItems.EditsNearTotal: exact arithmetic; the rounding of binary floating point and inputs that are not numbers are not modelled.
- CrmPage.FailedMoveRestores: a drag is handled after the board of the last event has been rendered; of several mutations under way only the latest has its callbacks run, as TanStack Query documents for `mutate`.
- React rendering, styling, charts, marketing pages, the query hooks, seeds, load tests and `scripts/fix_indexes.js`: no state or no clear intended meaning to prove.
