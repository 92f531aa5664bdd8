# Customer/agent chat matching: a verified model

This project models the core of a customer-support chat backend. It covers the
service that pairs customers with agents and the registry of live chat sessions.

- **Waiting pools.** The service keeps two FIFO pools: `waitingCustomers` and
  `availableAgents`. A match request polls the head of the other role's pool.
  If that yields someone, the two are paired in a new `ChatSession`; otherwise
  the requester joins the tail of its own pool.
- **Registry.** Live sessions are stored by id in `activeSessions`.
  `userToSession` maps each participant to their session id.
  Both maps are updated together when a session is created and when it ends.
- **Auto-rematch.** When the agent of a session ends it, that agent is matched
  again at once.
- **Messages.** A message sent to a live session is appended to its message
  list. A message for an unknown session is dropped.

Files:

- `ChatSession.dfy` (module `ChatSessions`): the session object.
  - It is a class whose id, customer, agent and start time are fixed at
    construction, with a mutable message list.
  - `SessionRecord` is the value such an object holds at one moment.
  - `ChatMessage` stands for the message DTO.
- `MatchModel.dfy` (module `MatchModel`): the service's state as a value.
  - `State` holds the two pools, the two maps and a log of the match
    notifications sent.
  - There is one function per operation of the service.
  - It also defines the invariants: `PoolsExclusive` and `Consistent`, the
    latter made of `RegistryConsistent`, `PoolsDisjointFromIndex` and
    duplicate-free pools.
- `MatchService.dfy` (module `MatchServices`): the service as a class.
  - The fields are the two pools as `seq<int>`, `activeSessions` as a map to
    `ChatSession` objects, and `userToSession`.
  - A ghost notification log records the match notifications.
  - Each method is proved to change `Abstract()` exactly as the matching
    `MatchModel` function does.
  - `AddMessageToSession` updates the stored session object in place.
    `Valid()` (every session is stored under its own id) is what proves that
    no other session changes.
- `MatchProperties.dfy` (module `MatchProperties`): the lemmas. They cover
  FIFO pairing, the two waiting cases and session creation. They also cover
  message append, ending a session, re-matching, idempotent termination, the
  pools never both being non-empty, and the registry invariant. Last come runs
  of requests.

Modelling choices:

- The clock is an input. Each session creation receives a
  `ClockReading(millis, now)`.
  - The session id is `millis % 1000000`, as in the source.
  - `now` is the stored start time.
- Session ids are not checked for uniqueness, as in the source. A second
  session created in the same millisecond replaces the first in
  `activeSessions` (lemma `SameMillisecondOverwrites`). The invariant lemmas
  therefore take a fresh id as a precondition.
- The source performs no existing-session or already-waiting check.
  - A participant who asks twice can be queued twice, or be in a session and a
    pool at once (lemma `DuplicateRequestDoubleBooks`).
  - So the whole-state invariant `Consistent` is proved to survive a request
    only when the requester is `Idle`.
  - It is proved to survive every `EndSession` whose re-match uses a fresh id,
    and every message append.
- No role is rejected. Every role other than CUSTOMER takes the agent branch.
  `RequestMatch` dispatches on `role == Customer`.
- The reverse index mirrors the live sessions exactly only when requesters are
  idle and session ids are fresh. The model proves the mirror under those two
  conditions. The lemmas `DuplicateRequestDoubleBooks` and
  `SameMillisecondOverwrites` show it failing without them.

## Model

| member | source | states |
|---|---|---|
| `ChatSessions.ChatSession.constructor` | src/main/java/com/app/dto/ChatSession.java:21-27 | stores session id, customer id, agent id and start time exactly as given; the message list starts empty |
| `MatchModel.NewSessionId` | src/main/java/com/app/service/MatchService.java:72 | a session id lies in 0..999999 and agrees with the clock's milliseconds modulo 1000000 |
| `MatchServices.MatchService.constructor` | src/main/java/com/app/service/MatchService.java:21-24 | a new service has both pools empty, no sessions, an empty index and no notifications |
| `MatchServices.MatchService.RequestMatch` | src/main/java/com/app/service/MatchService.java:26-43 | a CUSTOMER request runs the customer match, any other role the agent match; state and response follow `MatchModel.RequestMatch` |
| `MatchServices.MatchService.MatchCustomer` | src/main/java/com/app/service/MatchService.java:45-56 | polls the agent pool, pairs or enqueues the customer, and returns the response, all as `MatchModel.MatchCustomer` |
| `MatchServices.MatchService.MatchAgent` | src/main/java/com/app/service/MatchService.java:58-69 | polls the customer pool, pairs or enqueues the agent, and returns the response naming the customer, all as `MatchModel.MatchAgent` |
| `MatchServices.MatchService.CreateSession` | src/main/java/com/app/service/MatchService.java:71-81 | stores a fresh session object under the clock-derived id, indexes both participants to it and returns that id |
| `MatchServices.MatchService.NotifyMatchSuccess` | src/main/java/com/app/service/MatchService.java:83-97 | records one notification to the customer naming the agent and one to the agent naming the customer |
| `MatchServices.MatchService.AddMessageToSession` | src/main/java/com/app/service/MatchService.java:99-105 | appends the message to the stored session object in place; no other session or field changes; an unknown id changes nothing |
| `MatchServices.MatchService.EndSession` | src/main/java/com/app/service/MatchService.java:107-117 | removes the session and both participants' index entries, then re-matches the ending user if they were its agent |
| `MatchServices.MatchService.AutoRematchAgent` | src/main/java/com/app/service/MatchService.java:119-127 | pairs the freed agent with the head customer, or appends the agent to the agent pool |
| `MatchProperties.CreateSessionStoresPairing` | src/main/java/com/app/service/MatchService.java:71-81 | the new session holds exactly the given customer and agent with no messages; both are indexed to its id; other ids and the pools are unchanged |
| `MatchProperties.PairNotifiesBoth` | src/main/java/com/app/service/MatchService.java:83-91 | a pairing notifies the customer with the agent as partner and the agent with the customer as partner, under the new session id |
| `MatchProperties.CustomerTakesHeadAgent` | src/main/java/com/app/service/MatchService.java:45-51 | with agents waiting: exactly the head agent leaves, one session pairs it with the customer, the response is MATCHED with the new id, the customer pool is unchanged, the index gains exactly the two new entries and the log exactly the two crossed notifications |
| `MatchProperties.CustomerWaitsWithoutAgent` | src/main/java/com/app/service/MatchService.java:52-55 | with no agent waiting: the customer joins the tail of the customer pool, the response is WAITING with id 0, nothing else changes |
| `MatchProperties.AgentTakesHeadCustomer` | src/main/java/com/app/service/MatchService.java:58-64 | with customers waiting: exactly the head customer leaves and is paired with the agent and reported as the matched user; the agent pool is unchanged; the index gains exactly the two new entries and the log exactly the two crossed notifications |
| `MatchProperties.AgentWaitsWithoutCustomer` | src/main/java/com/app/service/MatchService.java:65-68 | with no customer waiting: the agent joins the tail of the agent pool, the response is WAITING with id 0, nothing else changes |
| `MatchProperties.RequestShiftsBacklog` | src/main/java/com/app/service/MatchService.java:45-69 | a request is MATCHED exactly when the other pool is non-empty, and it moves (waiting customers minus waiting agents) by one towards its own role |
| `MatchProperties.AutoRematchIsAgentRequest` | src/main/java/com/app/service/MatchService.java:119-127 | the re-match of a freed agent has the same effect as that agent's match request |
| `MatchProperties.PoolsStayExclusive` | src/main/java/com/app/service/MatchService.java:45-127 | customer match, agent match, re-match, ending a session and message append all keep at least one pool empty |
| `MatchProperties.MessageAppendedToLiveSession` | src/main/java/com/app/service/MatchService.java:99-105 | a message for a live session is appended at the end of its list; earlier messages, other sessions, pools and index are unchanged |
| `MatchProperties.MessageToUnknownSessionDropped` | src/main/java/com/app/service/MatchService.java:99-105 | a message for an absent session leaves the whole state unchanged |
| `MatchProperties.MessagesOnlyGrow` | src/main/java/com/app/dto/ChatSession.java:19 | a session's message list after an append has the old list as a prefix and at most one more element |
| `MatchProperties.CustomerEndRemovesWithoutRematch` | src/main/java/com/app/service/MatchService.java:107-117 | when the customer ends it, the session is removed, both participants leave the index, and the pools and notifications are unchanged |
| `MatchProperties.AgentEndRematchesHeadCustomer` | src/main/java/com/app/service/MatchService.java:113-127 | when the agent ends it with customers waiting, the head customer leaves the pool and is paired with that agent in a new session, both notified; the index loses the ended session's two entries, gains the two new ones and keeps all others |
| `MatchProperties.AgentEndRequeuesAgent` | src/main/java/com/app/service/MatchService.java:119-127 | when the agent ends it with no customer waiting, the session and its index entries are removed and the agent joins the tail of the agent pool |
| `MatchProperties.EndUnknownSessionIsNoOp` | src/main/java/com/app/service/MatchService.java:107-109 | ending an absent session changes nothing |
| `MatchProperties.EndSessionIdempotent` | src/main/java/com/app/service/MatchService.java:107-117 | ending the same session a second time changes nothing, unless the first call's re-match reused that id |
| `MatchProperties.PairKeepsRegistry` | src/main/java/com/app/service/MatchService.java:71-81 | pairing two unindexed participants under an unused id keeps session map and index in step and adds exactly those two to the index |
| `MatchProperties.RemoveKeepsRegistry` | src/main/java/com/app/service/MatchService.java:108-111 | removing a live session keeps session map and index in step and drops exactly its two participants from the index |
| `MatchProperties.MatchCustomerKeepsConsistent` | src/main/java/com/app/service/MatchService.java:45-56 | an idle customer's request under an unused id preserves the whole-state invariant |
| `MatchProperties.MatchAgentKeepsConsistent` | src/main/java/com/app/service/MatchService.java:58-69 | an idle agent's request under an unused id preserves the whole-state invariant |
| `MatchProperties.RequestMatchKeepsConsistent` | src/main/java/com/app/service/MatchService.java:26-69 | any request by an idle participant under an unused id preserves the whole-state invariant |
| `MatchProperties.EndSessionKeepsConsistent` | src/main/java/com/app/service/MatchService.java:107-127 | ending a session, with its re-match, preserves the whole-state invariant when the re-match id is not another live session's |
| `MatchProperties.AddMessageKeepsConsistent` | src/main/java/com/app/service/MatchService.java:99-105 | appending a message preserves the whole-state invariant |
| `MatchProperties.ParticipantIsNotWaiting` | src/main/java/com/app/service/MatchService.java:21-24 | in a consistent state a participant of a live session is indexed to it and is in neither pool |
| `MatchProperties.DuplicateRequestDoubleBooks` | src/main/java/com/app/service/MatchService.java:45-69 | a customer asking twice is queued twice and then sits both in a session and in the customer pool, so the invariant breaks |
| `MatchProperties.SameMillisecondOverwrites` | src/main/java/com/app/service/MatchService.java:72-77 | two pairings in one millisecond share an id; the second replaces the first, whose customer stays indexed to a session it is not in |
| `MatchProperties.CustomersServedInArrivalOrder` | src/main/java/com/app/service/MatchService.java:58-64 | from empty pools, customers C1 then C2 then one agent: the agent is paired with C1 and C2 is still waiting |
| `MatchProperties.AgentsServedInArrivalOrder` | src/main/java/com/app/service/MatchService.java:45-51 | from empty pools, agents A1 then A2 then one customer: the customer is paired with A1 and A2 is still waiting |
| `MatchProperties.RunKeepsPoolsExclusive` | src/main/java/com/app/service/MatchService.java:26-69 | any sequence of requests keeps at least one pool empty |
| `MatchProperties.RunBacklog` | src/main/java/com/app/service/MatchService.java:26-69 | over any sequence of requests, waiting customers minus waiting agents grows by the customer requests and falls by the agent requests |
| `MatchProperties.BalancedRunLeavesNoWaiters` | src/main/java/com/app/service/MatchService.java:26-69 | from empty pools, equally many customer and agent requests in any order leave nobody waiting |

## Left out

- Concurrency: the concurrent queues and maps and any interleaving of requests are not modelled. Every operation is one atomic step.
- Notification delivery through the messaging template is not modelled, nor is its try/catch. The log always records both messages of a pairing. In the source, if sending the first message throws, the second is never attempted, yet the log still holds both. A failed send changes no other state in the source.
- The "waiting" message is not logged. It is sent by the controller, not by the service.
- Logging and the queue-status printout are left out. They change no state.
- Clock calls are not modelled. `System.currentTimeMillis()` and `LocalDateTime.now()` become the `ClockReading` parameter.
- The clock's milliseconds are taken to be non-negative (`millis: nat`). The source reads a signed `long` and truncates `%` toward zero, so a clock set before 1970 would give a negative session id. The model cannot express such an id.
- The controller, the WebSocket configuration and message persistence are left out. They are transport and storage wiring outside the core.
- The ChatMapper behind persistence is not part of this model.
- The match response and notification DTOs appear only as the `MatchResponse` and `MatchNotification` datatypes. The chat message is the opaque `ChatMessage` value.
- The no-argument and all-argument constructors and the setters of `ChatSession` are left out. The core never calls them, so the session's id and participants are constants.
- The source's `UserRole` enum is not part of this model. The model uses a two-value `UserRole` (Customer, Agent). As in the source, every non-customer role takes the agent branch.
- `MatchProperties.RequestMatchKeepsConsistent`, `MatchProperties.MatchCustomerKeepsConsistent` and `MatchProperties.MatchAgentKeepsConsistent` assume an idle requester and an unused session id, because the source checks neither and the invariant fails without them.
- `MatchProperties.EndSessionKeepsConsistent` assumes the re-match does not reuse the id of another live session, for the same reason.
