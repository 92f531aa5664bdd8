/**
 The matching engine and session registry of the chat backend
 (com.app.service.MatchService) as a pure state machine: one function per
 operation, from the state before the call to the state after it (and the
 response, where the operation returns one). The class in MatchService.dfy is
 proved to follow these functions step by step; the lemmas in
 MatchProperties.dfy state what the operations promise.
 */
module MatchModel {
  import opened ChatSessions

  /** Session ids are the clock in milliseconds modulo this value. */
  const SessionIdModulus: int := 1000000

  datatype Option<T> = None | Some(value: T)

  /** The role a participant asks to be matched as; anything but Customer takes the agent branch. */
  datatype UserRole = Customer | Agent

  datatype MatchStatus = Matched | Waiting

  /** The answer to a match request; `matchedUserId` is only filled in when an agent is matched. */
  datatype MatchResponse = MatchResponse(sessionId: int, status: MatchStatus, matchedUserId: Option<int>)

  /** A match-result message sent to `recipient`, naming the session and the partner. */
  datatype MatchNotification = MatchNotification(recipient: int, sessionId: int, userType: UserRole, partnerId: int)

  /** One reading of the clock: the milliseconds the session id is cut from, and the start time stored. */
  datatype ClockReading = ClockReading(millis: nat, now: Timestamp)

  /**
   The service's state: the two FIFO waiting pools (head first), the live
   sessions by id, the reverse index from participant to session id, and the
   log of match notifications sent so far.
   */
  datatype State = State(
    waitingCustomers: seq<int>,
    availableAgents: seq<int>,
    activeSessions: map<int, SessionRecord>,
    userToSession: map<int, int>,
    notifications: seq<MatchNotification>)

  /** The state after an operation that returns a response. */
  datatype Step = Step(state: State, response: MatchResponse)

  /** The state of a freshly started service. */
  const Initial: State := State([], [], map[], map[], [])

  // ---------------------------------------------------------------------------
  // Operations
  // ---------------------------------------------------------------------------

  /** The id a session created at this clock reading gets. */
  function NewSessionId(clock: ClockReading): (sid: int)
    ensures 0 <= sid < SessionIdModulus
    ensures (clock.millis - sid) % SessionIdModulus == 0
  {
    clock.millis % SessionIdModulus
  }

  /**
   Stores a new session under the clock's id (replacing any session already
   stored under that id) and points both participants at it.
   */
  function CreateSession(st: State, customerId: int, agentId: int, clock: ClockReading): State
  {
    var sid := NewSessionId(clock);
    st.(activeSessions := st.activeSessions[sid := SessionRecord(sid, customerId, agentId, clock.now, [])],
        userToSession := st.userToSession[customerId := sid][agentId := sid])
  }

  /** Tells each participant of a new session about the other. */
  function NotifyMatchSuccess(st: State, customerId: int, agentId: int, sessionId: int): State
  {
    st.(notifications := st.notifications + [
      MatchNotification(customerId, sessionId, Customer, agentId),
      MatchNotification(agentId, sessionId, Agent, customerId)])
  }

  /** Creates the session for a pairing and notifies both sides. */
  function Pair(st: State, customerId: int, agentId: int, clock: ClockReading): State
  {
    NotifyMatchSuccess(CreateSession(st, customerId, agentId, clock), customerId, agentId, NewSessionId(clock))
  }

  /** A customer's request: take the head agent if there is one, else join the customer pool. */
  function MatchCustomer(st: State, customerId: int, clock: ClockReading): Step
  {
    if |st.availableAgents| > 0 then
      var agent := st.availableAgents[0];
      var polled := st.(availableAgents := st.availableAgents[1..]);
      Step(Pair(polled, customerId, agent, clock), MatchResponse(NewSessionId(clock), Matched, None))
    else
      Step(st.(waitingCustomers := st.waitingCustomers + [customerId]), MatchResponse(0, Waiting, None))
  }

  /** An agent's request: take the head customer if there is one, else join the agent pool. */
  function MatchAgent(st: State, agentId: int, clock: ClockReading): Step
  {
    if |st.waitingCustomers| > 0 then
      var customer := st.waitingCustomers[0];
      var polled := st.(waitingCustomers := st.waitingCustomers[1..]);
      Step(Pair(polled, customer, agentId, clock), MatchResponse(NewSessionId(clock), Matched, Some(customer)))
    else
      Step(st.(availableAgents := st.availableAgents + [agentId]), MatchResponse(0, Waiting, None))
  }

  function RequestMatch(st: State, userId: int, role: UserRole, clock: ClockReading): Step
  {
    if role == Customer then MatchCustomer(st, userId, clock) else MatchAgent(st, userId, clock)
  }

  /** Appends a message to a live session; a message for an unknown session is dropped. */
  function AddMessageToSession(st: State, sessionId: int, message: ChatMessage): State
  {
    if sessionId in st.activeSessions then
      var s := st.activeSessions[sessionId];
      st.(activeSessions := st.activeSessions[sessionId := s.(messages := s.messages + [message])])
    else
      st
  }

  /** Takes a live session out of the registry and both its participants out of the index. */
  function RemoveSession(st: State, sessionId: int): State
    requires sessionId in st.activeSessions
  {
    var s := st.activeSessions[sessionId];
    st.(activeSessions := st.activeSessions - {sessionId},
        userToSession := st.userToSession - {s.customerId} - {s.agentId})
  }

  /** Hands a freed agent the head customer, or puts the agent back in the agent pool. */
  function AutoRematchAgent(st: State, agentId: int, clock: ClockReading): State
  {
    if |st.waitingCustomers| > 0 then
      var customer := st.waitingCustomers[0];
      Pair(st.(waitingCustomers := st.waitingCustomers[1..]), customer, agentId, clock)
    else
      st.(availableAgents := st.availableAgents + [agentId])
  }

  /**
   Ends a session; when the one ending it is the session's agent, that agent
   is matched again at once. Ending an unknown session does nothing.
   */
  function EndSession(st: State, sessionId: int, userId: int, clock: ClockReading): State
  {
    if sessionId in st.activeSessions then
      var removed := RemoveSession(st, sessionId);
      if st.activeSessions[sessionId].agentId == userId then AutoRematchAgent(removed, userId, clock)
      else removed
    else
      st
  }

  // ---------------------------------------------------------------------------
  // Invariants
  // ---------------------------------------------------------------------------

  /** Nobody waits while someone of the other role waits too. */
  predicate PoolsExclusive(st: State)
  {
    st.waitingCustomers == [] || st.availableAgents == []
  }

  ghost predicate NoDuplicates(s: seq<int>)
  {
    forall i, j :: 0 <= i < j < |s| ==> s[i] != s[j]
  }

  predicate IsParticipant(s: SessionRecord, userId: int)
  {
    userId == s.customerId || userId == s.agentId
  }

  predicate IndexedAt(st: State, userId: int, sessionId: int)
  {
    userId in st.userToSession && st.userToSession[userId] == sessionId
  }

  /** Every session is stored under its own id. */
  ghost predicate KeysMatch(st: State)
  {
    forall k :: k in st.activeSessions ==> st.activeSessions[k].sessionId == k
  }

  /** Every index entry names a live session the user takes part in. */
  ghost predicate IndexSound(st: State)
  {
    forall u :: u in st.userToSession ==>
      st.userToSession[u] in st.activeSessions && IsParticipant(st.activeSessions[st.userToSession[u]], u)
  }

  /** Both participants of every live session are indexed to it. */
  ghost predicate IndexComplete(st: State)
  {
    forall k :: k in st.activeSessions ==>
      IndexedAt(st, st.activeSessions[k].customerId, k) && IndexedAt(st, st.activeSessions[k].agentId, k)
  }

  /** The session map and the reverse index describe the same pairings. */
  ghost predicate RegistryConsistent(st: State)
  {
    KeysMatch(st) && IndexSound(st) && IndexComplete(st)
  }

  /** Nobody in a waiting pool is in a session. */
  ghost predicate PoolsDisjointFromIndex(st: State)
  {
    && (forall u :: u in st.waitingCustomers ==> u !in st.userToSession)
    && (forall u :: u in st.availableAgents ==> u !in st.userToSession)
  }

  /** The whole-state invariant: no lost, doubled or orphaned participant. */
  ghost predicate Consistent(st: State)
  {
    && PoolsExclusive(st)
    && NoDuplicates(st.waitingCustomers)
    && NoDuplicates(st.availableAgents)
    && PoolsDisjointFromIndex(st)
    && RegistryConsistent(st)
  }

  /** A participant who is neither waiting nor in a session. */
  predicate Idle(st: State, userId: int)
  {
    userId !in st.waitingCustomers && userId !in st.availableAgents && userId !in st.userToSession
  }

  // ---------------------------------------------------------------------------
  // Sequences of requests
  // ---------------------------------------------------------------------------

  datatype Request = Request(userId: int, role: UserRole, clock: ClockReading)

  /** The state after serving the requests one after the other. */
  function RunRequests(st: State, requests: seq<Request>): State
    decreases |requests|
  {
    if requests == [] then st
    else
      var r := requests[0];
      RunRequests(RequestMatch(st, r.userId, r.role, r.clock).state, requests[1..])
  }

  function CountRole(requests: seq<Request>, role: UserRole): nat
    decreases |requests|
  {
    if requests == [] then 0
    else (if requests[0].role == role then 1 else 0) + CountRole(requests[1..], role)
  }

  /** Waiting customers minus waiting agents. */
  function Backlog(st: State): int
  {
    |st.waitingCustomers| - |st.availableAgents|
  }
}
