/**
 What the matching engine and the session registry promise, stated and
 proved over the functions of MatchModel.
 */
module MatchProperties {
  import opened ChatSessions
  import opened MatchModel

  // ---------------------------------------------------------------------------
  // Session creation
  // ---------------------------------------------------------------------------

  /**
   A new session pairs exactly the given customer and agent, starts with no
   messages, and both participants are indexed to it; the pools and every
   session stored under another id are untouched.
   */
  lemma CreateSessionStoresPairing(st: State, customerId: int, agentId: int, clock: ClockReading)
    ensures var r := CreateSession(st, customerId, agentId, clock);
            var sid := NewSessionId(clock);
            && sid in r.activeSessions
            && r.activeSessions[sid] == SessionRecord(sid, customerId, agentId, clock.now, [])
            && IndexedAt(r, customerId, sid) && IndexedAt(r, agentId, sid)
            && r.activeSessions.Keys == st.activeSessions.Keys + {sid}
            && r.userToSession.Keys == st.userToSession.Keys + {customerId, agentId}
            && (forall k :: k in st.activeSessions && k != sid ==> r.activeSessions[k] == st.activeSessions[k])
            && (forall u :: u in st.userToSession && u != customerId && u != agentId ==>
                  r.userToSession[u] == st.userToSession[u])
            && r.waitingCustomers == st.waitingCustomers && r.availableAgents == st.availableAgents
  {
  }

  /** A pairing tells the customer that the agent is its partner, and the agent that the customer is. */
  lemma PairNotifiesBoth(st: State, customerId: int, agentId: int, clock: ClockReading)
    ensures var r := Pair(st, customerId, agentId, clock);
            var sid := NewSessionId(clock);
            r.notifications == st.notifications + [
              MatchNotification(customerId, sid, Customer, agentId),
              MatchNotification(agentId, sid, Agent, customerId)]
  {
  }

  // ---------------------------------------------------------------------------
  // Match requests
  // ---------------------------------------------------------------------------

  /**
   A customer arriving while agents wait takes the head agent: exactly that
   agent leaves the pool, one session pairs the two, the response is MATCHED
   with the new id, and the customer pool is unchanged.
   */
  lemma CustomerTakesHeadAgent(st: State, customerId: int, clock: ClockReading)
    requires st.availableAgents != []
    ensures var step := MatchCustomer(st, customerId, clock);
            var r := step.state;
            var sid := NewSessionId(clock);
            && step.response == MatchResponse(sid, Matched, None)
            && r.availableAgents == st.availableAgents[1..]
            && r.waitingCustomers == st.waitingCustomers
            && r.activeSessions == st.activeSessions[sid := SessionRecord(sid, customerId, st.availableAgents[0], clock.now, [])]
            && r.userToSession == st.userToSession[customerId := sid][st.availableAgents[0] := sid]
            && r.notifications == st.notifications + [
                 MatchNotification(customerId, sid, Customer, st.availableAgents[0]),
                 MatchNotification(st.availableAgents[0], sid, Agent, customerId)]
  {
  }

  /** A customer arriving while no agent waits joins the tail of the customer pool and nothing else changes. */
  lemma CustomerWaitsWithoutAgent(st: State, customerId: int, clock: ClockReading)
    requires st.availableAgents == []
    ensures var step := MatchCustomer(st, customerId, clock);
            && step.response == MatchResponse(0, Waiting, None)
            && step.state == st.(waitingCustomers := st.waitingCustomers + [customerId])
  {
  }

  /**
   An agent arriving while customers wait takes the head customer and reports
   that customer as the matched user; the agent pool is unchanged.
   */
  lemma AgentTakesHeadCustomer(st: State, agentId: int, clock: ClockReading)
    requires st.waitingCustomers != []
    ensures var step := MatchAgent(st, agentId, clock);
            var r := step.state;
            var sid := NewSessionId(clock);
            && step.response == MatchResponse(sid, Matched, Some(st.waitingCustomers[0]))
            && r.waitingCustomers == st.waitingCustomers[1..]
            && r.availableAgents == st.availableAgents
            && r.activeSessions == st.activeSessions[sid := SessionRecord(sid, st.waitingCustomers[0], agentId, clock.now, [])]
            && r.userToSession == st.userToSession[st.waitingCustomers[0] := sid][agentId := sid]
            && r.notifications == st.notifications + [
                 MatchNotification(st.waitingCustomers[0], sid, Customer, agentId),
                 MatchNotification(agentId, sid, Agent, st.waitingCustomers[0])]
  {
  }

  /** An agent arriving while no customer waits joins the tail of the agent pool and nothing else changes. */
  lemma AgentWaitsWithoutCustomer(st: State, agentId: int, clock: ClockReading)
    requires st.waitingCustomers == []
    ensures var step := MatchAgent(st, agentId, clock);
            && step.response == MatchResponse(0, Waiting, None)
            && step.state == st.(availableAgents := st.availableAgents + [agentId])
  {
  }

  /** Every request either pairs (and shortens the other pool by one) or waits (and lengthens its own). */
  lemma RequestShiftsBacklog(st: State, userId: int, role: UserRole, clock: ClockReading)
    ensures var step := RequestMatch(st, userId, role, clock);
            && Backlog(step.state) == Backlog(st) + (if role == Customer then 1 else -1)
            && (step.response.status == Matched <==> (if role == Customer then st.availableAgents else st.waitingCustomers) != [])
  {
  }

  /** The re-match of a freed agent is exactly an agent match request. */
  lemma AutoRematchIsAgentRequest(st: State, agentId: int, clock: ClockReading)
    ensures AutoRematchAgent(st, agentId, clock) == MatchAgent(st, agentId, clock).state
  {
  }

  /** No operation leaves someone waiting in each pool at once. */
  lemma PoolsStayExclusive(st: State, userId: int, role: UserRole, sessionId: int, message: ChatMessage, clock: ClockReading)
    requires PoolsExclusive(st)
    ensures PoolsExclusive(MatchCustomer(st, userId, clock).state)
    ensures PoolsExclusive(MatchAgent(st, userId, clock).state)
    ensures PoolsExclusive(RequestMatch(st, userId, role, clock).state)
    ensures PoolsExclusive(AutoRematchAgent(st, userId, clock))
    ensures PoolsExclusive(EndSession(st, sessionId, userId, clock))
    ensures PoolsExclusive(AddMessageToSession(st, sessionId, message))
  {
  }

  // ---------------------------------------------------------------------------
  // Messages
  // ---------------------------------------------------------------------------

  /** A message for a live session lands at the end of its list; nothing else changes. */
  lemma MessageAppendedToLiveSession(st: State, sessionId: int, message: ChatMessage)
    requires sessionId in st.activeSessions
    ensures var r := AddMessageToSession(st, sessionId, message);
            var s := st.activeSessions[sessionId];
            && r.activeSessions.Keys == st.activeSessions.Keys
            && r.activeSessions[sessionId] == s.(messages := s.messages + [message])
            && (forall k :: k in st.activeSessions && k != sessionId ==> r.activeSessions[k] == st.activeSessions[k])
            && r == st.(activeSessions := r.activeSessions)
  {
  }

  /** A message for an unknown or ended session changes nothing. */
  lemma MessageToUnknownSessionDropped(st: State, sessionId: int, message: ChatMessage)
    requires sessionId !in st.activeSessions
    ensures AddMessageToSession(st, sessionId, message) == st
  {
  }

  /** Message lists only grow, and only at the end. */
  lemma MessagesOnlyGrow(st: State, sessionId: int, message: ChatMessage, k: int)
    requires k in st.activeSessions
    ensures var r := AddMessageToSession(st, sessionId, message);
            && k in r.activeSessions
            && st.activeSessions[k].messages <= r.activeSessions[k].messages
            && |r.activeSessions[k].messages| <= |st.activeSessions[k].messages| + 1
  {
  }

  // ---------------------------------------------------------------------------
  // Ending sessions
  // ---------------------------------------------------------------------------

  /**
   A customer ending a session removes it and both its participants from the
   registry and leaves the pools alone: no re-match happens.
   */
  lemma CustomerEndRemovesWithoutRematch(st: State, sessionId: int, userId: int, clock: ClockReading)
    requires sessionId in st.activeSessions
    requires userId != st.activeSessions[sessionId].agentId
    ensures var r := EndSession(st, sessionId, userId, clock);
            var s := st.activeSessions[sessionId];
            && r.activeSessions == st.activeSessions - {sessionId}
            && r.userToSession == st.userToSession - {s.customerId, s.agentId}
            && s.customerId !in r.userToSession && s.agentId !in r.userToSession
            && r.waitingCustomers == st.waitingCustomers && r.availableAgents == st.availableAgents
            && r.notifications == st.notifications
  {
  }

  /**
   An agent ending a session while customers wait is paired at once with the
   head customer in a new session; the ended session is gone unless the new
   one reuses its id.
   */
  lemma AgentEndRematchesHeadCustomer(st: State, sessionId: int, userId: int, clock: ClockReading)
    requires sessionId in st.activeSessions
    requires userId == st.activeSessions[sessionId].agentId
    requires st.waitingCustomers != []
    ensures var r := EndSession(st, sessionId, userId, clock);
            var sid := NewSessionId(clock);
            var next := st.waitingCustomers[0];
            var s := st.activeSessions[sessionId];
            && r.waitingCustomers == st.waitingCustomers[1..]
            && r.availableAgents == st.availableAgents
            && r.activeSessions == (st.activeSessions - {sessionId})[sid := SessionRecord(sid, next, userId, clock.now, [])]
            && r.userToSession == (st.userToSession - {s.customerId, s.agentId})[next := sid][userId := sid]
            && r.notifications == st.notifications + [
                 MatchNotification(next, sid, Customer, userId),
                 MatchNotification(userId, sid, Agent, next)]
  {
  }

  /** An agent ending a session while no customer waits goes back to the tail of the agent pool. */
  lemma AgentEndRequeuesAgent(st: State, sessionId: int, userId: int, clock: ClockReading)
    requires sessionId in st.activeSessions
    requires userId == st.activeSessions[sessionId].agentId
    requires st.waitingCustomers == []
    ensures var r := EndSession(st, sessionId, userId, clock);
            var s := st.activeSessions[sessionId];
            && r.activeSessions == st.activeSessions - {sessionId}
            && r.userToSession == st.userToSession - {s.customerId, s.agentId}
            && r.availableAgents == st.availableAgents + [userId]
            && r.waitingCustomers == []
            && r.notifications == st.notifications
  {
  }

  /** Ending an unknown session does nothing. */
  lemma EndUnknownSessionIsNoOp(st: State, sessionId: int, userId: int, clock: ClockReading)
    requires sessionId !in st.activeSessions
    ensures EndSession(st, sessionId, userId, clock) == st
  {
  }

  /**
   Ending the same session twice has the effect of ending it once, provided a
   re-match on the first call did not store its new session under the same id.
   */
  lemma EndSessionIdempotent(st: State, sessionId: int, user1: int, user2: int, clock1: ClockReading, clock2: ClockReading)
    requires NewSessionId(clock1) != sessionId
    ensures var once := EndSession(st, sessionId, user1, clock1);
            EndSession(once, sessionId, user2, clock2) == once
  {
    var once := EndSession(st, sessionId, user1, clock1);
    if sessionId in st.activeSessions {
      assert sessionId !in once.activeSessions;
    }
  }

  // ---------------------------------------------------------------------------
  // The registry invariant
  // ---------------------------------------------------------------------------

  /** Pairing two unindexed participants under a fresh id keeps the registry consistent. */
  lemma PairKeepsRegistry(st: State, customerId: int, agentId: int, clock: ClockReading)
    requires RegistryConsistent(st)
    requires customerId !in st.userToSession && agentId !in st.userToSession
    requires NewSessionId(clock) !in st.activeSessions
    ensures var r := Pair(st, customerId, agentId, clock);
            && RegistryConsistent(r)
            && r.userToSession.Keys == st.userToSession.Keys + {customerId, agentId}
  {
    var sid := NewSessionId(clock);
    var r := Pair(st, customerId, agentId, clock);
    forall u | u in r.userToSession
      ensures r.userToSession[u] in r.activeSessions && IsParticipant(r.activeSessions[r.userToSession[u]], u)
    {
      if u != customerId && u != agentId {
        assert st.userToSession[u] != sid;
      }
    }
    forall k | k in r.activeSessions
      ensures IndexedAt(r, r.activeSessions[k].customerId, k) && IndexedAt(r, r.activeSessions[k].agentId, k)
    {
      if k != sid {
        assert IndexedAt(st, st.activeSessions[k].customerId, k);
        assert IndexedAt(st, st.activeSessions[k].agentId, k);
      }
    }
  }

  /** Removing a live session keeps the registry consistent and unindexes exactly its two participants. */
  lemma RemoveKeepsRegistry(st: State, sessionId: int)
    requires RegistryConsistent(st)
    requires sessionId in st.activeSessions
    ensures var r := RemoveSession(st, sessionId);
            var s := st.activeSessions[sessionId];
            && RegistryConsistent(r)
            && r.userToSession.Keys == st.userToSession.Keys - {s.customerId, s.agentId}
  {
    var s := st.activeSessions[sessionId];
    var r := RemoveSession(st, sessionId);
    forall u | u in r.userToSession
      ensures r.userToSession[u] in r.activeSessions && IsParticipant(r.activeSessions[r.userToSession[u]], u)
    {
      assert st.userToSession[u] != sessionId;
    }
    forall k | k in r.activeSessions
      ensures IndexedAt(r, r.activeSessions[k].customerId, k) && IndexedAt(r, r.activeSessions[k].agentId, k)
    {
      assert IndexedAt(st, st.activeSessions[k].customerId, k);
      assert IndexedAt(st, st.activeSessions[k].agentId, k);
      assert st.activeSessions[k].customerId != s.customerId && st.activeSessions[k].customerId != s.agentId;
      assert st.activeSessions[k].agentId != s.customerId && st.activeSessions[k].agentId != s.agentId;
    }
  }

  /** A customer who is idle when asking, served under a fresh id, keeps the state consistent. */
  lemma MatchCustomerKeepsConsistent(st: State, customerId: int, clock: ClockReading)
    requires Consistent(st) && Idle(st, customerId)
    requires NewSessionId(clock) !in st.activeSessions
    ensures Consistent(MatchCustomer(st, customerId, clock).state)
  {
    if st.availableAgents != [] {
      var agent := st.availableAgents[0];
      var polled := st.(availableAgents := st.availableAgents[1..]);
      PairKeepsRegistry(polled, customerId, agent, clock);
      var r := Pair(polled, customerId, agent, clock);
      forall u | u in r.availableAgents
        ensures u !in r.userToSession
      {
        var i :| 1 <= i < |st.availableAgents| && st.availableAgents[i] == u;
        assert st.availableAgents[0] != st.availableAgents[i];
      }
    }
  }

  /** An agent who is idle when asking, served under a fresh id, keeps the state consistent. */
  lemma MatchAgentKeepsConsistent(st: State, agentId: int, clock: ClockReading)
    requires Consistent(st) && Idle(st, agentId)
    requires NewSessionId(clock) !in st.activeSessions
    ensures Consistent(MatchAgent(st, agentId, clock).state)
  {
    if st.waitingCustomers != [] {
      var customer := st.waitingCustomers[0];
      var polled := st.(waitingCustomers := st.waitingCustomers[1..]);
      PairKeepsRegistry(polled, customer, agentId, clock);
      var r := Pair(polled, customer, agentId, clock);
      forall u | u in r.waitingCustomers
        ensures u !in r.userToSession
      {
        var i :| 1 <= i < |st.waitingCustomers| && st.waitingCustomers[i] == u;
        assert st.waitingCustomers[0] != st.waitingCustomers[i];
      }
    }
  }

  /** The invariant survives any request by an idle participant whose session id is fresh. */
  lemma RequestMatchKeepsConsistent(st: State, userId: int, role: UserRole, clock: ClockReading)
    requires Consistent(st) && Idle(st, userId)
    requires NewSessionId(clock) !in st.activeSessions
    ensures Consistent(RequestMatch(st, userId, role, clock).state)
  {
    if role == Customer {
      MatchCustomerKeepsConsistent(st, userId, clock);
    } else {
      MatchAgentKeepsConsistent(st, userId, clock);
    }
  }

  /** The invariant survives ending a session, provided a re-match does not reuse the id of another live session. */
  lemma EndSessionKeepsConsistent(st: State, sessionId: int, userId: int, clock: ClockReading)
    requires Consistent(st)
    requires NewSessionId(clock) in st.activeSessions ==> NewSessionId(clock) == sessionId
    ensures Consistent(EndSession(st, sessionId, userId, clock))
  {
    if sessionId in st.activeSessions {
      var s := st.activeSessions[sessionId];
      RemoveKeepsRegistry(st, sessionId);
      var removed := RemoveSession(st, sessionId);
      if s.agentId == userId {
        assert IndexedAt(st, userId, sessionId);
        assert Idle(removed, userId);
        MatchAgentKeepsConsistent(removed, userId, clock);
        AutoRematchIsAgentRequest(removed, userId, clock);
      }
    }
  }

  /** Appending a message never disturbs the invariant. */
  lemma AddMessageKeepsConsistent(st: State, sessionId: int, message: ChatMessage)
    requires Consistent(st)
    ensures Consistent(AddMessageToSession(st, sessionId, message))
  {
    var r := AddMessageToSession(st, sessionId, message);
    forall k | k in r.activeSessions
      ensures IndexedAt(r, r.activeSessions[k].customerId, k) && IndexedAt(r, r.activeSessions[k].agentId, k)
    {
      assert IndexedAt(st, st.activeSessions[k].customerId, k);
    }
  }

  /** In a consistent state nobody is both waiting and taking part in a live session. */
  lemma ParticipantIsNotWaiting(st: State, sessionId: int, userId: int)
    requires Consistent(st)
    requires sessionId in st.activeSessions && IsParticipant(st.activeSessions[sessionId], userId)
    ensures userId !in st.waitingCustomers && userId !in st.availableAgents
    ensures IndexedAt(st, userId, sessionId)
  {
    assert IndexedAt(st, st.activeSessions[sessionId].customerId, sessionId);
  }

  /**
   Without the idle condition the invariant fails: a customer who asks twice
   waits twice, and the first agent then pairs with that customer while the
   customer is still in the pool.
   */
  lemma DuplicateRequestDoubleBooks(clock1: ClockReading, clock2: ClockReading, clock3: ClockReading)
    ensures var s1 := RequestMatch(Initial, 1, Customer, clock1).state;
            var s2 := RequestMatch(s1, 1, Customer, clock2).state;
            var s3 := RequestMatch(s2, 2, Agent, clock3).state;
            && s3.waitingCustomers == [1]
            && s3.activeSessions[NewSessionId(clock3)].customerId == 1
            && !Consistent(s3)
  {
    var s3 := RequestMatch(RequestMatch(RequestMatch(Initial, 1, Customer, clock1).state, 1, Customer, clock2).state, 2, Agent, clock3).state;
    assert 1 in s3.userToSession;
    assert s3.waitingCustomers[0] == 1;
  }

  /**
   Two pairings in the same millisecond share an id: the second overwrites
   the first session, whose customer is left indexed to a session it is not in.
   */
  lemma SameMillisecondOverwrites(clock: ClockReading)
    ensures var s1 := RequestMatch(RequestMatch(Initial, 1, Customer, clock).state, 2, Agent, clock).state;
            var s2 := RequestMatch(RequestMatch(s1, 3, Customer, clock).state, 4, Agent, clock).state;
            var sid := NewSessionId(clock);
            && s2.activeSessions.Keys == {sid}
            && s2.activeSessions[sid].customerId == 3
            && IndexedAt(s2, 1, sid)
            && !RegistryConsistent(s2)
  {
    var s1 := RequestMatch(RequestMatch(Initial, 1, Customer, clock).state, 2, Agent, clock).state;
    var s2 := RequestMatch(RequestMatch(s1, 3, Customer, clock).state, 4, Agent, clock).state;
    assert 1 in s2.userToSession;
  }

  // ---------------------------------------------------------------------------
  // Arrival order
  // ---------------------------------------------------------------------------

  /** With nobody waiting, customers C1 then C2 then one agent: the agent gets C1 and C2 keeps waiting. */
  lemma CustomersServedInArrivalOrder(st: State, c1: int, c2: int, agent: int, k1: ClockReading, k2: ClockReading, k3: ClockReading)
    requires st.waitingCustomers == [] && st.availableAgents == []
    ensures var s1 := RequestMatch(st, c1, Customer, k1).state;
            var s2 := RequestMatch(s1, c2, Customer, k2).state;
            var step := RequestMatch(s2, agent, Agent, k3);
            && step.response == MatchResponse(NewSessionId(k3), Matched, Some(c1))
            && step.state.activeSessions[NewSessionId(k3)].customerId == c1
            && step.state.waitingCustomers == [c2]
  {
  }

  /** With nobody waiting, agents A1 then A2 then one customer: the customer gets A1 and A2 keeps waiting. */
  lemma AgentsServedInArrivalOrder(st: State, a1: int, a2: int, customer: int, k1: ClockReading, k2: ClockReading, k3: ClockReading)
    requires st.waitingCustomers == [] && st.availableAgents == []
    ensures var s1 := RequestMatch(st, a1, Agent, k1).state;
            var s2 := RequestMatch(s1, a2, Agent, k2).state;
            var step := RequestMatch(s2, customer, Customer, k3);
            && step.response == MatchResponse(NewSessionId(k3), Matched, None)
            && step.state.activeSessions[NewSessionId(k3)].agentId == a1
            && step.state.availableAgents == [a2]
  {
  }

  // ---------------------------------------------------------------------------
  // Runs of requests
  // ---------------------------------------------------------------------------

  lemma {:induction false} RunKeepsPoolsExclusive(st: State, requests: seq<Request>)
    requires PoolsExclusive(st)
    ensures PoolsExclusive(RunRequests(st, requests))
    decreases |requests|
  {
    if requests != [] {
      var r := requests[0];
      PoolsStayExclusive(st, r.userId, r.role, 0, ChatMessage(0, 0, "", ""), r.clock);
      RunKeepsPoolsExclusive(RequestMatch(st, r.userId, r.role, r.clock).state, requests[1..]);
    }
  }

  /** Over any run, the backlog moves up by one per customer request and down by one per agent request. */
  lemma {:induction false} RunBacklog(st: State, requests: seq<Request>)
    ensures Backlog(RunRequests(st, requests)) == Backlog(st) + CountRole(requests, Customer) - CountRole(requests, Agent)
    decreases |requests|
  {
    if requests != [] {
      var r := requests[0];
      RequestShiftsBacklog(st, r.userId, r.role, r.clock);
      RunBacklog(RequestMatch(st, r.userId, r.role, r.clock).state, requests[1..]);
    }
  }

  /**
   Starting with empty pools, as many customer requests as agent requests, in
   any order, leave nobody waiting: every request was paired.
   */
  lemma BalancedRunLeavesNoWaiters(st: State, requests: seq<Request>)
    requires st.waitingCustomers == [] && st.availableAgents == []
    requires CountRole(requests, Customer) == CountRole(requests, Agent)
    ensures RunRequests(st, requests).waitingCustomers == []
    ensures RunRequests(st, requests).availableAgents == []
  {
    RunKeepsPoolsExclusive(st, requests);
    RunBacklog(st, requests);
  }
}
