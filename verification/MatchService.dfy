/**
 The matching service object (com.app.service.MatchService): two FIFO pools
 and two maps updated in place. Every method is proved to move the object's
 abstract state exactly as the corresponding function of MatchModel does.
 */
module MatchServices {
  import opened ChatSessions
  import opened MatchModel

  class MatchService {
    var waitingCustomers: seq<int>
    var availableAgents: seq<int>
    var activeSessions: map<int, ChatSession>
    var userToSession: map<int, int>
    /** The match-result messages handed to the messaging template so far. */
    ghost var notifications: seq<MatchNotification>

    /** Every session object is stored under its own id, so distinct ids hold distinct objects. */
    ghost predicate Valid()
      reads this
    {
      forall k :: k in activeSessions ==> activeSessions[k].sessionId == k
    }

    /** The value of the whole service, with each session object read at its current contents. */
    ghost function Abstract(): State
      reads this, activeSessions.Values
    {
      State(waitingCustomers, availableAgents,
            map k | k in activeSessions :: activeSessions[k].Snapshot(),
            userToSession, notifications)
    }

    constructor ()
      ensures Valid() && Abstract() == Initial
    {
      waitingCustomers := [];
      availableAgents := [];
      activeSessions := map[];
      userToSession := map[];
      notifications := [];
    }

    method RequestMatch(userId: int, role: UserRole, clock: ClockReading) returns (response: MatchResponse)
      requires Valid()
      modifies this
      ensures Valid()
      ensures Step(Abstract(), response) == MatchModel.RequestMatch(old(Abstract()), userId, role, clock)
    {
      if role == Customer {
        response := MatchCustomer(userId, clock);
      } else {
        response := MatchAgent(userId, clock);
      }
    }

    method MatchCustomer(customerId: int, clock: ClockReading) returns (response: MatchResponse)
      requires Valid()
      modifies this
      ensures Valid()
      ensures Step(Abstract(), response) == MatchModel.MatchCustomer(old(Abstract()), customerId, clock)
    {
      if |availableAgents| > 0 {
        var agent := availableAgents[0];
        availableAgents := availableAgents[1..];
        var sessionId := CreateSession(customerId, agent, clock);
        NotifyMatchSuccess(customerId, agent, sessionId);
        response := MatchResponse(sessionId, Matched, None);
      } else {
        waitingCustomers := waitingCustomers + [customerId];
        response := MatchResponse(0, Waiting, None);
      }
    }

    method MatchAgent(agentId: int, clock: ClockReading) returns (response: MatchResponse)
      requires Valid()
      modifies this
      ensures Valid()
      ensures Step(Abstract(), response) == MatchModel.MatchAgent(old(Abstract()), agentId, clock)
    {
      if |waitingCustomers| > 0 {
        var customer := waitingCustomers[0];
        waitingCustomers := waitingCustomers[1..];
        var sessionId := CreateSession(customer, agentId, clock);
        NotifyMatchSuccess(customer, agentId, sessionId);
        response := MatchResponse(sessionId, Matched, Some(customer));
      } else {
        availableAgents := availableAgents + [agentId];
        response := MatchResponse(0, Waiting, None);
      }
    }

    method CreateSession(customerId: int, agentId: int, clock: ClockReading) returns (sessionId: int)
      requires Valid()
      modifies this
      ensures Valid()
      ensures sessionId == NewSessionId(clock)
      ensures Abstract() == MatchModel.CreateSession(old(Abstract()), customerId, agentId, clock)
    {
      sessionId := clock.millis % SessionIdModulus;
      var session := new ChatSession(sessionId, customerId, agentId, clock.now);
      activeSessions := activeSessions[sessionId := session];
      userToSession := userToSession[customerId := sessionId];
      userToSession := userToSession[agentId := sessionId];
    }

    method NotifyMatchSuccess(customerId: int, agentId: int, sessionId: int)
      requires Valid()
      modifies this
      ensures Valid()
      ensures Abstract() == MatchModel.NotifyMatchSuccess(old(Abstract()), customerId, agentId, sessionId)
    {
      notifications := notifications + [MatchNotification(customerId, sessionId, Customer, agentId)];
      notifications := notifications + [MatchNotification(agentId, sessionId, Agent, customerId)];
    }

    method AddMessageToSession(sessionId: int, message: ChatMessage)
      requires Valid()
      modifies activeSessions.Values
      ensures Valid()
      ensures Abstract() == MatchModel.AddMessageToSession(old(Abstract()), sessionId, message)
    {
      if sessionId in activeSessions {
        var session := activeSessions[sessionId];
        session.messages := session.messages + [message];
        // Valid() keeps every other stored session a different object, so only this one changed.
        forall k | k in activeSessions && k != sessionId
          ensures activeSessions[k].Snapshot() == old(activeSessions[k].Snapshot())
        {
          assert activeSessions[k] != session;
        }
        assert Abstract().activeSessions == old(Abstract()).activeSessions[sessionId := session.Snapshot()];
      }
    }

    method EndSession(sessionId: int, userId: int, clock: ClockReading)
      requires Valid()
      modifies this
      ensures Valid()
      ensures Abstract() == MatchModel.EndSession(old(Abstract()), sessionId, userId, clock)
    {
      if sessionId in activeSessions {
        var session := activeSessions[sessionId];
        activeSessions := activeSessions - {sessionId};
        userToSession := userToSession - {session.customerId};
        userToSession := userToSession - {session.agentId};
        if session.agentId == userId {
          AutoRematchAgent(userId, clock);
        }
      }
    }

    method AutoRematchAgent(agentId: int, clock: ClockReading)
      requires Valid()
      modifies this
      ensures Valid()
      ensures Abstract() == MatchModel.AutoRematchAgent(old(Abstract()), agentId, clock)
    {
      if |waitingCustomers| > 0 {
        var customer := waitingCustomers[0];
        waitingCustomers := waitingCustomers[1..];
        var sessionId := CreateSession(customer, agentId, clock);
        NotifyMatchSuccess(customer, agentId, sessionId);
      } else {
        availableAgents := availableAgents + [agentId];
      }
    }
  }
}
