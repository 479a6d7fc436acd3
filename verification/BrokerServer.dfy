/** The broker's HTTP side: handing missions out, taking them back, and its peers' verdicts. */
module BrokerServer {
  import opened Text
  import opened Missions
  import opened MissionTables
  import opened MissionQueue
  import opened IdempotencyFilter
  import opened UnverifiedBuffer
  import opened ShadowBuffer
  import opened BrokerCore
  import I = Intake
  import opened UndividedIntake
  import P = BrokerProtocol

  type PendingMission = P.PendingMission

  function PendingOnly(pending: map<string, PendingMission>): map<string, Mission> {
    map e | e in pending :: pending[e].mission
  }

  function Overdue(pending: map<string, PendingMission>, now: int): set<string> {
    set e | e in pending && P.TimedOut(pending[e], now)
  }

  // ---------- the janitor's tick ----------

  /** The tick when the pending missions in `todo` are still to be looked at. */
  ghost predicate TickSoFar(before: map<string, PendingMission>, queue: seq<Mission>, now: int, todo: set<string>,
                            pending: map<string, PendingMission>, queued: seq<Mission>, ops: seq<P.Op>) {
    && todo <= pending.Keys <= before.Keys && (forall e :: e in pending ==> pending[e] == before[e])
    && (forall e :: e in before && e !in todo ==> (e in pending <==> e !in Overdue(before, now)))
    && multiset(queued) == multiset(queue) + Stored(PendingOnly(before), before.Keys - pending.Keys)
    && P.Leads(P.Holding(queue, before), ops, P.Holding(queued, pending))
    && (forall op :: op in ops ==> op == P.Return(0) || (op.JanitorTakes? && op.now == now))
  }

  lemma TickStarts(before: map<string, PendingMission>, now: int, queue: seq<Mission>)
    ensures TickSoFar(before, queue, now, before.Keys, before, queue, [])
  {
    assert before.Keys - before.Keys == {};
    NothingStored(PendingOnly(before));
    P.NoSteps(P.Holding(queue, before));
  }

  lemma TickSkips(before: map<string, PendingMission>, queue: seq<Mission>, now: int, todo: set<string>,
                  pending: map<string, PendingMission>, queued: seq<Mission>, ops: seq<P.Op>, e: string)
    requires TickSoFar(before, queue, now, todo, pending, queued, ops) && e in todo && !P.TimedOut(pending[e], now)
    ensures TickSoFar(before, queue, now, todo - {e}, pending, queued, ops)
  {
    hide P.Leads, Stored, P.TimedOut;
  }

  lemma TickReturns(before: map<string, PendingMission>, queue: seq<Mission>, now: int, todo: set<string>,
                    pending: map<string, PendingMission>, queued: seq<Mission>, ops: seq<P.Op>, e: string,
                    more: seq<Mission>)
    requires TickSoFar(before, queue, now, todo, pending, queued, ops) && e in todo && P.TimedOut(pending[e], now)
    requires multiset(more) == multiset(queued) + multiset{pending[e].mission}
    ensures TickSoFar(before, queue, now, todo - {e}, pending - {e}, more,
                      ops + [P.JanitorTakes(e, now)] + [P.Return(0)])
  {
    hide P.Leads, Stored, P.TimedOut;
    P.JanitorReturns(P.Holding(queue, before), ops, queued, pending, e, now, more);
    StoredSplit(PendingOnly(before), before.Keys - (pending - {e}).Keys, e);
    assert before.Keys - (pending - {e}).Keys - {e} == before.Keys - pending.Keys;
  }

  lemma TickEnds(before: map<string, PendingMission>, queue: seq<Mission>, now: int,
                 pending: map<string, PendingMission>, queued: seq<Mission>, ops: seq<P.Op>)
    requires TickSoFar(before, queue, now, {}, pending, queued, ops)
    ensures pending == map e | e in before && now - before[e].checkoutTime <= 60 :: before[e]
    ensures Overdue(before, now) == set e | e in before && now - before[e].checkoutTime > 60
    ensures multiset(queued) == multiset(queue) + Stored(PendingOnly(before), Overdue(before, now))
    ensures P.Leads(P.Holding(queue, before), ops, P.Holding(queued, pending))
    ensures forall op :: op in ops ==> op == P.Return(0) || (op.JanitorTakes? && op.now == now)
  {
    var overdue := Overdue(before, now);
    assert overdue <= before.Keys;
    assert before - overdue == map e | e in before && now - before[e].checkoutTime <= 60 :: before[e];
    hide P.Leads, Stored, Overdue;
    OthersStay(before, pending, overdue);
  }

  class HTTPServer {
    const queue: PriorityQueue
    const shadowBuffer: ShadowBufferManager
    const unverified: UnverifiedBufferManager
    const filter: Filter
    var pendingMissions: map<string, PendingMission>

    ghost predicate Valid()
      reads this, queue
    {
      queue.Valid() && forall e :: e in pendingMissions ==> pendingMissions[e].mission.payload.eventID == e
    }

    /** What the intake's protocol sees of this broker when nothing is under way. */
    ghost function AtRest(): I.Broker
      reads filter, unverified, shadowBuffer
    {
      I.Resting(filter.seen.Keys, 0, WaitingMissions(unverified.buffer), shadowBuffer.buffer)
    }

    constructor (queue: PriorityQueue, shadowBuffer: ShadowBufferManager, unverified: UnverifiedBufferManager,
                 filter: Filter)
      requires queue.Valid()
      ensures Valid() && pendingMissions == map[]
      ensures this.queue == queue && this.shadowBuffer == shadowBuffer
      ensures this.unverified == unverified && this.filter == filter
    {
      this.queue, this.shadowBuffer, this.unverified, this.filter := queue, shadowBuffer, unverified, filter;
      this.pendingMissions := map[];
    }

    /** What the protocol of missions under concurrency sees of this broker. */
    ghost function Custody(): P.Broker
      reads this, queue
    {
      P.Holding(queue.mh, pendingMissions)
    }

    /** Under the pending lock: registers a mission that has left the queue. */
    method Checkout(mission: Mission, now: int)
      requires Valid()
      modifies this
      ensures Valid()
      ensures pendingMissions == old(pendingMissions)[mission.payload.eventID := P.PendingMission(mission, now)]
      ensures P.Step(old(Custody()).(popped := [mission]), P.Checkout(0, now),
                     Custody().(overwritten := P.Overwritten(old(pendingMissions), mission.payload.eventID)))
    {
      pendingMissions := pendingMissions[mission.payload.eventID := P.PendingMission(mission, now)];
    }

    /** Under the pending lock: settles a pending event, if it is one; the action decides what becomes of it. */
    method Settle(mission: Mission, ghost action: string) returns (wasPending: bool)
      requires Valid()
      modifies this
      ensures Valid() && pendingMissions == old(pendingMissions) - {mission.payload.eventID}
      ensures wasPending <==> mission.payload.eventID in old(pendingMissions)
      ensures P.Step(old(Custody()), P.Resolve(action, mission),
                     if wasPending then P.AsSettled(Custody(), action, mission) else Custody())
    {
      wasPending := mission.payload.eventID in pendingMissions;
      if wasPending {
        pendingMissions := pendingMissions - {mission.payload.eventID};
      }
    }

    /**
     * Hands out a mission that no queued one precedes and makes it pending; nothing exactly when none is queued.
     * Without interference these are a step under the queue's lock and one under the pending lock.
     */
    method HandleQueuePop(now: int) returns (response: Option<Mission>)
      requires Valid()
      modifies this, queue
      ensures Valid()
      ensures response == None <==> old(queue.mh) == []
      ensures response == None ==> queue.mh == [] && pendingMissions == old(pendingMissions)
      ensures response.Some? ==>
                var m := response.value;
                && multiset(queue.mh) + multiset{m} == multiset(old(queue.mh))
                && (forall x :: x in old(queue.mh) ==> !Less(x, m))
                && pendingMissions == old(pendingMissions)[m.payload.eventID := P.PendingMission(m, now)]
      ensures response.Some? ==>
                var handed := P.Holding(queue.mh, old(pendingMissions)).(popped := [response.value]);
                && P.Step(old(Custody()), P.Pop(response.value), handed)
                && P.Step(handed, P.Checkout(0, now),
                          Custody().(overwritten := P.Overwritten(old(pendingMissions), Id(response.value))))
    {
      hide Less, IsHeap, P.Step;
      response := queue.Dequeue();
      if response.Some? {
        P.PopHandsOut(old(queue.mh), response.value, queue.mh, pendingMissions, now);
        Checkout(response.value, now);
      }
    }

    /** Only a pending event is settled; then a `REQUEUE` brings the sent mission back and nothing else does. */
    method HandleQueueResolve(action: string, mission: Mission)
      requires Valid()
      modifies this, queue
      ensures Valid() && pendingMissions == old(pendingMissions) - {mission.payload.eventID}
      ensures multiset(queue.mh) == multiset(old(queue.mh)) +
                if mission.payload.eventID in old(pendingMissions) && action == "REQUEUE"
                then multiset{mission} else multiset{}
      ensures var settled := P.Holding(old(queue.mh), pendingMissions);
              var handed := P.AsSettled(settled, action, mission);
              if mission.payload.eventID in old(pendingMissions)
              then P.Step(old(Custody()), P.Resolve(action, mission), handed)
                   && if action == "REQUEUE" then P.Step(handed, P.Return(0), Custody()) else Custody() == settled
              else P.Step(old(Custody()), P.Resolve(action, mission), Custody())
    {
      hide Less, IsHeap, P.Step;
      var wasPending := Settle(mission, action);
      if !wasPending {
        return;
      }
      if action == "REQUEUE" {
        queue.Enqueue(mission);
        P.ReturnPutsBack(old(queue.mh), mission, queue.mh, pendingMissions);
        assert P.AsSettled(P.Holding(old(queue.mh), pendingMissions), action, mission)
            == P.Holding(old(queue.mh), pendingMissions).(returning := [mission]);
      }
    }

    /** One tick of the janitor: exactly the overdue missions go back to the queue, once each. */
    method PendingJanitorTick(now: int) returns (ghost ops: seq<P.Op>)
      requires Valid()
      modifies this, queue
      ensures Valid()
      ensures pendingMissions == map e | e in old(pendingMissions) && now - old(pendingMissions)[e].checkoutTime <= 60
                                   :: old(pendingMissions)[e]
      ensures var overdue := set e | e in old(pendingMissions) && now - old(pendingMissions)[e].checkoutTime > 60;
              multiset(queue.mh) == multiset(old(queue.mh)) + Stored(PendingOnly(old(pendingMissions)), overdue)
      ensures P.Leads(old(Custody()), ops, Custody())
      ensures forall op :: op in ops ==> op == P.Return(0) || (op.JanitorTakes? && op.now == now)
    {
      hide IsHeap, Stored, Less, Overdue, TickSoFar, P.Leads;
      ghost var before, start := pendingMissions, Custody();
      TickStarts(before, now, queue.mh);
      ops := [];
      var todo := pendingMissions.Keys;
      while todo != {}
        invariant Valid() && todo <= pendingMissions.Keys
        invariant TickSoFar(before, old(queue.mh), now, todo, pendingMissions, queue.mh, ops)
        decreases |todo|
      {
        var eventID :| eventID in todo;
        var pending := pendingMissions[eventID];
        if now - pending.checkoutTime > P.CHECKOUT_SECONDS {
          ghost var queued, table := queue.mh, pendingMissions;
          pendingMissions := pendingMissions - {eventID};
          queue.Enqueue(pending.mission);
          TickReturns(before, old(queue.mh), now, todo, table, queued, ops, eventID, queue.mh);
          ops := ops + [P.JanitorTakes(eventID, now)] + [P.Return(0)];
        } else {
          TickSkips(before, old(queue.mh), now, todo, pendingMissions, queue.mh, ops, eventID);
        }
        todo := todo - {eventID};
      }
      TickEnds(before, old(queue.mh), now, pendingMissions, queue.mh, ops);
    }

    /**
     * A peer's verdict; one without an event is refused and changes nothing. Without interference these are the
     * steps of one handler: filter, waiting room, shadow buffer.
     */
    method HandleShadowSync(action: string, eventID: string, mission: Mission, now: int, ghost site: I.Site)
      returns (accepted: bool, ghost ops: seq<I.Op>)
      requires shadowBuffer.Valid()
      modifies filter, unverified, shadowBuffer
      ensures shadowBuffer.Valid() && (accepted <==> eventID != "")
      ensures filter.seen.Keys == if accepted then old(filter.seen.Keys) + {eventID} else old(filter.seen.Keys)
      ensures unverified.buffer == if accepted && (action == "ACK" || action == "NACK")
                                   then old(unverified.buffer) - {eventID} else old(unverified.buffer)
      ensures shadowBuffer.buffer == if accepted && action == "ACK"
                                     then old(shadowBuffer.buffer)[mission.payload.eventID := mission]
                                     else old(shadowBuffer.buffer)
      ensures Memory(AtRest()) == if accepted then OnVerdict(Memory(old(AtRest())), action, eventID, mission)
                                  else Memory(old(AtRest()))
      ensures I.Allowed(site, old(AtRest()), ops)
      ensures I.Final(site, old(AtRest()), ops) == if accepted then AtRest().(handlers := [I.Finished]) else AtRest()
      ensures accepted ==> ops != [] && ops[0] == I.Hears(action, eventID, mission)
    {
      hide I.Allowed, I.Final;
      ghost var start := AtRest();
      I.NoSteps(site, start);
      if eventID == "" {
        return false, [];
      }
      ghost var end;
      ops, end := HandlerTakes(site, start, [], start, action, eventID, mission);
      var isNew := filter.CheckAndAdd(eventID, now);
      assert filter.seen.Keys == old(filter.seen.Keys) + {eventID};
      if action == "ACK" {
        var found := unverified.RetrieveAndRemove(eventID);
        shadowBuffer.Store(mission);
      } else if action == "NACK" {
        var found := unverified.RetrieveAndRemove(eventID);
      }
      return true, ops;
    }
  }
}
