/** The broker's intake: one packet is filtered, stamped, and either charged and queued or forwarded to its owner. */
module MissionProcessor {
  import opened Text
  import opened Missions
  import opened MissionQueue
  import opened IdempotencyFilter
  import opened UnverifiedBuffer
  import opened SectorRouting
  import opened LamportClock
  import I = Intake
  import opened BrokerCore
  import opened UndividedIntake

  datatype Verdict = Verdict(to: string, action: string, eventID: string, mission: Mission)

  datatype Outcome =
    | Ignored
    | Forwarded(to: string, data: SensorData)
    | Announced(verdicts: seq<Verdict>)

  predicate AllSay(verdicts: seq<Verdict>, action: string, mission: Mission) {
    forall v :: v in verdicts ==> v.action == action && v.mission == mission && v.eventID == Id(mission)
  }

  /** Who receives something. */
  function Told(sent: seq<Verdict>): set<string> {
    set v | v in sent :: v.to
  }

  /** Everybody but `me` and those still in `todo` has been sent the verdict, once. */
  ghost predicate ToldSoFar(members: set<string>, me: string, todo: set<string>, sent: seq<Verdict>,
                            action: string, mission: Mission) {
    && todo <= members && AllSay(sent, action, mission)
    && Told(sent) == members - todo - {me} && |sent| == |Told(sent)|
  }

  lemma NobodyTold(members: set<string>, me: string, action: string, mission: Mission)
    ensures ToldSoFar(members, me, members, [], action, mission)
  {
  }

  lemma ToldNext(members: set<string>, me: string, todo: set<string>, sent: seq<Verdict>,
                 action: string, mission: Mission, ip: string)
    requires ToldSoFar(members, me, todo, sent, action, mission) && ip in todo
    ensures ip == me ==> ToldSoFar(members, me, todo - {ip}, sent, action, mission)
    ensures ip != me ==>
              ToldSoFar(members, me, todo - {ip}, sent + [Verdict(ip, action, Id(mission), mission)], action, mission)
  {
    var v := Verdict(ip, action, Id(mission), mission);
    assert forall u :: u in sent + [v] <==> u in sent || u == v;
    assert Told(sent + [v]) == Told(sent) + {ip};
    assert ip != me ==> members - (todo - {ip}) - {me} == members - todo - {me} + {ip};
    assert ip == me ==> members - (todo - {ip}) - {me} == members - todo - {me};
  }

  lemma AllTold(members: set<string>, me: string, sent: seq<Verdict>, action: string, mission: Mission)
    requires ToldSoFar(members, me, {}, sent, action, mission)
    ensures forall v :: v in sent ==> v.action == action && v.mission == mission && v.eventID == mission.payload.eventID
    ensures (set v | v in sent :: v.to) == members - {me} && |sent| == |members - {me}|
  {
  }

  lemma OwnerInWords(ring: Ring, members: set<string>, sectorID: int)
    ensures Owner(ring, members, sectorID) == if members == {} then "" else ring(members, sectorID)
  {
  }

  lemma PacketCarriesStamp(m: Mission)
    ensures I.Packet(m) == m.payload.(internalClock := m.lamportClock)
  {
  }

  /** The broker at rest has the memory and the clock that the run left. */
  predicate Leaves(end: I.Broker, rest: I.Broker) {
    rest == I.Resting(end.known, end.clock, end.waiting, end.shadow)
  }

  class Processor {
    const queue: PriorityQueue
    const unverified: UnverifiedBufferManager
    const filter: Filter
    const router: SectorRouter
    const clock: Clock
    /** The addresses of this machine, and the one it goes by. */
    const localIPs: set<string>
    const myIP: string

    ghost predicate Valid()
      reads queue, clock
    {
      queue.Valid() && clock.Valid()
    }

    constructor (queue: PriorityQueue, unverified: UnverifiedBufferManager, filter: Filter, router: SectorRouter,
                 clock: Clock, localIPs: set<string>, myIP: string)
      requires queue.Valid() && clock.Valid()
      ensures Valid() && this.queue == queue && this.unverified == unverified && this.filter == filter
      ensures this.router == router && this.clock == clock && this.localIPs == localIPs && this.myIP == myIP
    {
      this.queue, this.unverified, this.filter := queue, unverified, filter;
      this.router, this.clock, this.localIPs, this.myIP := router, clock, localIPs, myIP;
    }

    /** One verdict to every other member of the ring, and only one. */
    method BroadcastValidationSync(action: string, mission: Mission) returns (sent: seq<Verdict>)
      ensures forall v :: v in sent ==>
                v.action == action && v.mission == mission && v.eventID == mission.payload.eventID
      ensures (set v | v in sent :: v.to) == router.members - {myIP} && |sent| == |router.members - {myIP}|
    {
      hide ToldSoFar;
      sent := [];
      var todo := router.members;
      NobodyTold(todo, myIP, action, mission);
      while todo != {}
        invariant todo <= router.members && ToldSoFar(router.members, myIP, todo, sent, action, mission)
        decreases |todo|
      {
        var ip :| ip in todo;
        ToldNext(router.members, myIP, todo, sent, action, mission, ip);
        todo := todo - {ip};
        if ip == myIP {
          continue;
        }
        sent := sent + [Verdict(ip, action, mission.payload.eventID, mission)];
      }
      AllTold(router.members, myIP, sent, action, mission);
    }

    function Site(): I.Site
      reads router
    {
      I.Site(router.ring, localIPs, myIP)
    }

    /** What the intake's protocol sees of this broker when nothing is under way. */
    ghost function AtRest(): I.Broker
      reads filter, clock, unverified
    {
      I.Resting(filter.seen.Keys, clock.value, WaitingMissions(unverified.buffer), map[])
    }

    /** A tick, and then a sync if the packet carries a clock. */
    method StampClock(data: SensorData) returns (currentClock: nat)
      requires clock.Valid() && data.internalClock < WORD
      modifies clock
      ensures clock.Valid() && currentClock == clock.value == Stamp(old(clock.value), data)
      ensures old(clock.value) + 2 < WORD && data.internalClock + 1 < WORD ==>
                currentClock == if data.internalClock == 0 then old(clock.value) + 1
                                else if data.internalClock > old(clock.value) + 1 then data.internalClock + 1
                                else old(clock.value) + 2
    {
      currentClock := clock.Tick();
      if data.internalClock > 0 {
        var failed;
        currentClock, failed := clock.Sync(data.internalClock, []);
      }
    }

    /** A mission of our own sector: queued exactly if its charge is approved; then everybody else is told. */
    method Answer(mission: Mission, approved: bool) returns (verdicts: seq<Verdict>)
      requires queue.Valid()
      modifies queue
      ensures queue.Valid()
      ensures multiset(queue.mh) == multiset(old(queue.mh)) + if approved then multiset{mission} else multiset{}
      ensures forall v :: v in verdicts ==>
                v.action == (if approved then "ACK" else "NACK") && v.mission == mission
                && v.eventID == mission.payload.eventID
      ensures (set v | v in verdicts :: v.to) == router.members - {myIP} && |verdicts| == |router.members - {myIP}|
    {
      hide IsHeap, Less;
      if approved {
        queue.Enqueue(mission);
      }
      verdicts := BroadcastValidationSync(if approved then "ACK" else "NACK", mission);
    }

    /**
     * Each mission request gets past the filter once; then it is forwarded if another broker owns its sector, and
     * otherwise charged, and queued exactly if the charge is approved. `approved` is the ledger's answer. Without
     * interference these are the steps of one worker, which end as `AfterForwarding` or `AfterCharging` says.
     */
    method Process(raw: Option<SensorData>, approved: bool, now: int) returns (outcome: Outcome, ghost ops: seq<I.Op>)
      requires Valid()
      requires raw.Some? ==> raw.value.internalClock < WORD
      modifies queue, unverified, filter, clock
      ensures Valid()
      ensures outcome == Ignored <==>
              || raw == None
              || !raw.value.isRequisition || raw.value.sensorID == "" || raw.value.sectorID <= 0
              || raw.value.eventID in old(filter.seen)
      ensures outcome == Ignored ==>
                unchanged(queue) && unchanged(unverified) && filter.seen == old(filter.seen) && unchanged(clock)
      ensures outcome != Ignored ==>
                var mission := Mission(raw.value, clock.value);
                var owner := if router.members == {} then "" else router.ring(router.members, raw.value.sectorID);
                && clock.value == Stamp(old(clock.value), raw.value)
                && filter.seen == old(filter.seen)[raw.value.eventID := now + filter.ttl]
                && I.Allowed(Site(), old(AtRest()), ops) && [I.Receives(raw.value)] <= ops
                && if owner != "" && owner !in localIPs
                   then outcome == Forwarded(owner, raw.value.(internalClock := clock.value))
                        && I.Final(Site(), old(AtRest()), ops) == AfterForwarding(old(AtRest()), mission, owner)
                        && Leaves(AfterForwarding(old(AtRest()), mission, owner), AtRest())
                        && Memory(AtRest()) == OnPacket(Memory(old(AtRest())), mission)
                        && unverified.buffer
                           == old(unverified.buffer)[raw.value.eventID := UnverifiedRecord(mission, now + 10)]
                        && unchanged(queue)
                   else outcome.Announced?
                        && I.Final(Site(), old(AtRest()), ops)
                           == AfterCharging(Site(), old(AtRest()), mission, approved, router.members)
                        && Leaves(AfterCharging(Site(), old(AtRest()), mission, approved, router.members), AtRest())
                        && multiset(queue.mh)
                           == multiset(old(queue.mh)) + (if approved then multiset{mission} else multiset{})
                        && (forall v :: v in outcome.verdicts ==>
                              v.action == (if approved then "ACK" else "NACK") && v.mission == mission
                              && v.eventID == raw.value.eventID)
                        && (set v | v in outcome.verdicts :: v.to) == router.members - {myIP}
                        && |outcome.verdicts| == |router.members - {myIP}|
                        && unchanged(unverified)
      ensures outcome != Ignored && old(clock.value) + 2 < WORD && raw.value.internalClock + 1 < WORD ==>
                clock.value == if raw.value.internalClock == 0 then old(clock.value) + 1
                               else if raw.value.internalClock > old(clock.value) + 1 then raw.value.internalClock + 1
                               else old(clock.value) + 2
    {
      hide IsHeap, Less, Stamp, I.Allowed, I.Final, I.Packet, I.WithParked, WaitingMissions, Owner;
      ops := [];
      if raw == None {
        return Ignored, [];
      }
      var data := raw.value;
      if !data.isRequisition || data.sensorID == "" || data.sectorID <= 0 {
        return Ignored, [];
      }
      var isNew := filter.CheckAndAdd(data.eventID, now);
      if !isNew {
        return Ignored, [];
      }
      assert filter.seen.Keys == old(filter.seen.Keys) + {data.eventID};
      ops := WorkerTakes(Site(), old(AtRest()), data, router.members, approved);
      var currentClock := StampClock(data);
      var mission := Mission(data, currentClock);
      OwnerInWords(router.ring, router.members, data.sectorID);
      var ownerIP := router.GetOwnerIP(data.sectorID);
      if ownerIP != "" && ownerIP !in localIPs {
        unverified.Store(mission, now);
        PacketCarriesStamp(mission);
        ForwardingIsOnPacket(old(AtRest()), mission, ownerIP);
        return Forwarded(ownerIP, data.(internalClock := currentClock)), ops;
      }
      var verdicts := Answer(mission, approved);
      return Announced(verdicts), ops;
    }
  }
}
