/** What the whole work of one worker or one handler comes to while nothing else happens in the broker. */
module UndividedIntake {
  import opened BrokerCore
  import opened Missions
  import opened SectorRouting
  import opened Intake
  import Lamport = LamportClock

  /** A handler takes in a whole verdict while nothing else happens. */
  lemma HandlerTakes(site: Site, start: Broker, before: seq<Op>, b: Broker, action: string, e: string, m: Mission)
    returns (ops: seq<Op>, b': Broker)
    requires Allowed(site, start, before) && b == Final(site, start, before) && b.handlers == [] && e != ""
    ensures Allowed(site, start, ops) && b' == Final(site, start, ops)
    ensures before + [Hears(action, e, m)] <= ops
    ensures var isVerdict := action == "ACK" || action == "NACK";
            b' == b.(known := b.known + {e}, handlers := [Finished],
                     waiting := if isVerdict then WithoutEvent(b.waiting, e) else b.waiting,
                     shadow := if action == "ACK" then WithShadow(b.shadow, m) else b.shadow)
  {
    hide Final, Allowed, WithoutEvent, WithShadow;
    GoesOn(site, start, before, Hears(action, e, m));
    ops := before + [Hears(action, e, m)];
    b' := Final(site, start, ops);
    if action == "ACK" || action == "NACK" {
      ops, b' := NotedTakes(site, start, ops, b', action, e, m);
    }
  }

  lemma NotedTakes(site: Site, start: Broker, before: seq<Op>, b: Broker, action: string, e: string, m: Mission)
    returns (ops: seq<Op>, b': Broker)
    requires Allowed(site, start, before) && b == Final(site, start, before) && b.handlers == [Noted(action, e, m)]
    ensures Allowed(site, start, ops) && b' == Final(site, start, ops) && before <= ops
    ensures b' == b.(handlers := [Finished], waiting := WithoutEvent(b.waiting, e),
                     shadow := if action == "ACK" then WithShadow(b.shadow, m) else b.shadow)
  {
    hide Final, Allowed, WithoutEvent, WithShadow;
    GoesOn(site, start, before, Retrieves(0));
    ops := before + [Retrieves(0)];
    b' := Final(site, start, ops);
    if action == "ACK" {
      assert b'.handlers == [Cleared(m)];
      GoesOn(site, start, ops, Shadows(0));
      ops := ops + [Shadows(0)];
      b' := Final(site, start, ops);
    }
  }

  /** The stamp of a packet when nothing else moves the clock: a tick, and a sync if the packet has a clock. */
  function Stamp(clock: nat, data: SensorData): nat {
    var ticked := Lamport.Incremented(clock);
    if data.internalClock > 0 then Lamport.Next(ticked, data.internalClock) else ticked
  }

  /** What is left of a packet for another broker's sector. */
  function AfterForwarding(b: Broker, m: Mission, owner: string): Broker {
    b.(known := b.known + {Id(m)}, clock := m.lamportClock, waiting := WithParked(b.waiting, m),
       workers := b.workers[Id(m) := Forwarded(m, owner)], packets := b.packets + {(owner, Packet(m))})
  }

  /** What is left of a packet for a sector of our own. */
  function AfterCharging(site: Site, b: Broker, m: Mission, approved: bool, view: set<string>): Broker {
    var action := if approved then "ACK" else "NACK";
    b.(known := b.known + {Id(m)}, clock := m.lamportClock,
       workers := b.workers[Id(m) := Announced(action, m)], charged := b.charged + [Id(m)],
       queued := if approved then b.queued + [m] else b.queued,
       verdicts := b.verdicts + set peer | peer in view - {site.name} :: (peer, action, m))
  }

  /** What a worker of a broker at rest has sent, charged and queued when its work is done. */
  lemma WorkInWords(site: Site, b: Broker, m: Mission, owner: string, approved: bool, view: set<string>)
    requires b.packets == {} && b.verdicts == {} && b.charged == [] && b.queued == []
    ensures var end := AfterForwarding(b, m, owner);
            && end.packets == {(owner, m.payload.(internalClock := m.lamportClock))}
            && end.verdicts == {} && end.charged == [] && end.queued == []
    ensures var end := AfterCharging(site, b, m, approved, view);
            && end.packets == {} && end.charged == [m.payload.eventID] && end.queued == (if approved then [m] else [])
            && end.verdicts == set peer | peer in view - {site.name} :: (peer, if approved then "ACK" else "NACK", m)
  {
  }

  /** A worker handles a whole packet that the filter does not know while nothing else happens. */
  lemma WorkerTakes(site: Site, start: Broker, data: SensorData, view: set<string>, approved: bool)
    returns (ops: seq<Op>)
    requires IsMissionRequest(data) && data.eventID !in start.known
    ensures Allowed(site, start, ops) && [Receives(data)] <= ops
    ensures var m, owner := Mission(data, Stamp(start.clock, data)), Owner(site.ring, view, data.sectorID);
            Final(site, start, ops) == if IsElsewhere(site, owner) then AfterForwarding(start, m, owner)
                                       else AfterCharging(site, start, m, approved, view)
  {
    var m := Mission(data, Stamp(start.clock, data));
    var b;
    ops, b := WorkerStamps(site, start, data);
    hide Final, Allowed, Stamp, Owner, IsElsewhere, Packet, WithParked, AfterForwarding, AfterCharging;
    var e, owner := data.eventID, Owner(site.ring, view, data.sectorID);
    ops, b := WorkerRoutes(site, start, ops, b, m, view);
    if IsElsewhere(site, owner) {
      ops := WorkerForwards(site, start, ops, b, m, owner);
      ForwardingLeaves(start, b, Final(site, start, ops), m, owner);
    } else {
      ops := WorkerCharges(site, start, ops, b, m, approved, view);
      ChargingLeaves(site, start, b, Final(site, start, ops), m, approved, view);
    }
  }

  lemma WorkerRoutes(site: Site, start: Broker, before: seq<Op>, b: Broker, m: Mission, view: set<string>)
    returns (ops: seq<Op>, b': Broker)
    requires Allowed(site, start, before) && b == Final(site, start, before)
    requires Id(m) in b.workers && b.workers[Id(m)] == Stamped(m)
    ensures Allowed(site, start, ops) && before <= ops && b' == Final(site, start, ops)
    ensures var owner := Owner(site.ring, view, m.payload.sectorID);
            b' == b.(workers := b.workers[Id(m) := if IsElsewhere(site, owner) then Foreign(m, owner) else Own(m)])
  {
    hide Final, Allowed, Owner, IsElsewhere;
    GoesOn(site, start, before, Routes(Id(m), view));
    ops := before + [Routes(Id(m), view)];
    b' := Final(site, start, ops);
  }

  lemma ForwardingLeaves(start: Broker, routed: Broker, end: Broker, m: Mission, owner: string)
    requires routed == start.(known := start.known + {Id(m)}, clock := m.lamportClock,
                              workers := start.workers[Id(m) := Stamped(m)][Id(m) := Foreign(m, owner)])
    requires end == routed.(waiting := WithParked(routed.waiting, m), packets := routed.packets + {(owner, Packet(m))},
                            workers := routed.workers[Id(m) := Forwarded(m, owner)])
    ensures end == AfterForwarding(start, m, owner)
  {
    hide WithParked, Packet;
  }

  lemma ChargingLeaves(
    site: Site, start: Broker, routed: Broker, end: Broker, m: Mission, approved: bool, view: set<string>)
    requires routed == start.(known := start.known + {Id(m)}, clock := m.lamportClock,
                              workers := start.workers[Id(m) := Stamped(m)][Id(m) := Own(m)])
    requires var action := if approved then "ACK" else "NACK";
             end == routed.(
               charged := routed.charged + [Id(m)], queued := if approved then routed.queued + [m] else routed.queued,
               workers := routed.workers[Id(m) := Announced(action, m)],
               verdicts := routed.verdicts + set peer | peer in view - {site.name} :: (peer, action, m))
    ensures end == AfterCharging(site, start, m, approved, view)
  {
  }

  lemma WorkerStamps(site: Site, start: Broker, data: SensorData) returns (ops: seq<Op>, b: Broker)
    requires IsMissionRequest(data) && data.eventID !in start.known
    ensures Allowed(site, start, ops) && b == Final(site, start, ops) && [Receives(data)] <= ops
    ensures var m := Mission(data, Stamp(start.clock, data));
            b == start.(known := start.known + {data.eventID}, clock := m.lamportClock,
                        workers := start.workers[data.eventID := Stamped(m)])
  {
    hide Final, Allowed, IsMissionRequest, Lamport.Incremented, Lamport.Next;
    var e := data.eventID;
    NoSteps(site, start);
    GoesOn(site, start, [], Receives(data));
    ops := [] + [Receives(data)];
    var passed := Final(site, start, ops);
    assert passed == start.(known := start.known + {e}, workers := start.workers[e := Passed(data)]);
    GoesOn(site, start, ops, Ticks(e));
    ops := ops + [Ticks(e)];
    if data.internalClock > 0 {
      assert Final(site, start, ops) == passed.(clock := Lamport.Incremented(start.clock),
                                                workers := start.workers[e := Ticked(data)]);
      GoesOn(site, start, ops, Syncs(e));
      ops := ops + [Syncs(e)];
    }
    b := Final(site, start, ops);
  }

  lemma WorkerForwards(site: Site, start: Broker, before: seq<Op>, b: Broker, m: Mission, owner: string)
    returns (ops: seq<Op>)
    requires Allowed(site, start, before) && b == Final(site, start, before)
    requires Id(m) in b.workers && b.workers[Id(m)] == Foreign(m, owner)
    ensures Allowed(site, start, ops) && before <= ops
    ensures Final(site, start, ops) == b.(waiting := WithParked(b.waiting, m),
                                          packets := b.packets + {(owner, Packet(m))},
                                          workers := b.workers[Id(m) := Forwarded(m, owner)])
  {
    hide Final, Allowed, Packet, WithParked;
    GoesOn(site, start, before, Parks(Id(m)));
    ops := before + [Parks(Id(m))];
    GoesOn(site, start, ops, Forwards(Id(m)));
    ops := ops + [Forwards(Id(m))];
  }

  lemma WorkerCharges(
    site: Site, start: Broker, before: seq<Op>, b: Broker, m: Mission, approved: bool, view: set<string>)
    returns (ops: seq<Op>)
    requires Allowed(site, start, before) && b == Final(site, start, before)
    requires Id(m) in b.workers && b.workers[Id(m)] == Own(m)
    ensures Allowed(site, start, ops) && before <= ops
    ensures var action := if approved then "ACK" else "NACK";
            Final(site, start, ops) ==
            b.(charged := b.charged + [Id(m)], queued := if approved then b.queued + [m] else b.queued,
               workers := b.workers[Id(m) := Announced(action, m)],
               verdicts := b.verdicts + set peer | peer in view - {site.name} :: (peer, action, m))
  {
    hide Final, Allowed;
    var e := Id(m);
    GoesOn(site, start, before, Charges(e, approved));
    ops := before + [Charges(e, approved)];
    var charged := Final(site, start, ops);
    if approved {
      assert charged == b.(charged := b.charged + [e], workers := b.workers[e := Paid(m)]);
      GoesOn(site, start, ops, Queues(e));
      ops := ops + [Queues(e)];
      assert Final(site, start, ops)
          == charged.(queued := b.queued + [m], workers := b.workers[e := Answered("ACK", m)]);
    } else {
      assert charged == b.(charged := b.charged + [e], workers := b.workers[e := Answered("NACK", m)]);
    }
    GoesOn(site, start, ops, Announces(e, view));
    ops := ops + [Announces(e, view)];
  }

  // ---------- packet and verdict, each undivided ----------

  /** What the broker remembers of events. */
  function Memory(b: Broker): Core {
    Core(b.known, b.waiting, b.shadow)
  }

  lemma ForwardingIsOnPacket(b: Broker, m: Mission, owner: string)
    requires Id(m) !in b.known
    ensures Memory(AfterForwarding(b, m, owner)) == OnPacket(Memory(b), m)
  {
  }

  /** A packet for another broker's sector, handled in whole. */
  lemma PacketTaken(site: Site, start: Broker, data: SensorData, view: set<string>) returns (ops: seq<Op>, m: Mission)
    requires IsMissionRequest(data) && IsElsewhere(site, Owner(site.ring, view, data.sectorID))
    ensures Allowed(site, start, ops) && [Receives(data)] <= ops && m.payload == data
    ensures Memory(Final(site, start, ops)) == OnPacket(Memory(start), m)
    ensures Final(site, start, ops).handlers == start.handlers
  {
    m := Mission(data, Stamp(start.clock, data));
    if data.eventID in start.known {
      hide Final, Allowed;
      NoSteps(site, start);
      GoesOn(site, start, [], Receives(data));
      ops := [] + [Receives(data)];
    } else {
      ops := WorkerTakes(site, start, data, view, true);
      hide Final, Allowed, Stamp, Owner, IsElsewhere;
      ForwardingIsOnPacket(start, m, Owner(site.ring, view, data.sectorID));
    }
  }

  /** A verdict, handled in whole. */
  lemma VerdictTaken(site: Site, start: Broker, before: seq<Op>, action: string, e: string, m: Mission)
    returns (ops: seq<Op>)
    requires Allowed(site, start, before) && Final(site, start, before).handlers == [] && e != ""
    ensures Allowed(site, start, ops) && before + [Hears(action, e, m)] <= ops
    ensures Memory(Final(site, start, ops)) == OnVerdict(Memory(Final(site, start, before)), action, e, m)
    ensures Final(site, start, ops).handlers == [Finished]
  {
    var b := Final(site, start, before);
    var b';
    ops, b' := HandlerTakes(site, start, before, b, action, e, m);
    hide Final, Allowed;
  }

  /**
   * A packet for another broker's sector and an ACK or NACK on its event, each handled in whole: filter, waiting room
   * and shadow buffer end the same whichever comes first, and the packet does not wait.
   */
  lemma UndividedOrdersAgree(site: Site, start: Broker, data: SensorData, view: set<string>, action: string, m: Mission)
    returns (packetFirst: seq<Op>, verdictFirst: seq<Op>)
    requires IsMissionRequest(data) && IsElsewhere(site, Owner(site.ring, view, data.sectorID))
    requires start.handlers == [] && data.eventID != "" && (action == "ACK" || action == "NACK")
    ensures Allowed(site, start, packetFirst) && [Receives(data)] <= packetFirst
    ensures Allowed(site, start, verdictFirst) && [Hears(action, data.eventID, m)] <= verdictFirst
    ensures verdictFirst[|verdictFirst| - 1] == Receives(data)
    ensures Final(site, start, packetFirst).handlers == Final(site, start, verdictFirst).handlers == [Finished]
    ensures var one, other := Final(site, start, packetFirst), Final(site, start, verdictFirst);
            one.known == other.known && one.waiting == other.waiting && one.shadow == other.shadow
    ensures data.eventID !in Final(site, start, packetFirst).waiting
  {
    var e := data.eventID;
    NoSteps(site, start);
    hide Final, Allowed, Owner, IsElsewhere;
    var packet;
    packetFirst, packet := PacketTaken(site, start, data, view);
    packetFirst := VerdictTaken(site, start, packetFirst, action, e, m);
    verdictFirst := VerdictTaken(site, start, [], action, e, m);
    GoesOn(site, start, verdictFirst, Receives(data));
    verdictFirst := verdictFirst + [Receives(data)];
    PacketAndVerdictCommute(Memory(start), packet, action, m);
  }
}
