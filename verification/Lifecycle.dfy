/**
 * Brokers, stations and drones together, over a network that loses, repeats and reorders messages, with stations
 * and brokers that crash. A message once sent may be received at any later time, never, or again.
 */
module Lifecycle {
  import opened Text
  import opened Missions
  import opened Permutations
  import Aging = AntiStarvation
  import B = BrokerProtocol
  import R = Radar

  datatype Message =
    | PopReply(mission: Mission)
    | PullReply(drone: string, mission: Mission)
    | AckMessage(drone: string, eventID: string)
    | ResolveMessage(action: string, mission: Mission)

  /** A station's lease table, and the local queue that its fallback loop empties. */
  datatype Station = Station(leases: R.Station, fallback: seq<Mission>)

  datatype Drone = Idle | InFlight(mission: Mission)

  datatype World = World(
    brokers: map<string, B.Broker>, stations: map<string, Station>, drones: map<string, Drone>, net: set<Message>)

  datatype Op =
    | BrokerMoves(broker: string, op: B.Op)
    | BrokerReplies(broker: string, hand: nat, now: int)
    | BrokerResolves(broker: string, action: string, mission: Mission)
    | BrokerCrashes(broker: string)
    | StationLends(station: string, drone: string, mission: Mission, now: int)
    | StationMoves(station: string, move: R.Op, now: int)
    | StationPutsBack(station: string, hand: nat, now: int)
    | StationConfirms(station: string, drone: string, eventID: string, now: int)
    | StationAges(station: string, agingLimit: nat, clock: nat)
    | StationGivesUp(station: string, mission: Mission)
    | StationCrashes(station: string)
    | DroneTakes(drone: string, mission: Mission)
    | DroneFinishes(drone: string)
    | DroneAborts(drone: string)

  const LEASE_SECONDS := 10

  /** A confirmation carries nothing of the mission but its event. */
  function Confirmation(eventID: string): Message {
    ResolveMessage("SUCCESS", Mission(SensorData(eventID, "", 0, false, false, 0, "", ""), 0))
  }

  ghost predicate BrokerStep(w: World, b: string, op: B.Op, sent: set<Message>, w': World) {
    && b in w.brokers && b in w'.brokers
    && B.Step(w.brokers[b], op, w'.brokers[b])
    && w' == w.(brokers := w.brokers[b := w'.brokers[b]], net := w.net + sent)
  }

  ghost predicate StationStep(w: World, s: string, op: R.Op, now: int, sent: set<Message>, w': World) {
    && s in w.stations && s in w'.stations
    && R.Step(w.stations[s].leases, op, now, w'.stations[s].leases)
    && (op.PutBack? ==> Aging.Step(0, w.stations[s].fallback,
                                   Aging.Enqueued(w.stations[s].leases.held[op.hand]), w'.stations[s].fallback))
    && (!op.PutBack? ==> w'.stations[s].fallback == w.stations[s].fallback)
    && w' == w.(stations := w.stations[s := w'.stations[s]], net := w.net + sent)
  }

  ghost predicate Step(w: World, op: Op, w': World) {
    match op
    case BrokerMoves(b, move) =>
      !move.Checkout? && !move.Resolve? && BrokerStep(w, b, move, {}, w')
    case BrokerReplies(b, hand, now) =>
      && b in w.brokers && hand < |w.brokers[b].popped|
      && BrokerStep(w, b, B.Checkout(hand, now), {PopReply(w.brokers[b].popped[hand])}, w')
    case BrokerResolves(b, action, m) =>
      ResolveMessage(action, m) in w.net && BrokerStep(w, b, B.Resolve(action, m), {}, w')
    case BrokerCrashes(b) =>
      b in w.brokers && w' == w.(brokers := w.brokers[b := B.START])
    case StationLends(s, d, m, now) =>
      PopReply(m) in w.net && Id(m) != "" && StationStep(w, s, R.Mark(m, LEASE_SECONDS), now, {PullReply(d, m)}, w')
    case StationMoves(s, move, now) =>
      && (move.Renew? || move.SweepTakes? || move.NackTakes?) && (move.Renew? ==> move.duration == LEASE_SECONDS)
      && StationStep(w, s, move, now, {}, w')
    case StationPutsBack(s, hand, now) =>
      StationStep(w, s, R.PutBack(hand), now, {}, w')
    case StationConfirms(s, d, e, now) =>
      AckMessage(d, e) in w.net && StationStep(w, s, R.Ack(e), now, {Confirmation(e)}, w')
    case StationAges(s, agingLimit, clock) =>
      && s in w.stations && s in w'.stations
      && Aging.Step(agingLimit, w.stations[s].fallback, Aging.AgedAt(clock), w'.stations[s].fallback)
      && w' == w.(stations := w.stations[s := w.stations[s].(fallback := w'.stations[s].fallback)])
    case StationGivesUp(s, m) =>
      && s in w.stations && s in w'.stations
      && Aging.Step(0, w.stations[s].fallback, Aging.Dequeued(m), w'.stations[s].fallback)
      && w' == w.(stations := w.stations[s := w.stations[s].(fallback := w'.stations[s].fallback)],
                  net := w.net + {ResolveMessage("REQUEUE", m)})
    case StationCrashes(s) =>
      s in w.stations && w' == w.(stations := w.stations[s := Station(R.READY, [])])
    case DroneTakes(d, m) =>
      PullReply(d, m) in w.net && At(w, d) == Idle && w' == w.(drones := w.drones[d := InFlight(m)])
    case DroneFinishes(d) =>
      && At(w, d).InFlight?
      && w' == w.(drones := w.drones[d := Idle], net := w.net + {AckMessage(d, Id(At(w, d).mission))})
    case DroneAborts(d) =>
      At(w, d).InFlight? && w' == w.(drones := w.drones[d := Idle])
  }

  function At(w: World, d: string): Drone {
    if d in w.drones then w.drones[d] else Idle
  }

  ghost predicate Runs(worlds: seq<World>, ops: seq<Op>) {
    && |worlds| == |ops| + 1
    && worlds[0].net == {} && worlds[0].drones == map[]
    && (forall b :: b in worlds[0].brokers ==> worlds[0].brokers[b] == B.START)
    && (forall s :: s in worlds[0].stations ==> worlds[0].stations[s] == Station(R.READY, []))
    && forall i :: 0 <= i < |ops| ==> Step(worlds[i], ops[i], worlds[i + 1])
  }

  // ---------- what happened before ----------

  ghost predicate CheckedOutBefore(worlds: seq<World>, ops: seq<Op>, n: nat, m: Mission)
    requires n <= |ops| < |worlds|
  {
    exists c :: 0 <= c < n && ChecksOut(worlds[c], ops[c], m)
  }

  ghost predicate ChecksOut(w: World, op: Op, m: Mission) {
    op.BrokerReplies? && op.broker in w.brokers && op.hand < |w.brokers[op.broker].popped|
    && w.brokers[op.broker].popped[op.hand] == m
  }

  ghost predicate TakenBefore(worlds: seq<World>, ops: seq<Op>, n: nat, d: string, m: Mission)
    requires n <= |ops| < |worlds|
  {
    exists j :: 0 <= j < n && ops[j] == DroneTakes(d, m) && CheckedOutBefore(worlds, ops, j, m)
  }

  /** Some drone finished a flight for the event, having taken the mission before, after a broker checked it out. */
  ghost predicate FlownBefore(worlds: seq<World>, ops: seq<Op>, n: nat, e: string)
    requires n <= |ops| < |worlds|
  {
    exists k :: 0 <= k < n && Lands(worlds, ops, k, e)
  }

  ghost predicate Lands(worlds: seq<World>, ops: seq<Op>, k: nat, e: string)
    requires k < |ops| < |worlds|
  {
    && ops[k].DroneFinishes?
    && At(worlds[k], ops[k].drone).InFlight?
    && Id(At(worlds[k], ops[k].drone).mission) == e
    && TakenBefore(worlds, ops, k, ops[k].drone, At(worlds[k], ops[k].drone).mission)
  }

  ghost predicate Explained(worlds: seq<World>, ops: seq<Op>, n: nat, msg: Message)
    requires n <= |ops| < |worlds|
  {
    match msg
    case PopReply(m) => CheckedOutBefore(worlds, ops, n, m)
    case PullReply(_, m) => CheckedOutBefore(worlds, ops, n, m)
    case AckMessage(_, e) => FlownBefore(worlds, ops, n, e)
    case ResolveMessage(action, m) => action == "SUCCESS" ==> FlownBefore(worlds, ops, n, Id(m))
  }

  lemma ExplainedStays(worlds: seq<World>, ops: seq<Op>, n: nat, msg: Message)
    requires n < |ops| < |worlds| && Explained(worlds, ops, n, msg)
    ensures Explained(worlds, ops, n + 1, msg)
  {
    match msg {
      case PopReply(m) =>
        var c :| 0 <= c < n && ChecksOut(worlds[c], ops[c], m);
      case PullReply(_, m) =>
        var c :| 0 <= c < n && ChecksOut(worlds[c], ops[c], m);
      case AckMessage(_, e) =>
        var k :| 0 <= k < n && Lands(worlds, ops, k, e);
      case ResolveMessage(action, m) =>
        if action == "SUCCESS" {
          var k :| 0 <= k < n && Lands(worlds, ops, k, Id(m));
        }
    }
  }

  ghost predicate NetExplained(worlds: seq<World>, ops: seq<Op>, n: nat, net: set<Message>)
    requires n <= |ops| < |worlds|
  {
    forall msg :: msg in net ==> Explained(worlds, ops, n, msg)
  }

  ghost predicate FlightsExplained(worlds: seq<World>, ops: seq<Op>, n: nat, drones: map<string, Drone>)
    requires n <= |ops| < |worlds|
  {
    forall d :: d in drones && drones[d].InFlight? ==> TakenBefore(worlds, ops, n, d, drones[d].mission)
  }

  ghost predicate AllExplained(worlds: seq<World>, ops: seq<Op>, n: nat)
    requires n <= |ops| < |worlds|
  {
    NetExplained(worlds, ops, n, worlds[n].net) && FlightsExplained(worlds, ops, n, worlds[n].drones)
  }

  function NewMessage(w: World, op: Op): set<Message> {
    match op
    case BrokerReplies(b, hand, _) =>
      if b in w.brokers && hand < |w.brokers[b].popped| then {PopReply(w.brokers[b].popped[hand])} else {}
    case StationLends(_, d, m, _) => {PullReply(d, m)}
    case StationConfirms(_, _, e, _) => {Confirmation(e)}
    case StationGivesUp(_, m) => {ResolveMessage("REQUEUE", m)}
    case DroneFinishes(d) => if At(w, d).InFlight? then {AckMessage(d, Id(At(w, d).mission))} else {}
    case _ => {}
  }

  /** What one step does to the network and to the drones. */
  lemma StepEffects(w: World, op: Op, w': World)
    requires Step(w, op, w')
    ensures w'.net == w.net + NewMessage(w, op)
    ensures w'.drones == match op
                         case DroneTakes(d, m) => w.drones[d := InFlight(m)]
                         case DroneFinishes(d) => w.drones[d := Idle]
                         case DroneAborts(d) => w.drones[d := Idle]
                         case _ => w.drones
  {
    hide B.Step, R.Step;
  }

  lemma NewMessageExplained(worlds: seq<World>, ops: seq<Op>, n: nat, msg: Message)
    requires Runs(worlds, ops) && n < |ops| && AllExplained(worlds, ops, n)
    requires msg in NewMessage(worlds[n], ops[n])
    ensures Explained(worlds, ops, n + 1, msg)
  {
    hide B.Step, R.Step;
    var w, op := worlds[n], ops[n];
    assert Step(w, op, worlds[n + 1]);
    match op {
      case BrokerReplies(b, hand, _) =>
        assert ChecksOut(worlds[n], ops[n], w.brokers[b].popped[hand]);
      case StationLends(_, d, m, _) => ExplainedStays(worlds, ops, n, PopReply(m));
      case StationConfirms(_, d, e, _) => ExplainedStays(worlds, ops, n, AckMessage(d, e));
      case StationGivesUp(_, m) =>
      case DroneFinishes(d) => assert Lands(worlds, ops, n, Id(At(w, d).mission));
      case _ =>
    }
  }

  lemma {:induction false} EverythingExplained(worlds: seq<World>, ops: seq<Op>, n: nat)
    requires Runs(worlds, ops) && n <= |ops|
    ensures AllExplained(worlds, ops, n)
  {
    if n > 0 {
      EverythingExplained(worlds, ops, n - 1);
      NextNetExplained(worlds, ops, n - 1);
      NextFlightsExplained(worlds, ops, n - 1);
    }
  }

  lemma NextNetExplained(worlds: seq<World>, ops: seq<Op>, n: nat)
    requires Runs(worlds, ops) && n < |ops| && AllExplained(worlds, ops, n)
    ensures NetExplained(worlds, ops, n + 1, worlds[n + 1].net)
  {
    hide Step, Explained;
    assert Step(worlds[n], ops[n], worlds[n + 1]);
    StepEffects(worlds[n], ops[n], worlds[n + 1]);
    var net := worlds[n + 1].net;
    forall msg | msg in net
      ensures Explained(worlds, ops, n + 1, msg)
    {
      if msg in worlds[n].net {
        ExplainedStays(worlds, ops, n, msg);
      } else {
        NewMessageExplained(worlds, ops, n, msg);
      }
    }
  }

  lemma NextFlightsExplained(worlds: seq<World>, ops: seq<Op>, n: nat)
    requires Runs(worlds, ops) && n < |ops| && AllExplained(worlds, ops, n)
    ensures FlightsExplained(worlds, ops, n + 1, worlds[n + 1].drones)
  {
    hide B.Step, R.Step;
    var w, op, w' := worlds[n], ops[n], worlds[n + 1];
    assert Step(w, op, w');
    StepEffects(w, op, w');
    forall d | d in w'.drones && w'.drones[d].InFlight?
      ensures TakenBefore(worlds, ops, n + 1, d, w'.drones[d].mission)
    {
      var m := w'.drones[d].mission;
      if op == DroneTakes(d, m) {
        assert Explained(worlds, ops, n, PullReply(d, m));
        assert CheckedOutBefore(worlds, ops, n, m);
      } else {
        assert d in w.drones && w.drones[d] == w'.drones[d];
        var j :| 0 <= j < n && ops[j] == DroneTakes(d, m) && CheckedOutBefore(worlds, ops, j, m);
      }
    }
  }

  /** Only a SUCCESS message for a pending event discharges it. */
  lemma OnlyResolvingDischarges(w: World, op: Op, w': World, b: string, e: string)
    requires Step(w, op, w') && b in w.brokers && b in w'.brokers
    requires Times(w'.brokers[b].discharged, e) > Times(w.brokers[b].discharged, e)
    ensures op.BrokerResolves? && op.broker == b && op.action == "SUCCESS" && Id(op.mission) == e
    ensures e in w.brokers[b].pending && ResolveMessage(op.action, op.mission) in w.net
  {
  }

  /**
   * A broker discharges an event only after some drone finished a flight for it, which that drone began by taking
   * the mission, after some broker had checked the mission out.
   */
  lemma DischargeIsCausal(worlds: seq<World>, ops: seq<Op>, i: nat, b: string, e: string)
    requires Runs(worlds, ops) && i < |ops|
    requires b in worlds[i].brokers && b in worlds[i + 1].brokers
    requires Times(worlds[i + 1].brokers[b].discharged, e) > Times(worlds[i].brokers[b].discharged, e)
    ensures FlownBefore(worlds, ops, i, e) && e in worlds[i].brokers[b].pending
  {
    assert Step(worlds[i], ops[i], worlds[i + 1]);
    OnlyResolvingDischarges(worlds[i], ops[i], worlds[i + 1], b, e);
    EverythingExplained(worlds, ops, i);
    assert Explained(worlds, ops, i, ResolveMessage(ops[i].action, ops[i].mission));
  }

  ghost predicate PartsInv(w: World) {
    && (forall b :: b in w.brokers ==> B.Inv(w.brokers[b]))
    && (forall s :: s in w.stations ==> R.Inv(w.stations[s].leases))
  }

  lemma FreshParts()
    ensures B.Inv(B.START) && R.Inv(R.READY)
  {
  }

  function BrokerOp(w: World, op: Op): Option<B.Op> {
    match op
    case BrokerMoves(_, move) => Some(move)
    case BrokerReplies(_, hand, now) => Some(B.Checkout(hand, now))
    case BrokerResolves(_, action, m) => Some(B.Resolve(action, m))
    case _ => None
  }

  function LeaseOp(op: Op): Option<R.Op> {
    match op
    case StationLends(_, _, m, _) => Some(R.Mark(m, LEASE_SECONDS))
    case StationMoves(_, move, _) => Some(move)
    case StationPutsBack(_, hand, _) => Some(R.PutBack(hand))
    case StationConfirms(_, _, e, _) => Some(R.Ack(e))
    case _ => None
  }

  lemma StepKeepsParts(w: World, op: Op, w': World)
    requires Step(w, op, w') && PartsInv(w)
    ensures PartsInv(w')
  {
    hide B.Step, R.Step, B.Inv, R.Inv;
    FreshParts();
    if BrokerOp(w, op).Some? {
      B.StepKeepsInv(w.brokers[op.broker], BrokerOp(w, op).value, w'.brokers[op.broker]);
    } else if LeaseOp(op).Some? {
      R.StepKeepsInv(w.stations[op.station].leases, LeaseOp(op).value, op.now, w'.stations[op.station].leases);
    }
  }

  /** In the whole system, too, every broker has each of its events in one place and every station its leases. */
  lemma {:induction false} PartsKeepInvariants(worlds: seq<World>, ops: seq<Op>, n: nat)
    requires Runs(worlds, ops) && n <= |ops|
    ensures PartsInv(worlds[n])
  {
    if n == 0 {
      FreshParts();
    } else {
      PartsKeepInvariants(worlds, ops, n - 1);
      assert Step(worlds[n - 1], ops[n - 1], worlds[n - 1 + 1]);
      StepKeepsParts(worlds[n - 1], ops[n - 1], worlds[n]);
    }
  }

  // ---------- when a station takes a mission back ----------

  /** How one step changes the station's lease for the event. */
  lemma LeaseAfter(w: World, op: Op, w': World, s: string, e: string)
    requires Step(w, op, w') && s in w'.stations && e in w'.stations[s].leases.records
    ensures if (op.StationLends? && op.station == s && Id(op.mission) == e)
               || (op.StationMoves? && op.station == s && op.move == R.Renew(e, 10, true))
            then w'.stations[s].leases.records[e].expiresAt == op.now + 10
            else s in w.stations && e in w.stations[s].leases.records
                 && w'.stations[s].leases.records[e] == w.stations[s].leases.records[e]
  {
    hide B.Step, Aging.Step;
  }

  /** A lease runs until ten seconds after the event was last lent or its lease was last renewed. */
  lemma {:induction false} LastLease(worlds: seq<World>, ops: seq<Op>, n: nat, s: string, e: string) returns (c: nat)
    requires Runs(worlds, ops) && n <= |ops| && s in worlds[n].stations && e in worlds[n].stations[s].leases.records
    ensures c < n
    ensures (ops[c].StationLends? && ops[c].station == s && Id(ops[c].mission) == e)
            || (ops[c].StationMoves? && ops[c].station == s && ops[c].move == R.Renew(e, 10, true))
    ensures worlds[n].stations[s].leases.records[e].expiresAt == ops[c].now + 10
    ensures forall i :: c < i < n ==>
              !((ops[i].StationLends? && ops[i].station == s && Id(ops[i].mission) == e)
                || (ops[i].StationMoves? && ops[i].station == s && ops[i].move == R.Renew(e, 10, true)))
  {
    hide Step;
    var op := ops[n - 1];
    assert Step(worlds[n - 1], op, worlds[n - 1 + 1]);
    LeaseAfter(worlds[n - 1], op, worlds[n], s, e);
    if (op.StationLends? && op.station == s && Id(op.mission) == e)
       || (op.StationMoves? && op.station == s && op.move == R.Renew(e, 10, true)) {
      c := n - 1;
    } else {
      c := LastLease(worlds, ops, n - 1, s, e);
    }
  }

  lemma SweepsExactly(w: World, s: string, e: string, now: int)
    requires s in w.stations && e in w.stations[s].leases.records
    ensures (exists w' :: Step(w, StationMoves(s, R.SweepTakes(e), now), w'))
            <==> now > w.stations[s].leases.records[e].expiresAt
  {
    hide B.Step, Aging.Step;
    var leases := w.stations[s].leases;
    var swept := leases.(records := leases.records - {e}, held := leases.held + [leases.records[e].mission]);
    var w' := w.(stations := w.stations[s := w.stations[s].(leases := swept)]);
    assert w.net + {} == w.net;
    assert now > leases.records[e].expiresAt ==> Step(w, StationMoves(s, R.SweepTakes(e), now), w');
  }

  /**
   * In every run, crashes included, a sweep may take a mission from its drone if and only if more than ten seconds
   * have gone by since the station last lent it or renewed its lease.
   */
  lemma SweptExactly(worlds: seq<World>, ops: seq<Op>, n: nat, s: string, e: string, now: int) returns (c: nat)
    requires Runs(worlds, ops) && n <= |ops| && s in worlds[n].stations && e in worlds[n].stations[s].leases.records
    ensures c < n
    ensures (ops[c].StationLends? && ops[c].station == s && Id(ops[c].mission) == e)
            || (ops[c].StationMoves? && ops[c].station == s && ops[c].move == R.Renew(e, 10, true))
    ensures forall i :: c < i < n ==>
              !((ops[i].StationLends? && ops[i].station == s && Id(ops[i].mission) == e)
                || (ops[i].StationMoves? && ops[i].station == s && ops[i].move == R.Renew(e, 10, true)))
    ensures (exists w' :: Step(worlds[n], StationMoves(s, R.SweepTakes(e), now), w')) <==> now > ops[c].now + 10
  {
    hide Step;
    c := LastLease(worlds, ops, n, s, e);
    SweepsExactly(worlds[n], s, e, now);
  }

  // ---------- a mission that outlives its drone ----------

  /** The mission alone is queued at the broker, and the station has nothing in flight. */
  ghost predicate IsQueued(w: World, b: string, s: string, m: Mission) {
    && b in w.brokers && s in w.stations
    && var broker, station := w.brokers[b], w.stations[s];
    && broker.queue == [m] && broker.popped == [] && broker.pending == map[] && broker.returning == []
    && station.leases.records == map[] && station.leases.held == [] && station.fallback == []
  }

  /** The drone flies the mission, which is pending at the broker and lent at the station until ten seconds later. */
  ghost predicate IsFlown(w: World, b: string, s: string, d: string, m: Mission, now: int) {
    && b in w.brokers && s in w.stations && At(w, d) == InFlight(m)
    && var broker, station := w.brokers[b], w.stations[s];
    && broker.queue == [] && broker.popped == [] && broker.returning == []
    && broker.pending == map[Id(m) := B.PendingMission(m, now)]
    && station.leases.records == map[Id(m) := R.InFlightRecord(m, now + 10)]
    && station.leases.held == [] && station.fallback == []
  }

  ghost predicate GoesOnFrom(worlds: seq<World>, ops: seq<Op>, more: seq<World>, done: seq<Op>) {
    |worlds| > 0 && |more| > 0 && more[0] == worlds[0] && forall op :: op in ops ==> op in done
  }

  lemma OneMoreStep(worlds: seq<World>, ops: seq<Op>, op: Op, next: World) returns (more: seq<World>, done: seq<Op>)
    requires Runs(worlds, ops) && Step(worlds[|ops|], op, next)
    ensures Runs(more, done) && done == ops + [op] && more[|done|] == next
    ensures GoesOnFrom(worlds, ops, more, done) && op in done
  {
    hide Step;
    more, done := worlds + [next], ops + [op];
  }

  lemma OnlyOne(m: Mission)
    ensures Aging.Step(0, [m], Aging.Dequeued(m), []) && Aging.Step(0, [], Aging.Enqueued(m), [m])
  {
    LessIsWeakOrder(m, m, m);
  }

  /** A queued mission can be popped, lent to a drone and taken by it. */
  lemma CanBeFlown(worlds: seq<World>, ops: seq<Op>, b: string, s: string, d: string, m: Mission, now: int)
    returns (more: seq<World>, done: seq<Op>)
    requires Runs(worlds, ops) && IsQueued(worlds[|ops|], b, s, m) && At(worlds[|ops|], d) == Idle && Id(m) != ""
    ensures Runs(more, done) && GoesOnFrom(worlds, ops, more, done) && DroneTakes(d, m) in done
    ensures IsFlown(more[|done|], b, s, d, m, now)
    ensures more[|done|].brokers[b].discharged == worlds[|ops|].brokers[b].discharged
    ensures forall x :: x != d ==> At(more[|done|], x) == At(worlds[|ops|], x)
  {
    hide Aging.Step;
    OnlyOne(m);
    more, done := worlds, ops;
    var w := worlds[|ops|];
    var popped := w.brokers[b].(queue := [], popped := [m]);
    w := w.(brokers := w.brokers[b := popped], net := w.net + {});
    more, done := OneMoreStep(more, done, BrokerMoves(b, B.Pop(m)), w);
    hide Runs;
    var pending := popped.(popped := [], pending := map[Id(m) := B.PendingMission(m, now)]);
    assert Without([m], 0) == [] && pending.overwritten + [] == pending.overwritten;
    w := w.(brokers := w.brokers[b := pending], net := w.net + {PopReply(m)});
    more, done := OneMoreStep(more, done, BrokerReplies(b, 0, now), w);
    more, done := CanBeLent(more, done, s, d, m, now);
  }

  lemma CanBeLent(worlds: seq<World>, ops: seq<Op>, s: string, d: string, m: Mission, now: int)
    returns (more: seq<World>, done: seq<Op>)
    requires Runs(worlds, ops) && s in worlds[|ops|].stations && worlds[|ops|].stations[s].leases.records == map[]
    requires PopReply(m) in worlds[|ops|].net && At(worlds[|ops|], d) == Idle && Id(m) != ""
    ensures Runs(more, done) && GoesOnFrom(worlds, ops, more, done) && DroneTakes(d, m) in done
    ensures var w := worlds[|ops|];
            var leases := w.stations[s].leases.(
                            records := map[Id(m) := R.InFlightRecord(m, now + 10)],
                            marked := w.stations[s].leases.marked + [Id(m)]);
            more[|done|] == w.(stations := w.stations[s := w.stations[s].(leases := leases)],
                               drones := w.drones[d := InFlight(m)], net := w.net + {PullReply(d, m)})
  {
    var w := worlds[|ops|];
    var leases := w.stations[s].leases.(records := map[Id(m) := R.InFlightRecord(m, now + 10)],
                                        marked := w.stations[s].leases.marked + [Id(m)]);
    w := w.(stations := w.stations[s := w.stations[s].(leases := leases)], net := w.net + {PullReply(d, m)});
    more, done := OneMoreStep(worlds, ops, StationLends(s, d, m, now), w);
    hide Runs;
    w := w.(drones := w.drones[d := InFlight(m)]);
    more, done := OneMoreStep(more, done, DroneTakes(d, m), w);
  }

  /** A flown mission can lose its drone: its lease expires, the station gives it up, and it is queued again. */
  lemma CanLoseDrone(worlds: seq<World>, ops: seq<Op>, b: string, s: string, d: string, m: Mission, now: int)
    returns (more: seq<World>, done: seq<Op>)
    requires Runs(worlds, ops) && IsFlown(worlds[|ops|], b, s, d, m, now)
    ensures Runs(more, done) && GoesOnFrom(worlds, ops, more, done) && DroneAborts(d) in done
    ensures IsQueued(more[|done|], b, s, m)
    ensures more[|done|].brokers[b].discharged == worlds[|ops|].brokers[b].discharged
    ensures At(more[|done|], d) == Idle && forall x :: x != d ==> At(more[|done|], x) == At(worlds[|ops|], x)
  {
    hide Aging.Step;
    OnlyOne(m);
    var w := worlds[|ops|].(drones := worlds[|ops|].drones[d := Idle]);
    more, done := OneMoreStep(worlds, ops, DroneAborts(d), w);
    hide Runs;
    more, done := CanGiveUp(more, done, s, m, now);
    w := more[|done|];
    var broker := w.brokers[b].(pending := map[], returning := [m]);
    more, done := OneMoreStep(more, done, BrokerResolves(b, "REQUEUE", m),
                              w.(brokers := w.brokers[b := broker], net := w.net + {}));
    w := more[|done|];
    assert Without([m], 0) == [];
    more, done := OneMoreStep(more, done, BrokerMoves(b, B.Return(0)),
                              w.(brokers := w.brokers[b := broker.(queue := [m], returning := [])], net := w.net + {}));
  }

  /** The station after the sweep has taken out its one lease, has put the mission back, and has given it up. */
  function Swept(w: World, s: string, m: Mission): World
    requires s in w.stations
  {
    w.(stations := w.stations[s := w.stations[s].(leases := w.stations[s].leases.(records := map[], held := [m]))],
       net := w.net + {})
  }

  function PutBack(w: World, s: string, m: Mission): World
    requires s in w.stations
  {
    var leases := w.stations[s].leases;
    w.(stations := w.stations[s := Station(leases.(held := [], returned := leases.returned + [Id(m)]), [m])],
       net := w.net + {})
  }

  function GivenUp(w: World, s: string, m: Mission): World
    requires s in w.stations
  {
    w.(stations := w.stations[s := w.stations[s].(fallback := [])], net := w.net + {ResolveMessage("REQUEUE", m)})
  }

  lemma CanBeSwept(w: World, s: string, m: Mission, now: int)
    requires s in w.stations && w.stations[s].leases.records == map[Id(m) := R.InFlightRecord(m, now + 10)]
    requires w.stations[s].leases.held == []
    ensures Step(w, StationMoves(s, R.SweepTakes(Id(m)), now + 11), Swept(w, s, m))
  {
    hide Aging.Step, B.Step;
    assert w.stations[s].leases.records - {Id(m)} == map[];
    assert w.stations[s].leases.held + [m] == [m];
  }

  lemma CanBePutBack(w: World, s: string, m: Mission, now: int)
    requires s in w.stations && w.stations[s].leases.held == [m] && w.stations[s].fallback == []
    ensures Step(w, StationPutsBack(s, 0, now), PutBack(w, s, m))
  {
    hide Aging.Step, B.Step;
    OnlyOne(m);
    assert Without([m], 0) == [];
  }

  lemma CanBeGivenUp(w: World, s: string, m: Mission)
    requires s in w.stations && w.stations[s].fallback == [m]
    ensures Step(w, StationGivesUp(s, m), GivenUp(w, s, m))
  {
    hide Aging.Step, B.Step;
    OnlyOne(m);
  }

  lemma CanGiveUp(worlds: seq<World>, ops: seq<Op>, s: string, m: Mission, now: int)
    returns (more: seq<World>, done: seq<Op>)
    requires Runs(worlds, ops) && s in worlds[|ops|].stations
    requires var station := worlds[|ops|].stations[s];
             && station.leases.records == map[Id(m) := R.InFlightRecord(m, now + 10)]
             && station.leases.held == [] && station.fallback == []
    ensures Runs(more, done) && GoesOnFrom(worlds, ops, more, done)
    ensures var w, w' := worlds[|ops|], more[|done|];
            && w'.brokers == w.brokers && w'.drones == w.drones && ResolveMessage("REQUEUE", m) in w'.net
            && s in w'.stations && w'.stations[s].fallback == []
            && w'.stations[s].leases.records == map[] && w'.stations[s].leases.held == []
  {
    hide Step;
    var w := worlds[|ops|];
    CanBeSwept(w, s, m, now);
    more, done := OneMoreStep(worlds, ops, StationMoves(s, R.SweepTakes(Id(m)), now + 11), Swept(w, s, m));
    hide Runs;
    w := more[|done|];
    CanBePutBack(w, s, m, now + 11);
    more, done := OneMoreStep(more, done, StationPutsBack(s, 0, now + 11), PutBack(w, s, m));
    w := more[|done|];
    CanBeGivenUp(w, s, m);
    more, done := OneMoreStep(more, done, StationGivesUp(s, m), GivenUp(w, s, m));
  }

  /** A flown mission can be finished, confirmed and discharged. */
  lemma CanBeDischarged(worlds: seq<World>, ops: seq<Op>, b: string, s: string, d: string, m: Mission, now: int)
    returns (more: seq<World>, done: seq<Op>)
    requires Runs(worlds, ops) && IsFlown(worlds[|ops|], b, s, d, m, now)
    ensures Runs(more, done) && GoesOnFrom(worlds, ops, more, done) && DroneFinishes(d) in done
    ensures b in more[|done|].brokers
    ensures more[|done|].brokers[b].discharged == worlds[|ops|].brokers[b].discharged + [Id(m)]
    ensures more[|done|].brokers[b].queue == [] && more[|done|].brokers[b].pending == map[]
  {
    hide Aging.Step;
    var w := worlds[|ops|];
    var e := Id(m);
    more, done := OneMoreStep(worlds, ops, DroneFinishes(d),
                              w.(drones := w.drones[d := Idle], net := w.net + {AckMessage(d, e)}));
    hide Runs;
    w := more[|done|];
    var leases := w.stations[s].leases.(records := map[], acknowledged := w.stations[s].leases.acknowledged + [e]);
    more, done := OneMoreStep(more, done, StationConfirms(s, d, e, now),
                              w.(stations := w.stations[s := Station(leases, [])], net := w.net + {Confirmation(e)}));
    w := more[|done|];
    var broker := w.brokers[b].(pending := map[], discharged := w.brokers[b].discharged + [e]);
    more, done := OneMoreStep(more, done, BrokerResolves(b, "SUCCESS", Confirmation(e).mission),
                              w.(brokers := w.brokers[b := broker], net := w.net + {}));
  }

  /**
   * A mission outlives its drone: some run lends it to one drone, which is lost, takes it back when the lease has
   * expired, queues it again, and lends it to another drone, whose flight discharges it, once.
   */
  lemma MissionOutlivesDrone(b: string, s: string, lost: string, other: string, m: Mission)
    returns (worlds: seq<World>, ops: seq<Op>)
    requires Id(m) != "" && lost != other
    ensures Runs(worlds, ops) && worlds[0].brokers.Keys == {b} && worlds[0].stations.Keys == {s}
    ensures DroneTakes(lost, m) in ops && DroneAborts(lost) in ops && DroneFinishes(other) in ops
    ensures b in worlds[|ops|].brokers && worlds[|ops|].brokers[b].discharged == [Id(m)]
    ensures worlds[|ops|].brokers[b].queue == [] && worlds[|ops|].brokers[b].pending == map[]
  {
    hide Aging.Step;
    OnlyOne(m);
    var start := World(map[b := B.START], map[s := Station(R.READY, [])], map[], {});
    worlds, ops := [start], [];
    assert Runs(worlds, ops);
    hide Runs;
    var admitted := B.START.(queue := [m], admitted := [Id(m)]);
    worlds, ops := OneMoreStep(worlds, ops, BrokerMoves(b, B.Admit(m)),
                               start.(brokers := map[b := admitted], net := {} + {}));
    hide Step;
    worlds, ops := CanBeFlown(worlds, ops, b, s, lost, m, 0);
    worlds, ops := CanLoseDrone(worlds, ops, b, s, lost, m, 0);
    worlds, ops := CanBeFlown(worlds, ops, b, s, other, m, 11);
    worlds, ops := CanBeDischarged(worlds, ops, b, s, other, m, 11);
  }
}
