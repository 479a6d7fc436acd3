/**
 * How an event's packets travel among brokers, and who charges for it, while no filter forgets the event. A packet
 * or verdict, once sent, may arrive at any later time, never, or again.
 */
module Forwarding {
  import opened Missions
  import opened Permutations
  import opened SectorRouting
  import Lamport = LamportClock
  import I = Intake
  import WaitingRoom

  /** The brokers by their addresses, with what their workers have sent, and the packets that sensors have sent. */
  datatype World = World(brokers: map<string, I.Broker>, sensed: set<(string, SensorData)>)

  datatype Op =
    | Sensed(to: string, data: SensorData)
    | At(broker: string, move: I.Op)

  function SiteOf(ring: Ring, b: string): I.Site {
    I.Site(ring, {b}, b)
  }

  predicate Arrives(w: World, b: string, data: SensorData) {
    (b, data) in w.sensed || exists c :: c in w.brokers && (b, data) in w.brokers[c].packets
  }

  predicate IsTold(w: World, b: string, action: string, m: Mission) {
    exists c :: c in w.brokers && (b, action, m) in w.brokers[c].verdicts
  }

  /** A broker takes in only what was sent to it; all else is its own doing. */
  predicate Delivered(w: World, b: string, move: I.Op) {
    match move
    case Receives(data) => Arrives(w, b, data)
    case Hears(action, e, m) => e == Id(m) && IsTold(w, b, action, m)
    case _ => true
  }

  ghost predicate Step(ring: Ring, w: World, op: Op, w': World) {
    match op
    case Sensed(to, data) => w' == w.(sensed := w.sensed + {(to, data)})
    case At(b, move) =>
      && b in w.brokers && b in w'.brokers && Delivered(w, b, move)
      && I.Step(SiteOf(ring, b), w.brokers[b], move, w'.brokers[b])
      && w' == w.(brokers := w.brokers[b := w'.brokers[b]])
  }

  ghost predicate Runs(ring: Ring, worlds: seq<World>, ops: seq<Op>) {
    && |worlds| == |ops| + 1
    && worlds[0].sensed == {} && (forall b :: b in worlds[0].brokers ==> worlds[0].brokers[b] == I.START)
    && forall i :: 0 <= i < |ops| ==> Step(ring, worlds[i], ops[i], worlds[i + 1])
  }

  // ---------- every broker keeps its own invariant ----------

  ghost predicate Inv(brokers: map<string, I.Broker>) {
    forall b :: b in brokers ==> I.Inv(brokers[b])
  }

  lemma StartKeepsInv()
    ensures I.Inv(I.START)
  {
  }

  lemma StepKeepsInv(ring: Ring, w: World, op: Op, w': World)
    requires Inv(w.brokers) && Step(ring, w, op, w')
    ensures Inv(w'.brokers) && w'.brokers.Keys == w.brokers.Keys
    ensures forall b :: b in w.brokers ==> w.brokers[b].known <= w'.brokers[b].known
  {
    hide I.Inv, I.Step;
    if op.At? {
      I.StepKeepsInv(SiteOf(ring, op.broker), w.brokers[op.broker], op.move, w'.brokers[op.broker]);
    }
  }

  lemma {:induction false} RunKeepsInv(ring: Ring, worlds: seq<World>, ops: seq<Op>, n: nat)
    requires Runs(ring, worlds, ops) && n <= |ops|
    ensures Inv(worlds[n].brokers) && worlds[n].brokers.Keys == worlds[0].brokers.Keys
  {
    hide I.Inv, Step;
    if n == 0 {
      StartKeepsInv();
    } else {
      RunKeepsInv(ring, worlds, ops, n - 1);
      assert Step(ring, worlds[n - 1], ops[n - 1], worlds[n - 1 + 1]);
      StepKeepsInv(ring, worlds[n - 1], ops[n - 1], worlds[n]);
    }
  }

  // ---------- past each filter at most once ----------

  predicate Passes(w: World, op: Op, e: string) {
    op.At? && op.broker in w.brokers && WaitingRoom.LetsIn(w.brokers[op.broker], op.move, e)
  }

  lemma {:induction false} KnownStays(ring: Ring, worlds: seq<World>, ops: seq<Op>, i: nat, j: nat, b: string)
    requires Runs(ring, worlds, ops) && i <= j <= |ops| && b in worlds[i].brokers
    ensures b in worlds[j].brokers && worlds[i].brokers[b].known <= worlds[j].brokers[b].known
    decreases j
  {
    hide I.Inv, Step;
    if i < j {
      KnownStays(ring, worlds, ops, i, j - 1, b);
      RunKeepsInv(ring, worlds, ops, j - 1);
      assert Step(ring, worlds[j - 1], ops[j - 1], worlds[j - 1 + 1]);
      StepKeepsInv(ring, worlds[j - 1], ops[j - 1], worlds[j]);
    }
  }

  lemma PassedIsKnown(ring: Ring, w: World, op: Op, w': World, e: string)
    requires Step(ring, w, op, w') && Passes(w, op, e)
    ensures op.broker in w'.brokers && e in w'.brokers[op.broker].known && e !in w.brokers[op.broker].known
  {
    hide I.Step;
    WaitingRoom.KnownByStep(SiteOf(ring, op.broker), w.brokers[op.broker], op.move, w'.brokers[op.broker], e);
  }

  /** Whatever each broker believes about owners, an event gets past each filter at most once. */
  lemma PassesEachFilterOnce(ring: Ring, worlds: seq<World>, ops: seq<Op>, i: nat, j: nat, e: string)
    requires Runs(ring, worlds, ops) && i < j < |ops|
    requires Passes(worlds[i], ops[i], e) && Passes(worlds[j], ops[j], e)
    ensures ops[i].broker != ops[j].broker
  {
    hide Step;
    assert Step(ring, worlds[i], ops[i], worlds[i + 1]);
    PassedIsKnown(ring, worlds[i], ops[i], worlds[i + 1], e);
    KnownStays(ring, worlds, ops, i + 1, j, ops[i].broker);
  }

  function PassCount(worlds: seq<World>, ops: seq<Op>, n: nat, e: string): nat
    requires n <= |ops| < |worlds|
  {
    if n == 0 then 0 else PassCount(worlds, ops, n - 1, e) + if Passes(worlds[n - 1], ops[n - 1], e) then 1 else 0
  }

  function Knowing(brokers: map<string, I.Broker>, e: string): set<string> {
    set b | b in brokers && e in brokers[b].known
  }

  /** So all handling of an event stops: workers take it up at most as often as there are brokers. */
  lemma {:induction false} ForwardingEnds(ring: Ring, worlds: seq<World>, ops: seq<Op>, n: nat, e: string)
    requires Runs(ring, worlds, ops) && n <= |ops|
    ensures PassCount(worlds, ops, n, e) <= |Knowing(worlds[n].brokers, e)| <= |worlds[0].brokers.Keys|
  {
    hide I.Inv, Step, Passes;
    RunKeepsInv(ring, worlds, ops, n);
    if n > 0 {
      ForwardingEnds(ring, worlds, ops, n - 1, e);
      RunKeepsInv(ring, worlds, ops, n - 1);
      var w, op, w' := worlds[n - 1], ops[n - 1], worlds[n];
      assert Step(ring, w, op, worlds[n - 1 + 1]);
      StepKeepsInv(ring, w, op, w');
      KnowingGrows(ring, w, op, w', e);
    }
    Smaller(Knowing(worlds[n].brokers, e), worlds[n].brokers.Keys);
  }

  lemma KnowingGrows(ring: Ring, w: World, op: Op, w': World, e: string)
    requires Inv(w.brokers) && Step(ring, w, op, w')
    ensures |Knowing(w.brokers, e)| + (if Passes(w, op, e) then 1 else 0) <= |Knowing(w'.brokers, e)|
  {
    StepKeepsInv(ring, w, op, w');
    if Passes(w, op, e) {
      PassedIsKnown(ring, w, op, w', e);
      hide Step, Inv;
      Smaller(Knowing(w.brokers, e) + {op.broker}, Knowing(w'.brokers, e));
    } else {
      hide Step, Inv;
      Smaller(Knowing(w.brokers, e), Knowing(w'.brokers, e));
    }
  }

  // ---------- chains of forwards ----------

  /** The packet a worker handles. */
  function DataOf(w: I.Worker): SensorData {
    if w.Passed? || w.Ticked? then w.data else w.mission.payload
  }

  predicate IsStamped(w: I.Worker) {
    !w.Passed? && !w.Ticked?
  }

  /** The one broker's worker forwarded the event to the other, whose worker handles that very packet. */
  ghost predicate Hands(w: World, sender: string, receiver: string, e: string) {
    && sender in w.brokers && e in w.brokers[sender].workers && w.brokers[sender].workers[e].Forwarded?
    && receiver in w.brokers && e in w.brokers[receiver].workers
    && w.brokers[sender].workers[e].owner == receiver
    && DataOf(w.brokers[receiver].workers[e]) == I.Packet(w.brokers[sender].workers[e].mission)
  }

  ghost predicate IsChain(w: World, hops: seq<string>, e: string) {
    forall k :: 0 <= k < |hops| - 1 ==> Hands(w, hops[k], hops[k + 1], e)
  }

  /** Whether the clock operation computes its result within 64 bits. */
  predicate Fits(b: I.Broker, move: I.Op) {
    match move
    case Ticks(_) => b.clock + 1 < Lamport.WORD
    case Syncs(e) =>
      b.clock + 1 < Lamport.WORD
      && (e in b.workers && b.workers[e].Ticked? ==> b.workers[e].data.internalClock + 1 < Lamport.WORD)
    case _ => true
  }

  ghost predicate NoOverflow(worlds: seq<World>, ops: seq<Op>) {
    |worlds| == |ops| + 1 &&
    forall i :: 0 <= i < |ops| && ops[i].At? && ops[i].broker in worlds[i].brokers ==>
      Fits(worlds[i].brokers[ops[i].broker], ops[i].move)
  }

  predicate StampsRise(b: I.Broker) {
    forall e :: e in b.workers && IsStamped(b.workers[e]) ==>
      b.workers[e].mission.lamportClock > b.workers[e].mission.payload.internalClock
  }

  lemma StepKeepsStamps(site: I.Site, b: I.Broker, move: I.Op, b': I.Broker)
    requires I.Step(site, b, move, b') && StampsRise(b) && Fits(b, move)
    ensures StampsRise(b')
  {
    hide Owner, I.IsElsewhere, I.IsMissionRequest, I.Packet;
  }

  /** A stamp is later than the packet's clock, because it comes from a tick, or from a sync with that clock. */
  lemma {:induction false} StampsAlwaysRise(ring: Ring, worlds: seq<World>, ops: seq<Op>, n: nat, b: string)
    requires Runs(ring, worlds, ops) && NoOverflow(worlds, ops) && n <= |ops| && b in worlds[n].brokers
    ensures StampsRise(worlds[n].brokers[b])
  {
    hide I.Step, StampsRise, Fits;
    if n == 0 {
      NoStamps();
    } else {
      var op := ops[n - 1];
      assert Step(ring, worlds[n - 1], op, worlds[n - 1 + 1]);
      StampsAlwaysRise(ring, worlds, ops, n - 1, b);
      if op.At? && op.broker == b {
        StepKeepsStamps(SiteOf(ring, b), worlds[n - 1].brokers[b], op.move, worlds[n].brokers[b]);
      }
    }
  }

  lemma NoStamps()
    ensures StampsRise(I.START)
  {
  }

  /** Along a chain of forwards the clocks rise strictly, and so no broker comes twice. */
  lemma {:induction false} ChainsClimb(
    ring: Ring, worlds: seq<World>, ops: seq<Op>, n: nat, hops: seq<string>, e: string, i: nat, j: nat)
    requires Runs(ring, worlds, ops) && NoOverflow(worlds, ops) && n <= |ops|
    requires IsChain(worlds[n], hops, e) && i < j < |hops|
    ensures Hands(worlds[n], hops[i], hops[i + 1], e) && Hands(worlds[n], hops[j - 1], hops[j - 1 + 1], e)
    ensures var first, last := worlds[n].brokers[hops[i]].workers[e], worlds[n].brokers[hops[j]].workers[e];
            DataOf(first).internalClock < first.mission.lamportClock <= DataOf(last).internalClock
    ensures hops[i] != hops[j]
    decreases j
  {
    hide Step, NoOverflow;
    var w := worlds[n];
    assert Hands(w, hops[i], hops[i + 1], e) && Hands(w, hops[j - 1], hops[j - 1 + 1], e);
    StampsAlwaysRise(ring, worlds, ops, n, hops[j - 1]);
    if i < j - 1 {
      ChainsClimb(ring, worlds, ops, n, hops, e, i, j - 1);
    }
  }

  // ---------- who charges ----------

  /** The member sets that each broker may have in view during a run. */
  type Views = map<string, set<set<string>>>

  /**
   * Sensors name the same sector in every packet of the event, and each broker only ever routes by views from a set of
   * its own, right or wrong, among which it may change.
   */
  predicate Fair(views: Views, sector: int, e: string, op: Op) {
    && (op.Sensed? && op.data.eventID == e ==> op.data.sectorID == sector)
    && (op.At? && op.move.Routes? ==> op.broker in views && op.move.view in views[op.broker])
  }

  ghost predicate RunsWith(
    ring: Ring, views: Views, sector: int, e: string, worlds: seq<World>, ops: seq<Op>) {
    && Runs(ring, worlds, ops) && worlds[0].brokers.Keys == views.Keys
    && forall i :: 0 <= i < |ops| ==> Fair(views, sector, e, ops[i])
  }

  /** By this view the broker is the sector's owner, or its ring is empty. */
  predicate IsOwner(ring: Ring, view: set<string>, sector: int, b: string) {
    !I.IsElsewhere(SiteOf(ring, b), Owner(ring, view, sector))
  }

  /** By one of its views the broker is the owner. */
  predicate ElectsItself(ring: Ring, views: Views, sector: int, b: string) {
    b in views && exists view :: view in views[b] && IsOwner(ring, view, sector, b)
  }

  /** By one of its views the owner is this other broker. */
  predicate Elects(ring: Ring, views: Views, sector: int, b: string, owner: string) {
    && b in views
    && exists view :: view in views[b] && !IsOwner(ring, view, sector, b) && owner == Owner(ring, view, sector)
  }

  predicate IsForeign(w: I.Worker) {
    w.Foreign? || w.Parked? || w.Forwarded?
  }

  predicate IsOwn(w: I.Worker) {
    w.Own? || w.Paid? || w.Answered? || w.Announced?
  }

  /** The worker handles the sector's packet, and went the way its broker's view sent it. */
  predicate WentItsWay(ring: Ring, views: Views, sector: int, b: string, w: I.Worker) {
    && DataOf(w).sectorID == sector
    && (IsOwn(w) ==> ElectsItself(ring, views, sector, b))
    && (IsForeign(w) ==> Elects(ring, views, sector, b, w.owner))
  }

  ghost predicate AllWentTheirWay(
    ring: Ring, views: Views, sector: int, e: string, brokers: map<string, I.Broker>) {
    forall b :: b in brokers && e in brokers[b].workers ==> WentItsWay(ring, views, sector, b, brokers[b].workers[e])
  }

  lemma WorkerGoesItsWay(
    ring: Ring, views: Views, sector: int, e: string, b: string,
    s: I.Broker, move: I.Op, s': I.Broker)
    requires I.WorkersKnown(s) && I.Step(SiteOf(ring, b), s, move, s') && e in s'.workers
    requires e in s.workers ==> WentItsWay(ring, views, sector, b, s.workers[e])
    requires move.Receives? && move.data.eventID == e ==> move.data.sectorID == sector
    requires move.Routes? ==> b in views && move.view in views[b]
    ensures WentItsWay(ring, views, sector, b, s'.workers[e])
  {
    hide Owner, I.IsElsewhere, I.IsMissionRequest, I.Packet, Lamport.Next, Lamport.Incremented;
    if move.Routes? {
      assert IsOwner(ring, move.view, sector, b) <==> !I.IsElsewhere(SiteOf(ring, b), Owner(ring, move.view, sector));
    }
    hide IsOwner;
    if move.Routes? && move.eventID == e {
      assert IsOwner(ring, move.view, sector, b) || Elects(ring, views, sector, b, Owner(ring, move.view, sector));
    } else {
      hide ElectsItself, Elects;
    }
  }

  /** Every packet of the event names the sector, and every worker on it went the way its broker's views sent it. */
  ghost predicate GoesRight(ring: Ring, views: Views, sector: int, e: string, w: World) {
    && Inv(w.brokers) && AllWentTheirWay(ring, views, sector, e, w.brokers)
    && forall receiver: string, data: SensorData ::
         (receiver, data) in w.sensed && data.eventID == e ==> data.sectorID == sector
  }

  lemma StepGoesRight(ring: Ring, views: Views, sector: int, e: string, w: World, op: Op, w': World)
    requires GoesRight(ring, views, sector, e, w) && Step(ring, w, op, w') && Fair(views, sector, e, op)
    ensures GoesRight(ring, views, sector, e, w')
  {
    hide I.Step, WentItsWay, Delivered, I.Inv;
    StepKeepsInv(ring, w, op, w');
    if op.At? && e in w'.brokers[op.broker].workers {
      KnownWorkers(w.brokers[op.broker]);
      if op.move.Receives? && op.move.data.eventID == e {
        ArrivalsKeepSector(ring, views, sector, e, w, op.broker, op.move.data, w');
      }
      WorkerGoesItsWay(ring, views, sector, e, op.broker, w.brokers[op.broker], op.move, w'.brokers[op.broker]);
    }
  }

  lemma {:induction false} RunGoesRight(
    ring: Ring, views: Views, sector: int, e: string, worlds: seq<World>, ops: seq<Op>, n: nat)
    requires RunsWith(ring, views, sector, e, worlds, ops) && n <= |ops|
    ensures GoesRight(ring, views, sector, e, worlds[n])
  {
    hide Step, I.Inv, Fair, AllWentTheirWay;
    if n == 0 {
      StartGoesRight(ring, views, sector, e, worlds[0]);
    } else {
      RunGoesRight(ring, views, sector, e, worlds, ops, n - 1);
      assert Step(ring, worlds[n - 1], ops[n - 1], worlds[n - 1 + 1]);
      StepGoesRight(ring, views, sector, e, worlds[n - 1], ops[n - 1], worlds[n]);
    }
  }

  lemma StartGoesRight(ring: Ring, views: Views, sector: int, e: string, w: World)
    requires w.sensed == {} && forall b :: b in w.brokers ==> w.brokers[b] == I.START
    ensures GoesRight(ring, views, sector, e, w)
  {
    StartKeepsInv();
    hide I.Inv;
  }

  lemma KnownWorkers(b: I.Broker)
    requires I.Inv(b)
    ensures I.WorkersKnown(b) && I.PacketsOwed(b) && forall e :: I.CountsAgree(b, e)
  {
  }

  lemma ArrivalsKeepSector(
    ring: Ring, views: Views, sector: int, e: string, w: World, b: string, data: SensorData, w': World)
    requires GoesRight(ring, views, sector, e, w) && Step(ring, w, At(b, I.Receives(data)), w') && data.eventID == e
    ensures data.sectorID == sector
  {
    hide I.Step, I.Inv, ElectsItself, Elects;
    assert Arrives(w, b, data);
    if (b, data) !in w.sensed {
      var c :| c in w.brokers && (b, data) in w.brokers[c].packets;
      KnownWorkers(w.brokers[c]);
      assert WentItsWay(ring, views, sector, c, w.brokers[c].workers[e]);
    }
  }

  /** What a broker has done about an event, in a world where everything went right. */
  lemma ChargerElectsItself(ring: Ring, views: Views, sector: int, e: string, w: World, b: string)
    requires GoesRight(ring, views, sector, e, w) && b in w.brokers
    ensures var s := w.brokers[b];
            && Times(Ids(s.queued), e) <= Times(s.charged, e)
            && Times(s.charged, e) <= if ElectsItself(ring, views, sector, b) then 1 else 0
    ensures forall receiver, data: SensorData :: (receiver, data) in w.brokers[b].packets && data.eventID == e ==>
              Elects(ring, views, sector, b, receiver) && Times(w.brokers[b].charged, e) == 0
  {
    hide I.Inv, ElectsItself, Elects, Ids;
    KnownWorkers(w.brokers[b]);
    assert I.CountsAgree(w.brokers[b], e);
  }

  /** Each broker charges an event at most once, queues it at most as often, and only if it elects itself. */
  lemma ChargersElectThemselves(
    ring: Ring, views: Views, sector: int, e: string, worlds: seq<World>, ops: seq<Op>, n: nat,
    b: string)
    requires RunsWith(ring, views, sector, e, worlds, ops) && n <= |ops| && b in worlds[n].brokers
    ensures var s := worlds[n].brokers[b];
            && Times(Ids(s.queued), e) <= Times(s.charged, e)
            && Times(s.charged, e) <= if ElectsItself(ring, views, sector, b) then 1 else 0
    ensures forall receiver, data: SensorData ::
              (receiver, data) in worlds[n].brokers[b].packets && data.eventID == e ==>
              Elects(ring, views, sector, b, receiver) && Times(worlds[n].brokers[b].charged, e) == 0
  {
    hide GoesRight, ElectsItself, Elects, Ids, Step, Fair;
    RunGoesRight(ring, views, sector, e, worlds, ops, n);
    ChargerElectsItself(ring, views, sector, e, worlds[n], b);
  }

  predicate AreCharged(brokers: map<string, I.Broker>, b: string, c: string, e: string) {
    b in brokers && e in brokers[b].charged && c in brokers && e in brokers[c].charged
  }

  /** A verdict that can be heard comes from a broker that charged for the event, and queued it exactly for an ACK. */
  lemma VerdictsComeFromCharges(
    ring: Ring, worlds: seq<World>, ops: seq<Op>, n: nat, receiver: string, action: string, m: Mission)
    requires Runs(ring, worlds, ops) && n <= |ops| && IsTold(worlds[n], receiver, action, m)
    ensures exists c :: c in worlds[n].brokers && ChargedFor(worlds[n].brokers[c], Id(m), action == "ACK")
  {
    hide I.Inv, Step, Ids, ChargedFor;
    RunKeepsInv(ring, worlds, ops, n);
    var c :| c in worlds[n].brokers && (receiver, action, m) in worlds[n].brokers[c].verdicts;
    AnnouncedWasCharged(worlds[n].brokers[c], receiver, action, m);
  }

  predicate ChargedFor(b: I.Broker, e: string, queued: bool) {
    Times(b.charged, e) == 1 && Times(Ids(b.queued), e) == if queued then 1 else 0
  }

  lemma AnnouncedWasCharged(b: I.Broker, receiver: string, action: string, m: Mission)
    requires I.Inv(b) && (receiver, action, m) in b.verdicts
    ensures ChargedFor(b, Id(m), action == "ACK")
  {
    hide Ids;
    assert I.CountsAgree(b, Id(m));
  }

  // ---------- two that elect themselves both charge ----------

  /** This run lets both brokers charge for the event. */
  ghost predicate ChargesBoth(
    ring: Ring, views: Views, sector: int, e: string, worlds: seq<World>, ops: seq<Op>,
    b: string, c: string) {
    RunsWith(ring, views, sector, e, worlds, ops) && AreCharged(worlds[|ops|].brokers, b, c, e)
  }

  lemma OneMoreStep(
    ring: Ring, views: Views, sector: int, e: string, worlds: seq<World>, ops: seq<Op>,
    op: Op, next: World)
    requires RunsWith(ring, views, sector, e, worlds, ops) && Step(ring, worlds[|ops|], op, next)
    requires Fair(views, sector, e, op)
    ensures RunsWith(ring, views, sector, e, worlds + [next], ops + [op])
  {
    hide Step;
  }

  lemma OneMoreMove(
    ring: Ring, views: Views, sector: int, e: string, before: seq<World>, done: seq<Op>,
    b: string, move: I.Op)
    returns (worlds: seq<World>, ops: seq<Op>)
    requires RunsWith(ring, views, sector, e, before, done)
    requires var w := before[|done|]; b in w.brokers && I.Enabled(w.brokers[b], move) && Delivered(w, b, move)
    requires move.Routes? ==> b in views && move.view in views[b]
    ensures RunsWith(ring, views, sector, e, worlds, ops)
    ensures var w := before[|done|];
            worlds[|ops|] == w.(brokers := w.brokers[b := I.After(SiteOf(ring, b), w.brokers[b], move)])
  {
    hide I.Enabled, I.After, Delivered, RunsWith;
    assert |before| == |done| + 1 by { RunLength(ring, views, sector, e, before, done); }
    var w := before[|done|];
    var next := w.(brokers := w.brokers[b := I.After(SiteOf(ring, b), w.brokers[b], move)]);
    OneMoreStep(ring, views, sector, e, before, done, At(b, move), next);
    worlds, ops := before + [next], done + [At(b, move)];
  }

  lemma RunLength(
    ring: Ring, views: Views, sector: int, e: string, worlds: seq<World>, ops: seq<Op>)
    requires RunsWith(ring, views, sector, e, worlds, ops)
    ensures |worlds| == |ops| + 1
  {
  }

  /** A broker that has done nothing yet and elects itself can be sent the event, and charge for it. */
  lemma ChargesNext(
    ring: Ring, views: Views, sector: int, e: string, before: seq<World>, done: seq<Op>, b: string, view: set<string>)
    returns (worlds: seq<World>, ops: seq<Op>)
    requires RunsWith(ring, views, sector, e, before, done) && sector > 0
    requires b in views && view in views[b] && IsOwner(ring, view, sector, b)
    requires b in before[|done|].brokers && before[|done|].brokers[b] == I.START
    ensures RunsWith(ring, views, sector, e, worlds, ops)
    ensures var brokers := worlds[|ops|].brokers;
            && b in brokers && e in brokers[b].charged
            && forall x :: x in before[|done|].brokers && x != b ==>
                 x in brokers && brokers[x] == before[|done|].brokers[x]
  {
    var data := SensorData(e, "sensor", sector, true, false, 0, "", "");
    RunLength(ring, views, sector, e, before, done);
    hide RunsWith, Owner, I.IsElsewhere, Lamport.Incremented;
    assert !I.IsElsewhere(SiteOf(ring, b), Owner(ring, view, sector));
    var w := before[|done|];
    var sent := w.(sensed := w.sensed + {(b, data)});
    OneMoreStep(ring, views, sector, e, before, done, Sensed(b, data), sent);
    worlds, ops := before + [sent], done + [Sensed(b, data)];
    worlds, ops := OneMoreMove(ring, views, sector, e, worlds, ops, b, I.Receives(data));
    worlds, ops := OneMoreMove(ring, views, sector, e, worlds, ops, b, I.Ticks(e));
    worlds, ops := OneMoreMove(ring, views, sector, e, worlds, ops, b, I.Routes(e, view));
    worlds, ops := OneMoreMove(ring, views, sector, e, worlds, ops, b, I.Charges(e, true));
  }

  lemma BothCharge(ring: Ring, views: Views, sector: int, e: string, b: string, c: string)
    returns (worlds: seq<World>, ops: seq<Op>)
    requires sector > 0 && ElectsItself(ring, views, sector, b) && ElectsItself(ring, views, sector, c)
    ensures ChargesBoth(ring, views, sector, e, worlds, ops, b, c)
  {
    worlds, ops := [World(map x | x in views :: I.START, {})], [];
    assert RunsWith(ring, views, sector, e, worlds, ops);
    hide RunsWith;
    var view :| view in views[b] && IsOwner(ring, view, sector, b);
    worlds, ops := ChargesNext(ring, views, sector, e, worlds, ops, b, view);
    if b != c {
      view :| view in views[c] && IsOwner(ring, view, sector, c);
      worlds, ops := ChargesNext(ring, views, sector, e, worlds, ops, c, view);
    }
  }

  ghost predicate NeverChargedTwice(ring: Ring, views: Views, sector: int, e: string) {
    forall worlds, ops, b, c :: ChargesBoth(ring, views, sector, e, worlds, ops, b, c) ==> b == c
  }

  /**
   * Whatever the views, every run charges for an event at one broker at most, if and only if at most one broker
   * elects itself owner of the sector.
   */
  lemma ChargedOnceExactly(ring: Ring, views: Views, sector: int, e: string)
    requires sector > 0
    ensures NeverChargedTwice(ring, views, sector, e)
            <==> forall b, c :: ElectsItself(ring, views, sector, b) && ElectsItself(ring, views, sector, c) ==> b == c
  {
    hide ChargesBoth, ElectsItself;
    forall worlds, ops, b, c | ChargesBoth(ring, views, sector, e, worlds, ops, b, c)
      ensures ElectsItself(ring, views, sector, b) && ElectsItself(ring, views, sector, c)
    {
      BothElectThemselves(ring, views, sector, e, worlds, ops, b, c);
    }
    forall b, c | ElectsItself(ring, views, sector, b) && ElectsItself(ring, views, sector, c)
      ensures exists worlds, ops :: ChargesBoth(ring, views, sector, e, worlds, ops, b, c)
    {
      var worlds, ops := BothCharge(ring, views, sector, e, b, c);
    }
  }

  lemma BothElectThemselves(
    ring: Ring, views: Views, sector: int, e: string, worlds: seq<World>, ops: seq<Op>,
    b: string, c: string)
    requires ChargesBoth(ring, views, sector, e, worlds, ops, b, c)
    ensures ElectsItself(ring, views, sector, b) && ElectsItself(ring, views, sector, c)
  {
    hide RunsWith, ElectsItself;
    ChargersElectThemselves(ring, views, sector, e, worlds, ops, |ops|, b);
    ChargersElectThemselves(ring, views, sector, e, worlds, ops, |ops|, c);
  }

  /** Under one view that knows the sector's owner, only the owner elects itself. */
  lemma OneViewElectsOwner(ring: Ring, views: Views, view: set<string>, sector: int, b: string)
    requires PicksMembers(ring) && view != {} && "" !in view
    requires forall x :: x in views ==> views[x] == {view}
    ensures ElectsItself(ring, views, sector, b) <==> b in views && b == Owner(ring, view, sector)
  {
    assert ring(view, sector) in view;
    assert b in views ==> (IsOwner(ring, view, sector, b) <==> b == Owner(ring, view, sector));
  }

  /** With two views two brokers can each take an event for their own, and then some run charges for it twice. */
  lemma TwoViewsChargeTwice(ring: Ring, sector: int, e: string, a: string, b: string)
    requires PicksMembers(ring) && sector > 0 && a != b
    ensures !NeverChargedTwice(ring, map[a := {{a}}, b := {{b}}], sector, e)
  {
    hide NeverChargedTwice;
    var views: Views := map[a := {{a}}, b := {{b}}];
    assert ring({a}, sector) in {a} && ring({b}, sector) in {b};
    assert IsOwner(ring, {a}, sector, a) && IsOwner(ring, {b}, sector, b);
    assert ElectsItself(ring, views, sector, a) && ElectsItself(ring, views, sector, b);
    ChargedOnceExactly(ring, views, sector, e);
  }
}
