/**
 * One broker's intake under concurrency: many workers take packets in while handlers take in other brokers'
 * verdicts. Every access to the filter, the clock, the waiting room, the shadow buffer, the routing table, the ledger
 * and the queue is a step of its own, and steps of different workers and handlers interleave freely.
 */
module Intake {
  import opened Missions
  import opened SectorRouting
  import Lamport = LamportClock

  /** The ring, the addresses of this machine, and the address it announces itself by. */
  datatype Site = Site(ring: Ring, locals: set<string>, name: string)

  /** How far a worker is with its packet. */
  datatype Worker =
    | Passed(data: SensorData)                   // the filter let it through
    | Ticked(data: SensorData)                   // the clock is yet to meet the packet's clock
    | Stamped(mission: Mission)
    | Foreign(mission: Mission, owner: string)   // another broker owns the sector
    | Parked(mission: Mission, owner: string)
    | Forwarded(mission: Mission, owner: string)
    | Own(mission: Mission)                      // to be charged here
    | Paid(mission: Mission)
    | Answered(action: string, mission: Mission)
    | Announced(action: string, mission: Mission)

  /** How far a handler is with a verdict. */
  datatype Handler =
    | Noted(action: string, eventID: string, mission: Mission)
    | Cleared(mission: Mission)
    | Finished

  /**
   * Workers go by the event they handle: the filter admits an event at most once, so none takes another's place.
   * `queued`, `charged`, `packets` and `verdicts` are what the workers have queued, charged and sent so far.
   */
  datatype Broker = Broker(
    known: set<string>, clock: nat, waiting: map<string, Mission>, shadow: map<string, Mission>,
    workers: map<string, Worker>, handlers: seq<Handler>,
    queued: seq<Mission>, charged: seq<string>,
    packets: set<(string, SensorData)>, verdicts: set<(string, string, Mission)>)

  /** A broker at rest with this memory. */
  function Resting(known: set<string>, clock: nat, waiting: map<string, Mission>, shadow: map<string, Mission>)
    : Broker
  {
    Broker(known, clock, waiting, shadow, map[], [], [], [], {}, {})
  }

  const START := Resting({}, 0, map[], map[])

  datatype Op =
    | Receives(data: SensorData)
    | Ticks(eventID: string)
    | Syncs(eventID: string)
    | Routes(eventID: string, view: set<string>)
    | Parks(eventID: string)
    | Forwards(eventID: string)
    | Charges(eventID: string, approved: bool)
    | Queues(eventID: string)
    | Announces(eventID: string, view: set<string>)
    | Hears(action: string, eventID: string, mission: Mission)
    | Retrieves(handler: nat)
    | Shadows(handler: nat)
    | Expires(eventID: string)
    | Rescues(eventID: string)

  predicate IsMissionRequest(data: SensorData) {
    data.isRequisition && data.sensorID != "" && data.sectorID > 0
  }

  /** The mission as other brokers get it: its clock becomes the packet's. */
  function Packet(m: Mission): SensorData {
    m.payload.(internalClock := m.lamportClock)
  }

  predicate IsElsewhere(site: Site, owner: string) {
    owner != "" && owner !in site.locals
  }

  // ---------- what single steps do to the tables ----------

  function WithParked(waiting: map<string, Mission>, m: Mission): map<string, Mission> {
    waiting[Id(m) := m]
  }

  function WithoutEvent(table: map<string, Mission>, eventID: string): map<string, Mission> {
    table - {eventID}
  }

  function WithShadow(shadow: map<string, Mission>, m: Mission): map<string, Mission> {
    shadow[Id(m) := m]
  }

  function Moved(b: Broker, w: Worker, eventID: string): Broker {
    b.(workers := b.workers[eventID := w])
  }

  // ---------- steps ----------

  predicate Enabled(b: Broker, op: Op) {
    match op
    case Receives(_) => true
    case Ticks(e) => e in b.workers && b.workers[e].Passed?
    case Syncs(e) => e in b.workers && b.workers[e].Ticked?
    case Routes(e, _) => e in b.workers && b.workers[e].Stamped?
    case Parks(e) => e in b.workers && b.workers[e].Foreign?
    case Forwards(e) => e in b.workers && b.workers[e].Parked?
    case Charges(e, _) => e in b.workers && b.workers[e].Own?
    case Queues(e) => e in b.workers && b.workers[e].Paid?
    case Announces(e, _) => e in b.workers && b.workers[e].Answered?
    case Hears(_, e, _) => e != ""
    case Retrieves(h) => h < |b.handlers| && b.handlers[h].Noted?
    case Shadows(h) => h < |b.handlers| && b.handlers[h].Cleared?
    case Expires(_) => true
    case Rescues(_) => true
  }

  function After(site: Site, b: Broker, op: Op): Broker
    requires Enabled(b, op)
  {
    match op
    case Receives(data) =>
      if !IsMissionRequest(data) || data.eventID in b.known then b
      else Moved(b, Passed(data), data.eventID).(known := b.known + {data.eventID})
    case Ticks(e) =>
      var data, clock := b.workers[e].data, Lamport.Incremented(b.clock);
      Moved(b, if data.internalClock > 0 then Ticked(data) else Stamped(Mission(data, clock)), e).(clock := clock)
    case Syncs(e) =>
      var data := b.workers[e].data;
      var clock := Lamport.Next(b.clock, data.internalClock);
      Moved(b, Stamped(Mission(data, clock)), e).(clock := clock)
    case Routes(e, view) =>
      var m := b.workers[e].mission;
      var owner := Owner(site.ring, view, m.payload.sectorID);
      Moved(b, if IsElsewhere(site, owner) then Foreign(m, owner) else Own(m), e)
    case Parks(e) =>
      var m := b.workers[e].mission;
      Moved(b, Parked(m, b.workers[e].owner), e).(waiting := WithParked(b.waiting, m))
    case Forwards(e) =>
      var m, owner := b.workers[e].mission, b.workers[e].owner;
      Moved(b, Forwarded(m, owner), e).(packets := b.packets + {(owner, Packet(m))})
    case Charges(e, approved) =>
      var m := b.workers[e].mission;
      Moved(b, if approved then Paid(m) else Answered("NACK", m), e).(charged := b.charged + [e])
    case Queues(e) =>
      var m := b.workers[e].mission;
      Moved(b, Answered("ACK", m), e).(queued := b.queued + [m])
    case Announces(e, view) =>
      var action, m := b.workers[e].action, b.workers[e].mission;
      Moved(b, Announced(action, m), e).
        (verdicts := b.verdicts + set peer | peer in view - {site.name} :: (peer, action, m))
    case Hears(action, e, m) =>
      b.(known := b.known + {e},
         handlers := b.handlers + [if action == "ACK" || action == "NACK" then Noted(action, e, m) else Finished])
    case Retrieves(h) =>
      var v := b.handlers[h];
      b.(waiting := WithoutEvent(b.waiting, v.eventID),
         handlers := b.handlers[h := if v.action == "ACK" then Cleared(v.mission) else Finished])
    case Shadows(h) =>
      b.(shadow := WithShadow(b.shadow, b.handlers[h].mission), handlers := b.handlers[h := Finished])
    case Expires(e) => b.(waiting := WithoutEvent(b.waiting, e))
    case Rescues(e) => b.(shadow := WithoutEvent(b.shadow, e))
  }

  predicate Step(site: Site, b: Broker, op: Op, b': Broker) {
    Enabled(b, op) && b' == After(site, b, op)
  }

  ghost predicate Runs(site: Site, states: seq<Broker>, ops: seq<Op>) {
    && |states| == |ops| + 1 && states[0] == START
    && forall i :: 0 <= i < |ops| ==> Step(site, states[i], ops[i], states[i + 1])
  }

  /** Whether these steps can be taken one after the other, and where they end. */
  predicate Allowed(site: Site, b: Broker, ops: seq<Op>) {
    ops == [] || (Allowed(site, b, ops[..|ops| - 1]) && Enabled(Final(site, b, ops[..|ops| - 1]), ops[|ops| - 1]))
  }

  function Final(site: Site, b: Broker, ops: seq<Op>): Broker {
    if ops == [] then b
    else
      var before, last := Final(site, b, ops[..|ops| - 1]), ops[|ops| - 1];
      if Enabled(before, last) then After(site, before, last) else before
  }

  lemma NoSteps(site: Site, b: Broker)
    ensures Allowed(site, b, []) && Final(site, b, []) == b
  {
  }

  lemma GoesOn(site: Site, b: Broker, ops: seq<Op>, op: Op)
    requires Allowed(site, b, ops) && Enabled(Final(site, b, ops), op)
    ensures Allowed(site, b, ops + [op])
    ensures Final(site, b, ops + [op]) == After(site, Final(site, b, ops), op)
  {
    hide Enabled, After;
    assert (ops + [op])[..|ops|] == ops;
  }

  lemma {:induction false} RunOf(site: Site, ops: seq<Op>) returns (states: seq<Broker>)
    requires Allowed(site, START, ops)
    ensures Runs(site, states, ops) && states[|ops|] == Final(site, START, ops)
  {
    hide Enabled, After;
    if ops == [] {
      states := [START];
    } else {
      var init := ops[..|ops| - 1];
      var before := RunOf(site, init);
      states := before + [Final(site, START, ops)];
      forall i | 0 <= i < |ops|
        ensures Step(site, states[i], ops[i], states[i + 1])
      {
        if i < |init| {
          assert Step(site, before[i], init[i], before[i + 1]);
        }
      }
    }
  }

  // ---------- what every step keeps ----------

  function EventOf(w: Worker): string {
    if w.Passed? || w.Ticked? then w.data.eventID else Id(w.mission)
  }

  predicate HasCharged(w: Worker) {
    w.Paid? || w.Answered? || w.Announced?
  }

  predicate HasQueued(w: Worker) {
    (w.Answered? || w.Announced?) && w.action == "ACK"
  }

  ghost predicate WorkersKnown(b: Broker) {
    forall e :: e in b.workers ==> e in b.known && EventOf(b.workers[e]) == e
  }

  ghost predicate HandlersKnown(b: Broker) {
    forall h :: 0 <= h < |b.handlers| && b.handlers[h].Noted? ==> b.handlers[h].eventID in b.known
  }

  /** An event is charged once it is past the ledger, and queued once it is past the queue. */
  ghost predicate CountsAgree(b: Broker, e: string) {
    && Times(b.charged, e) == (if e in b.workers && HasCharged(b.workers[e]) then 1 else 0)
    && Times(Ids(b.queued), e) == (if e in b.workers && HasQueued(b.workers[e]) then 1 else 0)
  }

  /** Every packet that was sent is what its worker ended with. */
  ghost predicate PacketsOwed(b: Broker) {
    forall to: string, data: SensorData :: (to, data) in b.packets ==>
      && data.eventID in b.workers && b.workers[data.eventID].Forwarded?
      && to == b.workers[data.eventID].owner && data == Packet(b.workers[data.eventID].mission)
  }

  /** ... and so is every verdict. */
  ghost predicate VerdictsOwed(b: Broker) {
    forall to: string, action: string, m: Mission :: (to, action, m) in b.verdicts ==>
      Id(m) in b.workers && b.workers[Id(m)] == Announced(action, m)
  }

  ghost predicate Inv(b: Broker) {
    WorkersKnown(b) && HandlersKnown(b) && PacketsOwed(b) && VerdictsOwed(b) && forall e :: CountsAgree(b, e)
  }

  lemma StepKeepsKnown(site: Site, b: Broker, op: Op, b': Broker)
    requires WorkersKnown(b) && HandlersKnown(b) && Step(site, b, op, b')
    ensures WorkersKnown(b') && HandlersKnown(b') && b.known <= b'.known
  {
    hide Owner, Lamport.Incremented, Lamport.Next, IsMissionRequest, IsElsewhere;
  }

  /** Only the ledger and the queue move a worker past themselves, and only they are told. */
  lemma StatusStays(site: Site, b: Broker, op: Op, b': Broker, e: string)
    requires WorkersKnown(b) && Step(site, b, op, b') && !op.Charges? && !op.Queues?
    ensures b'.charged == b.charged && b'.queued == b.queued
    ensures e in b'.workers && HasCharged(b'.workers[e]) <==> e in b.workers && HasCharged(b.workers[e])
    ensures e in b'.workers && HasQueued(b'.workers[e]) <==> e in b.workers && HasQueued(b.workers[e])
  {
    hide Owner, Lamport.Incremented, Lamport.Next, IsMissionRequest, IsElsewhere;
  }

  lemma ChargeKeepsCounts(site: Site, b: Broker, f: string, approved: bool, b': Broker, e: string)
    requires CountsAgree(b, e) && Step(site, b, Charges(f, approved), b')
    ensures CountsAgree(b', e)
  {
    hide Ids, Owner, Packet, Lamport.Incremented, Lamport.Next, IsMissionRequest, IsElsewhere;
    assert b'.workers == b.workers[f := b'.workers[f]] && b'.charged == b.charged + [f];
  }

  lemma QueueKeepsCounts(site: Site, b: Broker, f: string, b': Broker, e: string)
    requires WorkersKnown(b) && CountsAgree(b, e) && Step(site, b, Queues(f), b')
    ensures CountsAgree(b', e)
  {
    hide Ids, Owner, Packet, Lamport.Incremented, Lamport.Next, IsMissionRequest, IsElsewhere;
    var m := b.workers[f].mission;
    IdsMore(b.queued, m);
    assert Ids(b'.queued) == Ids(b.queued) + [f];
  }

  lemma StepKeepsCounts(site: Site, b: Broker, op: Op, b': Broker, e: string)
    requires WorkersKnown(b) && CountsAgree(b, e) && Step(site, b, op, b')
    ensures CountsAgree(b', e)
  {
    hide Step, Ids;
    if op.Charges? {
      ChargeKeepsCounts(site, b, op.eventID, op.approved, b', e);
    } else if op.Queues? {
      QueueKeepsCounts(site, b, op.eventID, b', e);
    } else {
      StatusStays(site, b, op, b', e);
    }
  }

  /** A worker that has ended stays as it is. */
  lemma EndedStays(site: Site, b: Broker, op: Op, b': Broker, e: string)
    requires WorkersKnown(b) && Step(site, b, op, b') && e in b.workers
    ensures b.workers[e].Forwarded? || b.workers[e].Announced? ==> e in b'.workers && b'.workers[e] == b.workers[e]
  {
    hide Owner, Lamport.Incremented, Lamport.Next, IsMissionRequest, IsElsewhere, Packet;
  }

  lemma MailSent(site: Site, b: Broker, op: Op, b': Broker)
    requires Step(site, b, op, b')
    ensures !op.Forwards? ==> b'.packets == b.packets
    ensures !op.Announces? ==> b'.verdicts == b.verdicts
  {
    hide Owner, Lamport.Incremented, Lamport.Next, IsMissionRequest, IsElsewhere, Packet;
  }

  lemma StepKeepsPackets(site: Site, b: Broker, op: Op, b': Broker)
    requires WorkersKnown(b) && PacketsOwed(b) && Step(site, b, op, b')
    ensures PacketsOwed(b')
  {
    hide After;
    MailSent(site, b, op, b');
    forall to: string, data: SensorData | (to, data) in b'.packets
      ensures data.eventID in b'.workers && b'.workers[data.eventID].Forwarded?
      ensures to == b'.workers[data.eventID].owner && data == Packet(b'.workers[data.eventID].mission)
    {
      if (to, data) in b.packets {
        EndedStays(site, b, op, b', data.eventID);
      } else {
        ForwardEnds(site, b, op, b', to, data);
      }
    }
  }

  lemma ForwardEnds(site: Site, b: Broker, op: Op, b': Broker, to: string, data: SensorData)
    requires WorkersKnown(b) && Step(site, b, op, b') && op.Forwards? && (to, data) in b'.packets - b.packets
    ensures data.eventID in b'.workers && b'.workers[data.eventID].Forwarded?
    ensures to == b'.workers[data.eventID].owner && data == Packet(b'.workers[data.eventID].mission)
  {
  }

  lemma StepKeepsVerdicts(site: Site, b: Broker, op: Op, b': Broker)
    requires WorkersKnown(b) && VerdictsOwed(b) && Step(site, b, op, b')
    ensures VerdictsOwed(b')
  {
    hide After;
    MailSent(site, b, op, b');
    forall to: string, action: string, m: Mission | (to, action, m) in b'.verdicts
      ensures Id(m) in b'.workers && b'.workers[Id(m)] == Announced(action, m)
    {
      if (to, action, m) in b.verdicts {
        EndedStays(site, b, op, b', Id(m));
      } else {
        AnnounceEnds(site, b, op, b', to, action, m);
      }
    }
  }

  lemma AnnounceEnds(site: Site, b: Broker, op: Op, b': Broker, to: string, action: string, m: Mission)
    requires WorkersKnown(b) && Step(site, b, op, b') && op.Announces? && (to, action, m) in b'.verdicts - b.verdicts
    ensures Id(m) in b'.workers && b'.workers[Id(m)] == Announced(action, m)
  {
  }

  lemma StepKeepsInv(site: Site, b: Broker, op: Op, b': Broker)
    requires Inv(b) && Step(site, b, op, b')
    ensures Inv(b') && b.known <= b'.known
  {
    hide Step, CountsAgree, PacketsOwed, VerdictsOwed, WorkersKnown, HandlersKnown;
    StepKeepsKnown(site, b, op, b');
    StepKeepsPackets(site, b, op, b');
    StepKeepsVerdicts(site, b, op, b');
    forall e
      ensures CountsAgree(b', e)
    {
      StepKeepsCounts(site, b, op, b', e);
    }
  }

  lemma {:induction false} RunKeepsInv(site: Site, states: seq<Broker>, ops: seq<Op>, n: nat)
    requires Runs(site, states, ops) && n <= |ops|
    ensures Inv(states[n])
  {
    hide Step;
    if n > 0 {
      RunKeepsInv(site, states, ops, n - 1);
      assert Step(site, states[n - 1], ops[n - 1], states[n - 1 + 1]);
      StepKeepsInv(site, states[n - 1], ops[n - 1], states[n]);
    }
  }
}
