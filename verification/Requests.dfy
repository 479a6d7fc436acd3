/** What gets past the intake at all: mission requests that name a sensor and a sector, and nothing else. */
module Requests {
  import opened Missions
  import opened SectorRouting
  import Lamport = LamportClock
  import I = Intake
  import F = Forwarding

  /** One packet puts a worker to work exactly if it is a request for a sector and its event is new to the filter. */
  lemma TakenUpExactly(site: I.Site, states: seq<I.Broker>, ops: seq<I.Op>, n: nat, data: SensorData)
    requires I.Runs(site, states, ops) && n < |ops| && ops[n] == I.Receives(data)
    ensures data.eventID !in states[n].workers && data.eventID in states[n + 1].workers
            <==> data.isRequisition && data.sensorID != "" && data.sectorID > 0 && data.eventID !in states[n].known
    ensures data.eventID !in states[n].workers && data.eventID in states[n + 1].workers ==>
              states[n + 1].workers[data.eventID] == I.Passed(data)
  {
    hide I.CountsAgree, I.PacketsOwed, I.VerdictsOwed, I.HandlersKnown;
    I.RunKeepsInv(site, states, ops, n);
    assert I.Step(site, states[n], ops[n], states[n + 1]);
  }

  // ---------- one broker ----------

  ghost predicate WorkersAsked(b: I.Broker) {
    forall e :: e in b.workers ==> I.IsMissionRequest(F.DataOf(b.workers[e]))
  }

  ghost predicate TablesAsked(b: I.Broker) {
    && (forall e :: e in b.waiting ==> I.IsMissionRequest(b.waiting[e].payload))
    && (forall m :: m in b.queued ==> I.IsMissionRequest(m.payload))
  }

  ghost predicate MailAsked(b: I.Broker) {
    && (forall to: string, data: SensorData :: (to, data) in b.packets ==> I.IsMissionRequest(data))
    && (forall to: string, action: string, m: Mission ::
          (to, action, m) in b.verdicts ==> I.IsMissionRequest(m.payload))
  }

  ghost predicate Asked(b: I.Broker) {
    WorkersAsked(b) && TablesAsked(b) && MailAsked(b)
  }

  lemma NothingYet()
    ensures Asked(I.START)
  {
  }

  lemma StepKeepsWorkersAsked(site: I.Site, b: I.Broker, op: I.Op, b': I.Broker)
    requires WorkersAsked(b) && I.Step(site, b, op, b')
    ensures WorkersAsked(b')
  {
    hide Owner, Lamport.Incremented, Lamport.Next, I.IsMissionRequest, I.IsElsewhere;
  }

  lemma StepKeepsTablesAsked(site: I.Site, b: I.Broker, op: I.Op, b': I.Broker)
    requires WorkersAsked(b) && TablesAsked(b) && I.Step(site, b, op, b')
    ensures TablesAsked(b')
  {
    hide Owner, Lamport.Incremented, Lamport.Next, I.IsMissionRequest, I.IsElsewhere;
  }

  lemma PacketIsAsked(m: Mission)
    ensures I.IsMissionRequest(I.Packet(m)) <==> I.IsMissionRequest(m.payload)
  {
  }

  lemma StepKeepsMailAsked(site: I.Site, b: I.Broker, op: I.Op, b': I.Broker)
    requires WorkersAsked(b) && MailAsked(b) && I.Step(site, b, op, b')
    ensures MailAsked(b')
  {
    hide Owner, Lamport.Incremented, Lamport.Next, I.IsMissionRequest, I.IsElsewhere, I.Packet;
    if op.Forwards? {
      PacketIsAsked(b.workers[op.eventID].mission);
    }
  }

  lemma StepKeepsAsked(site: I.Site, b: I.Broker, op: I.Op, b': I.Broker)
    requires Asked(b) && I.Step(site, b, op, b')
    ensures Asked(b')
  {
    hide WorkersAsked, TablesAsked, MailAsked, I.Step;
    StepKeepsWorkersAsked(site, b, op, b');
    StepKeepsTablesAsked(site, b, op, b');
    StepKeepsMailAsked(site, b, op, b');
  }

  lemma {:induction false} RunKeepsAsked(site: I.Site, states: seq<I.Broker>, ops: seq<I.Op>, n: nat)
    requires I.Runs(site, states, ops) && n <= |ops|
    ensures Asked(states[n])
  {
    hide Asked, I.Step;
    if n == 0 {
      NothingYet();
    } else {
      RunKeepsAsked(site, states, ops, n - 1);
      assert I.Step(site, states[n - 1], ops[n - 1], states[n - 1 + 1]);
      StepKeepsAsked(site, states[n - 1], ops[n - 1], states[n]);
    }
  }

  lemma AskedInWords(b: I.Broker)
    requires Asked(b) && I.Inv(b)
    ensures forall e :: e in b.workers ==>
              var data := F.DataOf(b.workers[e]); data.isRequisition && data.sensorID != "" && data.sectorID > 0
    ensures forall e :: e in b.charged ==>
              e in b.workers
              && var data := F.DataOf(b.workers[e]); data.isRequisition && data.sensorID != "" && data.sectorID > 0
    ensures forall e :: e in b.waiting ==>
              var data := b.waiting[e].payload; data.isRequisition && data.sensorID != "" && data.sectorID > 0
    ensures forall m :: m in b.queued ==>
              m.payload.isRequisition && m.payload.sensorID != "" && m.payload.sectorID > 0
    ensures forall to: string, data: SensorData :: (to, data) in b.packets ==>
              data.isRequisition && data.sensorID != "" && data.sectorID > 0
    ensures forall to: string, action: string, m: Mission :: (to, action, m) in b.verdicts ==>
              m.payload.isRequisition && m.payload.sensorID != "" && m.payload.sectorID > 0
  {
    hide I.WorkersKnown, I.HandlersKnown, I.PacketsOwed, I.VerdictsOwed, F.DataOf;
    forall e | e in b.charged
      ensures e in b.workers
    {
      assert I.CountsAgree(b, e);
    }
  }

  /**
   * In every interleaving, whatever is sent to a broker: what its workers handle and charge for, what waits, and what
   * they queue, forward and announce is a requisition that names a sensor and a sector.
   */
  lemma OnlyRequestsPass(site: I.Site, states: seq<I.Broker>, ops: seq<I.Op>, n: nat)
    requires I.Runs(site, states, ops) && n <= |ops|
    ensures forall e :: e in states[n].workers ==>
              var data := F.DataOf(states[n].workers[e]);
              data.isRequisition && data.sensorID != "" && data.sectorID > 0
    ensures forall e :: e in states[n].charged ==>
              e in states[n].workers
              && var data := F.DataOf(states[n].workers[e]);
                 data.isRequisition && data.sensorID != "" && data.sectorID > 0
    ensures forall e :: e in states[n].waiting ==>
              var data := states[n].waiting[e].payload; data.isRequisition && data.sensorID != "" && data.sectorID > 0
    ensures forall m :: m in states[n].queued ==>
              m.payload.isRequisition && m.payload.sensorID != "" && m.payload.sectorID > 0
    ensures forall to: string, data: SensorData :: (to, data) in states[n].packets ==>
              data.isRequisition && data.sensorID != "" && data.sectorID > 0
    ensures forall to: string, action: string, m: Mission :: (to, action, m) in states[n].verdicts ==>
              m.payload.isRequisition && m.payload.sensorID != "" && m.payload.sectorID > 0
  {
    hide Asked, I.Inv, I.Step, F.DataOf;
    RunKeepsAsked(site, states, ops, n);
    I.RunKeepsInv(site, states, ops, n);
    AskedInWords(states[n]);
  }

  // ---------- all brokers ----------

  /** The copies that a broker keeps of others' missions, and those in its handlers' hands. */
  ghost predicate CopiesAsked(b: I.Broker) {
    && (forall e :: e in b.shadow ==> I.IsMissionRequest(b.shadow[e].payload))
    && (forall h :: 0 <= h < |b.handlers| && !b.handlers[h].Finished? ==>
          I.IsMissionRequest(b.handlers[h].mission.payload))
  }

  ghost predicate AllAsked(w: F.World) {
    forall b :: b in w.brokers ==> Asked(w.brokers[b]) && CopiesAsked(w.brokers[b])
  }

  lemma StepKeepsCopiesAsked(site: I.Site, b: I.Broker, op: I.Op, b': I.Broker)
    requires CopiesAsked(b) && I.Step(site, b, op, b')
    requires op.Hears? ==> I.IsMissionRequest(op.mission.payload)
    ensures CopiesAsked(b')
  {
    hide Owner, Lamport.Incremented, Lamport.Next, I.IsMissionRequest, I.IsElsewhere;
  }

  lemma WorldStepKeepsAsked(ring: Ring, w: F.World, op: F.Op, w': F.World)
    requires AllAsked(w) && F.Step(ring, w, op, w')
    ensures AllAsked(w')
  {
    hide Asked, CopiesAsked, I.Step, I.IsMissionRequest;
    if op.At? {
      var site, b, b' := F.SiteOf(ring, op.broker), w.brokers[op.broker], w'.brokers[op.broker];
      StepKeepsAsked(site, b, op.move, b');
      if op.move.Hears? {
        HeardIsAsked(w, op.broker, op.move);
      }
      StepKeepsCopiesAsked(site, b, op.move, b');
    }
  }

  lemma HeardIsAsked(w: F.World, b: string, move: I.Op)
    requires AllAsked(w) && move.Hears? && F.Delivered(w, b, move)
    ensures I.IsMissionRequest(move.mission.payload)
  {
    hide CopiesAsked, I.IsMissionRequest, WorkersAsked, TablesAsked;
    var c :| c in w.brokers && (b, move.action, move.mission) in w.brokers[c].verdicts;
    assert MailAsked(w.brokers[c]);
  }

  lemma {:induction false} WorldsKeepAsked(ring: Ring, worlds: seq<F.World>, ops: seq<F.Op>, n: nat)
    requires F.Runs(ring, worlds, ops) && n <= |ops|
    ensures AllAsked(worlds[n])
  {
    hide Asked, F.Step;
    if n == 0 {
      NothingYet();
    } else {
      WorldsKeepAsked(ring, worlds, ops, n - 1);
      assert F.Step(ring, worlds[n - 1], ops[n - 1], worlds[n - 1 + 1]);
      WorldStepKeepsAsked(ring, worlds[n - 1], ops[n - 1], worlds[n]);
    }
  }

  /** ... and among all brokers the same holds at each, of the copies that it keeps of others' missions, too. */
  lemma OnlyRequestsTravel(ring: Ring, worlds: seq<F.World>, ops: seq<F.Op>, n: nat, b: string)
    requires F.Runs(ring, worlds, ops) && n <= |ops| && b in worlds[n].brokers
    ensures forall e :: e in worlds[n].brokers[b].charged ==>
              e in worlds[n].brokers[b].workers
              && var data := F.DataOf(worlds[n].brokers[b].workers[e]);
                 data.isRequisition && data.sensorID != "" && data.sectorID > 0
    ensures forall e :: e in worlds[n].brokers[b].waiting ==>
              var data := worlds[n].brokers[b].waiting[e].payload;
              data.isRequisition && data.sensorID != "" && data.sectorID > 0
    ensures forall e :: e in worlds[n].brokers[b].shadow ==>
              var data := worlds[n].brokers[b].shadow[e].payload;
              data.isRequisition && data.sensorID != "" && data.sectorID > 0
    ensures forall m :: m in worlds[n].brokers[b].queued ==>
              m.payload.isRequisition && m.payload.sensorID != "" && m.payload.sectorID > 0
    ensures forall to: string, data: SensorData :: (to, data) in worlds[n].brokers[b].packets ==>
              data.isRequisition && data.sensorID != "" && data.sectorID > 0
    ensures forall to: string, action: string, m: Mission :: (to, action, m) in worlds[n].brokers[b].verdicts ==>
              m.payload.isRequisition && m.payload.sensorID != "" && m.payload.sectorID > 0
  {
    hide Asked, I.Inv, F.Step, F.DataOf;
    WorldsKeepAsked(ring, worlds, ops, n);
    F.RunKeepsInv(ring, worlds, ops, n);
    AskedInWords(worlds[n].brokers[b]);
    assert CopiesAsked(worlds[n].brokers[b]);
  }
}
