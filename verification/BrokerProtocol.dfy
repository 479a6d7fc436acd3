/**
 * One broker's missions under concurrency. The queue lock and the pending lock are taken separately, so between
 * them a mission is only in the hands of the handler or the janitor that moves it.
 */
module BrokerProtocol {
  import opened Missions
  import opened Permutations
  import Aging = AntiStarvation

  const CHECKOUT_SECONDS := 60

  datatype PendingMission = PendingMission(mission: Mission, checkoutTime: int)

  predicate TimedOut(p: PendingMission, now: int) {
    now - p.checkoutTime > CHECKOUT_SECONDS
  }

  datatype Broker = Broker(
    queue: seq<Mission>,
    pending: map<string, PendingMission>,
    popped: seq<Mission>,      // taken from the queue, not yet pending
    returning: seq<Mission>,   // no longer pending, not yet back in the queue
    admitted: seq<string>,     // one entry for each time a worker or a rescue queued the event
    discharged: seq<string>,
    dropped: seq<string>,      // settled by an action that is neither SUCCESS nor REQUEUE
    overwritten: seq<string>)  // pending when the event's next checkout took the place

  const START := Broker([], map[], [], [], [], [], [], [])

  datatype Op =
    | Admit(mission: Mission)
    | Pop(mission: Mission)
    | Checkout(hand: nat, now: int)
    | Resolve(action: string, mission: Mission)
    | JanitorTakes(eventID: string, now: int)
    | Return(hand: nat)
    | Age(agingLimit: nat, clock: nat)

  /** What a settled event leaves in the handler's hands, by the action. */
  function AsSettled(b: Broker, action: string, m: Mission): Broker {
    if action == "REQUEUE" then b.(returning := b.returning + [m])
    else if action == "SUCCESS" then b.(discharged := b.discharged + [Id(m)])
    else b.(dropped := b.dropped + [Id(m)])
  }

  /** The table holds one mission for each event; a checkout takes the place of the one that is there. */
  function Overwritten(pending: map<string, PendingMission>, e: string): seq<string> {
    if e in pending then [e] else []
  }

  /** Each step is one critical section; messages may be late, lost, repeated or invented, so any can be resolved. */
  ghost predicate Step(b: Broker, op: Op, b': Broker) {
    match op
    case Admit(m) =>
      && Aging.Step(0, b.queue, Aging.Enqueued(m), b'.queue)
      && b' == b.(queue := b'.queue, admitted := b.admitted + [Id(m)])
    case Pop(m) =>
      && Aging.Step(0, b.queue, Aging.Dequeued(m), b'.queue)
      && b' == b.(queue := b'.queue, popped := b.popped + [m])
    case Checkout(hand, now) =>
      && hand < |b.popped|
      && var e := Id(b.popped[hand]);
         b' == b.(popped := Without(b.popped, hand), pending := b.pending[e := PendingMission(b.popped[hand], now)],
                  overwritten := b.overwritten + Overwritten(b.pending, e))
    case Resolve(action, m) =>
      if Id(m) !in b.pending then b' == b
      else
        b' == AsSettled(b.(pending := b.pending - {Id(m)}), action, m)
    case JanitorTakes(e, now) =>
      && e in b.pending && TimedOut(b.pending[e], now)
      && b' == b.(pending := b.pending - {e}, returning := b.returning + [b.pending[e].mission])
    case Return(hand) =>
      && hand < |b.returning|
      && Aging.Step(0, b.queue, Aging.Enqueued(b.returning[hand]), b'.queue)
      && b' == b.(queue := b'.queue, returning := Without(b.returning, hand))
    case Age(agingLimit, clock) =>
      && Aging.Step(agingLimit, b.queue, Aging.AgedAt(clock), b'.queue)
      && b' == b.(queue := b'.queue)
  }

  /** A broker with this queue and these pending missions, and nothing else yet. */
  function Holding(queue: seq<Mission>, pending: map<string, PendingMission>): Broker {
    START.(queue := queue, pending := pending)
  }

  /** These steps, in this order, lead from the one state to the other. */
  ghost predicate Leads(b: Broker, ops: seq<Op>, b': Broker) {
    if ops == [] then b == b'
    else
      var earlier, last := ops[..|ops| - 1], ops[|ops| - 1];
      exists mid :: Leads(b, earlier, mid) && Step(mid, last, b')
  }

  lemma NoSteps(b: Broker)
    ensures Leads(b, [], b)
  {
  }

  lemma LeadsOn(b: Broker, ops: seq<Op>, mid: Broker, op: Op, b': Broker)
    requires Leads(b, ops, mid) && Step(mid, op, b')
    ensures Leads(b, ops + [op], b')
  {
    hide Step;
    assert (ops + [op])[..|ops|] == ops;
  }

  lemma PopHandsOut(queue: seq<Mission>, m: Mission, rest: seq<Mission>, pending: map<string, PendingMission>, now: int)
    requires Aging.Step(0, queue, Aging.Dequeued(m), rest)
    ensures var handed := Holding(rest, pending).(popped := [m]);
            && Step(Holding(queue, pending), Pop(m), handed)
            && Step(handed, Checkout(0, now), Holding(rest, pending[Id(m) := PendingMission(m, now)])
                                              .(overwritten := Overwritten(pending, Id(m))))
  {
    hide Aging.Step;
  }

  lemma ReturnPutsBack(queue: seq<Mission>, m: Mission, more: seq<Mission>, pending: map<string, PendingMission>)
    requires Aging.Step(0, queue, Aging.Enqueued(m), more)
    ensures Step(Holding(queue, pending).(returning := [m]), Return(0), Holding(more, pending))
  {
    hide Aging.Step;
  }

  /** The janitor's two steps on one mission. */
  lemma JanitorReturns(b: Broker, ops: seq<Op>, queue: seq<Mission>, pending: map<string, PendingMission>,
                       e: string, now: int, more: seq<Mission>)
    requires Leads(b, ops, Holding(queue, pending)) && e in pending && TimedOut(pending[e], now)
    requires Aging.Step(0, queue, Aging.Enqueued(pending[e].mission), more)
    ensures Leads(b, ops + [JanitorTakes(e, now)] + [Return(0)], Holding(more, pending - {e}))
  {
    hide Aging.Step, TimedOut, Leads;
    var taken := Holding(queue, pending - {e}).(returning := [pending[e].mission]);
    LeadsOn(b, ops, Holding(queue, pending), JanitorTakes(e, now), taken);
    ReturnPutsBack(queue, pending[e].mission, more, pending - {e});
    LeadsOn(b, ops + [JanitorTakes(e, now)], taken, Return(0), Holding(more, pending - {e}));
  }

  // ---------- where an event is ----------

  function InQueue(b: Broker, e: string): nat { Aging.Count(b.queue, Is(e)) }
  function InPending(b: Broker, e: string): nat { if e in b.pending then 1 else 0 }
  function InHands(b: Broker, e: string): nat { Aging.Count(b.popped, Is(e)) + Aging.Count(b.returning, Is(e)) }
  function Discharged(b: Broker, e: string): nat { Times(b.discharged, e) }
  function Dropped(b: Broker, e: string): nat { Times(b.dropped, e) }

  function Places(b: Broker, e: string): nat {
    InQueue(b, e) + InPending(b, e) + InHands(b, e) + Discharged(b, e) + Dropped(b, e)
  }

  /** Each time the event was admitted it is in some place now, or was overwritten. */
  predicate IsAccounted(b: Broker, e: string) {
    Places(b, e) + Times(b.overwritten, e) == Times(b.admitted, e)
  }

  ghost predicate Inv(b: Broker) {
    && (forall e :: IsAccounted(b, e))
    && (forall e :: e in b.pending ==> Id(b.pending[e].mission) == e)
  }

  lemma Grown(ms: seq<Mission>, m: Mission, e: string)
    ensures Aging.Count(ms + [m], Is(e)) == Aging.Count(ms, Is(e)) + if Id(m) == e then 1 else 0
  {
    Aging.CountAdded(ms, m, ms + [m], Is(e));
  }

  lemma Shrunk(ms: seq<Mission>, k: nat, e: string)
    requires k < |ms|
    ensures Aging.Count(ms, Is(e)) == Aging.Count(Without(ms, k), Is(e)) + if Id(ms[k]) == e then 1 else 0
  {
    Aging.CountWithout(ms, k, Is(e));
  }

  lemma AgingKeepsEvents(agingLimit: nat, queue: seq<Mission>, clock: nat, after: seq<Mission>, e: string)
    requires Aging.Step(agingLimit, queue, Aging.AgedAt(clock), after)
    ensures Aging.Count(after, Is(e)) == Aging.Count(queue, Is(e))
  {
    Aging.CountSame(queue, Aged(queue, clock, agingLimit), Is(e));
    Aging.CountPermuted(Aged(queue, clock, agingLimit), after, Is(e));
  }

  predicate TouchesQueue(op: Op) {
    op.Admit? || op.Pop? || op.Return? || op.Age?
  }

  /** Steps that take from or add to the queue. */
  lemma AccountedAfterQueueStep(b: Broker, op: Op, b': Broker, e: string)
    requires IsAccounted(b, e) && Step(b, op, b') && TouchesQueue(op)
    ensures IsAccounted(b', e)
  {
    hide Aging.Count, Is, Less, Aged;
    match op {
      case Admit(m) => Aging.CountAdded(b.queue, m, b'.queue, Is(e)); IsItself(m, e);
      case Pop(m) => Aging.CountAdded(b'.queue, m, b.queue, Is(e)); IsItself(m, e); Grown(b.popped, m, e);
      case Return(hand) =>
        Aging.CountAdded(b.queue, b.returning[hand], b'.queue, Is(e));
        IsItself(b.returning[hand], e);
        Shrunk(b.returning, hand, e);
      case Age(agingLimit, clock) => AgingKeepsEvents(agingLimit, b.queue, clock, b'.queue, e);
    }
  }

  lemma AccountedAfterCheckout(b: Broker, hand: nat, now: int, b': Broker, e: string)
    requires IsAccounted(b, e) && Step(b, Checkout(hand, now), b')
    ensures IsAccounted(b', e)
  {
    hide Aging.Count, Aging.Step, Is, TimedOut;
    Shrunk(b.popped, hand, e);
  }

  lemma AccountedAfterResolve(b: Broker, action: string, m: Mission, b': Broker, e: string)
    requires IsAccounted(b, e) && Step(b, Resolve(action, m), b')
    ensures IsAccounted(b', e)
  {
    hide Aging.Count, Aging.Step, Is, TimedOut;
    assert b'.queue == b.queue && b'.popped == b.popped;
    assert b'.admitted == b.admitted && b'.overwritten == b.overwritten;
    if Id(m) in b.pending {
      if action == "REQUEUE" {
        Grown(b.returning, m, e);
      } else if action == "SUCCESS" {
        assert b'.discharged == b.discharged + [Id(m)] && b'.dropped == b.dropped;
      } else {
        assert b'.dropped == b.dropped + [Id(m)] && b'.discharged == b.discharged;
      }
    }
  }

  lemma AccountedAfter(b: Broker, op: Op, b': Broker, e: string)
    requires Inv(b) && Step(b, op, b')
    ensures IsAccounted(b', e)
  {
    assert IsAccounted(b, e);
    match op {
      case Checkout(hand, now) => hide Step; AccountedAfterCheckout(b, hand, now, b', e);
      case Resolve(action, m) => hide Step; AccountedAfterResolve(b, action, m, b', e);
      case JanitorTakes(f, now) =>
        hide Aging.Count, Aging.Step, Is, TimedOut;
        Grown(b.returning, b.pending[f].mission, e);
      case _ => hide Step; AccountedAfterQueueStep(b, op, b', e);
    }
  }

  lemma IsItself(m: Mission, e: string)
    ensures Is(e)(m) <==> Id(m) == e
  {
  }

  lemma PendingStaysKeyed(b: Broker, op: Op, b': Broker)
    requires Inv(b) && Step(b, op, b')
    ensures forall e :: e in b'.pending ==> Id(b'.pending[e].mission) == e
  {
    hide IsAccounted, Aging.Step, TimedOut;
  }

  lemma StepKeepsInv(b: Broker, op: Op, b': Broker)
    requires Inv(b) && Step(b, op, b')
    ensures Inv(b')
  {
    hide IsAccounted, Step;
    PendingStaysKeyed(b, op, b');
    forall e
      ensures IsAccounted(b', e)
    {
      AccountedAfter(b, op, b', e);
    }
  }

  ghost predicate Runs(states: seq<Broker>, ops: seq<Op>) {
    && |states| == |ops| + 1
    && states[0] == START
    && forall i :: 0 <= i < |ops| ==> Step(states[i], ops[i], states[i + 1])
  }

  /** Steps that lead somewhere from the start are a run. */
  lemma {:induction false} RunOf(ops: seq<Op>, b: Broker) returns (states: seq<Broker>)
    requires Leads(START, ops, b)
    ensures Runs(states, ops) && states[|ops|] == b
  {
    hide Step;
    if ops == [] {
      states := [START];
    } else {
      var earlier, last := ops[..|ops| - 1], ops[|ops| - 1];
      var mid :| Leads(START, earlier, mid) && Step(mid, last, b);
      var before := RunOf(earlier, mid);
      states := before + [b];
      forall i | 0 <= i < |ops|
        ensures Step(states[i], ops[i], states[i + 1])
      {
        if i < |earlier| {
          assert Step(before[i], earlier[i], before[i + 1]);
        }
      }
    }
  }

  lemma {:induction false} RunKeepsInv(states: seq<Broker>, ops: seq<Op>, n: nat)
    requires Runs(states, ops) && n <= |ops|
    ensures Inv(states[n])
  {
    if n > 0 {
      RunKeepsInv(states, ops, n - 1);
      assert Step(states[n - 1], ops[n - 1], states[n - 1 + 1]);
      StepKeepsInv(states[n - 1], ops[n - 1], states[n]);
    }
  }

  /** An event is dropped exactly when some unknown action found it pending. */
  lemma {:induction false} OnlyUnknownActionsDrop(states: seq<Broker>, ops: seq<Op>, n: nat, e: string)
    requires Runs(states, ops) && n <= |ops|
    ensures e in states[n].dropped <==>
            exists i :: 0 <= i < n && ops[i].Resolve? && Id(ops[i].mission) == e && e in states[i].pending
                        && ops[i].action != "REQUEUE" && ops[i].action != "SUCCESS"
  {
    hide Aging.Step, TimedOut;
    if n > 0 {
      OnlyUnknownActionsDrop(states, ops, n - 1, e);
      assert Step(states[n - 1], ops[n - 1], states[n - 1 + 1]);
    }
  }

  /**
   * In every interleaving, however often an event is admitted: each admission is accounted for once, in the queue, the
   * pending table, a hand between them, among the discharged, the dropped or the overwritten.
   */
  lemma AdmissionsAreConserved(states: seq<Broker>, ops: seq<Op>, n: nat, e: string)
    requires Runs(states, ops) && n <= |ops|
    ensures InQueue(states[n], e) + InPending(states[n], e) + InHands(states[n], e) + Discharged(states[n], e)
            + Dropped(states[n], e) + Times(states[n].overwritten, e) == Times(states[n].admitted, e)
  {
    RunKeepsInv(states, ops, n);
    assert IsAccounted(states[n], e);
  }

  // ---------- when the janitor takes a mission ----------

  lemma PendingAfter(b: Broker, op: Op, b': Broker, e: string)
    requires Step(b, op, b') && e in b'.pending
    ensures if op.Checkout? && Id(b.popped[op.hand]) == e
            then b'.pending[e] == PendingMission(b.popped[op.hand], op.now)
            else e in b.pending && b'.pending[e] == b.pending[e]
  {
    hide Aging.Step, TimedOut;
  }

  /** What is pending was put there by the event's last checkout, with the mission and the time of that. */
  lemma {:induction false} LastCheckout(states: seq<Broker>, ops: seq<Op>, n: nat, e: string) returns (c: nat)
    requires Runs(states, ops) && n <= |ops| && e in states[n].pending
    ensures c < n && ops[c].Checkout? && ops[c].hand < |states[c].popped|
    ensures Id(states[c].popped[ops[c].hand]) == e
    ensures forall i :: c < i < n ==> !(ops[i].Checkout? && ops[i].hand < |states[i].popped|
                                        && Id(states[i].popped[ops[i].hand]) == e)
    ensures states[n].pending[e] == PendingMission(states[c].popped[ops[c].hand], ops[c].now)
  {
    hide Aging.Step, TimedOut;
    assert Step(states[n - 1], ops[n - 1], states[n - 1 + 1]);
    PendingAfter(states[n - 1], ops[n - 1], states[n], e);
    if ops[n - 1].Checkout? && Id(states[n - 1].popped[ops[n - 1].hand]) == e {
      c := n - 1;
    } else {
      c := LastCheckout(states, ops, n - 1, e);
    }
  }

  /**
   * In every interleaving the janitor may take a pending event if and only if more than 60 seconds have gone by since
   * the event's last checkout; and what it takes is the mission of that checkout.
   */
  lemma TakenBackExactly(states: seq<Broker>, ops: seq<Op>, n: nat, e: string, now: int) returns (c: nat)
    requires Runs(states, ops) && n <= |ops| && e in states[n].pending
    ensures c < n && ops[c].Checkout? && ops[c].hand < |states[c].popped|
    ensures Id(states[c].popped[ops[c].hand]) == e
    ensures forall i :: c < i < n ==> !(ops[i].Checkout? && ops[i].hand < |states[i].popped|
                                        && Id(states[i].popped[ops[i].hand]) == e)
    ensures (exists b :: Step(states[n], JanitorTakes(e, now), b)) <==> now > ops[c].now + 60
    ensures forall b :: Step(states[n], JanitorTakes(e, now), b) ==>
              && b.returning == states[n].returning + [states[c].popped[ops[c].hand]]
              && b.pending == states[n].pending - {e}
  {
    hide Aging.Step;
    c := LastCheckout(states, ops, n, e);
    var b := states[n].(pending := states[n].pending - {e},
                        returning := states[n].returning + [states[n].pending[e].mission]);
    assert Step(states[n], JanitorTakes(e, now), b) <==> now > ops[c].now + 60;
  }

  /** So every time that it took an event, the event's last checkout was more than 60 seconds before. */
  lemma TakenBackLate(states: seq<Broker>, ops: seq<Op>, n: nat) returns (c: nat)
    requires Runs(states, ops) && n < |ops| && ops[n].JanitorTakes?
    ensures c < n && ops[c].Checkout? && ops[c].hand < |states[c].popped|
    ensures Id(states[c].popped[ops[c].hand]) == ops[n].eventID
    ensures forall i :: c < i < n ==> !(ops[i].Checkout? && ops[i].hand < |states[i].popped|
                                        && Id(states[i].popped[ops[i].hand]) == ops[n].eventID)
    ensures ops[n].now > ops[c].now + 60
  {
    hide Aging.Step;
    assert Step(states[n], ops[n], states[n + 1]);
    c := TakenBackExactly(states, ops, n, ops[n].eventID, ops[n].now);
  }

  // ---------- when nothing is overwritten ----------

  lemma AdmittedGrows(b: Broker, op: Op, b': Broker, e: string)
    requires Step(b, op, b')
    ensures Times(b.admitted, e) <= Times(b'.admitted, e)
    ensures Times(b'.overwritten, e) == Times(b.overwritten, e)
            || (op.Checkout? && op.hand < |b.popped| && Id(b.popped[op.hand]) == e && e in b.pending)
  {
    hide Aging.Step, TimedOut;
  }

  /** A checkout overwrites a pending entry only if the event was admitted twice. */
  lemma OverwritingNeedsTwo(b: Broker, hand: nat)
    requires Inv(b) && hand < |b.popped| && Id(b.popped[hand]) in b.pending
    ensures Times(b.admitted, Id(b.popped[hand])) >= 2
  {
    var e := Id(b.popped[hand]);
    Shrunk(b.popped, hand, e);
    assert IsAccounted(b, e);
  }

  lemma {:induction false} OverwrittenWasAdmittedTwice(states: seq<Broker>, ops: seq<Op>, n: nat, e: string)
    requires Runs(states, ops) && n <= |ops| && Times(states[n].overwritten, e) > 0
    ensures Times(states[n].admitted, e) >= 2
  {
    hide Step, Inv;
    if n > 0 {
      var b, op := states[n - 1], ops[n - 1];
      assert Step(b, op, states[n - 1 + 1]);
      RunKeepsInv(states, ops, n - 1);
      AdmittedGrows(b, op, states[n], e);
      if Times(b.overwritten, e) > 0 {
        OverwrittenWasAdmittedTwice(states, ops, n - 1, e);
      } else {
        OverwritingNeedsTwo(b, op.hand);
      }
    }
  }

  /**
   * In every interleaving, an event admitted once is in exactly one of: the queue, the pending table, a hand between
   * them, discharged; or dropped, which no run with only SUCCESS and REQUEUE messages does. It is never overwritten.
   */
  lemma NeitherLostNorDoubled(states: seq<Broker>, ops: seq<Op>, n: nat, e: string)
    requires Runs(states, ops) && n <= |ops| && Times(states[n].admitted, e) <= 1
    ensures Places(states[n], e) == Times(states[n].admitted, e)
    ensures e !in states[n].overwritten
    ensures (forall i :: 0 <= i < n && ops[i].Resolve? ==> ops[i].action == "REQUEUE" || ops[i].action == "SUCCESS")
            ==> Dropped(states[n], e) == 0
  {
    RunKeepsInv(states, ops, n);
    assert IsAccounted(states[n], e);
    hide Step, Places;
    OnlyUnknownActionsDrop(states, ops, n, e);
    if Times(states[n].overwritten, e) > 0 {
      OverwrittenWasAdmittedTwice(states, ops, n, e);
    }
    assert e in states[n].overwritten <==> e in multiset(states[n].overwritten);
    assert e in states[n].dropped <==> e in multiset(states[n].dropped);
  }

  /** This run admits no event more often than that, and overwrites one. */
  ghost predicate Overwrites(limit: nat, states: seq<Broker>, ops: seq<Op>) {
    && Runs(states, ops) && (forall e :: Times(states[|ops|].admitted, e) <= limit)
    && states[|ops|].overwritten != []
  }

  ghost predicate NeverOverwrites(limit: nat) {
    forall states, ops :: !Overwrites(limit, states, ops)
  }

  /** No run loses a pending mission to another checkout if and only if no event is admitted more than once. */
  lemma PendingKeptExactly(limit: nat)
    ensures NeverOverwrites(limit) <==> limit <= 1
  {
    hide Overwrites;
    forall states, ops | Overwrites(limit, states, ops)
      ensures limit > 1
    {
      OverwritingNeedsLimit(limit, states, ops);
    }
    if limit > 1 {
      var states, ops := SecondCheckoutOverwrites(limit);
    }
  }

  lemma OverwritingNeedsLimit(limit: nat, states: seq<Broker>, ops: seq<Op>)
    requires Overwrites(limit, states, ops)
    ensures limit > 1
  {
    var b := states[|ops|];
    var e := b.overwritten[0];
    assert e in multiset(b.overwritten);
    hide Step;
    OverwrittenWasAdmittedTwice(states, ops, |ops|, e);
  }

  /** A broker with the event admitted twice. */
  function AdmittedTwice(m: Mission): Broker {
    START.(queue := [m, m], admitted := [Id(m), Id(m)])
  }

  lemma AdmitsTwice(m: Mission)
    ensures var once := START.(queue := [m], admitted := [Id(m)]);
            Step(START, Admit(m), once) && Step(once, Admit(m), AdmittedTwice(m))
  {
  }

  lemma PopsTwice(m: Mission)
    ensures var b := AdmittedTwice(m); var once := b.(queue := [m], popped := [m]);
            Step(b, Pop(m), once) && Step(once, Pop(m), b.(queue := [], popped := [m, m]))
  {
    LessIsWeakOrder(m, m, m);
  }

  lemma ChecksOutTwice(m: Mission)
    ensures var b := AdmittedTwice(m).(queue := [], popped := [m, m]);
            var once := b.(popped := [m], pending := map[Id(m) := PendingMission(m, 0)]);
            && Step(b, Checkout(0, 0), once)
            && Step(once, Checkout(0, 0), once.(popped := [], overwritten := [Id(m)]))
  {
    assert Without([m, m], 0) == [m] && Without([m], 0) == [];
    var pending := map[Id(m) := PendingMission(m, 0)];
    assert pending[Id(m) := PendingMission(m, 0)] == pending;
  }

  /** An event queued twice is popped twice, and its second checkout takes the place of the first. */
  lemma SecondCheckoutOverwrites(limit: nat) returns (states: seq<Broker>, ops: seq<Op>)
    requires limit > 1
    ensures Overwrites(limit, states, ops)
  {
    var m := Mission(SensorData("event", "sensor", 1, true, false, 0, "", ""), 0);
    AdmitsTwice(m);
    PopsTwice(m);
    ChecksOutTwice(m);
    NoSteps(START);
    hide Step, Leads;
    var b := AdmittedTwice(m);
    var popped := b.(queue := [], popped := [m, m]);
    var pending := popped.(popped := [m], pending := map[Id(m) := PendingMission(m, 0)]);
    var end := pending.(popped := [], overwritten := [Id(m)]);
    ops := [];
    var at := START;
    ops, at := GoesOn(ops, at, Admit(m), START.(queue := [m], admitted := [Id(m)]));
    ops, at := GoesOn(ops, at, Admit(m), b);
    ops, at := GoesOn(ops, at, Pop(m), b.(queue := [m], popped := [m]));
    ops, at := GoesOn(ops, at, Pop(m), popped);
    ops, at := GoesOn(ops, at, Checkout(0, 0), pending);
    ops, at := GoesOn(ops, at, Checkout(0, 0), end);
    states := RunOf(ops, end);
  }

  lemma GoesOn(ops: seq<Op>, at: Broker, op: Op, next: Broker) returns (more: seq<Op>, there: Broker)
    requires Leads(START, ops, at) && Step(at, op, next)
    ensures Leads(START, more, there) && there == next
  {
    LeadsOn(START, ops, at, op, next);
    more, there := ops + [op], next;
  }
}
