/**
 * Who queues and discharges an event: intake, missions and rescues of all brokers together. Nothing takes a shadow copy
 * back when its event is discharged at the owner, so after a rescue another broker may discharge it again.
 */
module Execution {
  import opened Missions
  import opened SectorRouting
  import Aging = AntiStarvation
  import F = Forwarding
  import I = Intake
  import P = BrokerProtocol

  /** What a rescue pass of a broker has loaded from the shadow buffer, and whether it has queued it. */
  datatype Hand =
    | Loaded(broker: string, mission: Mission)
    | Took(broker: string, mission: Mission)
    | Empty

  datatype World = World(mail: F.World, custody: map<string, P.Broker>, hands: seq<Hand>)

  datatype Op =
    | Moves(step: F.Op)
    | QueuesOwn(broker: string, eventID: string)
    | Loads(broker: string, eventID: string)
    | Takes(hand: nat, view: set<string>)
    | Removes(hand: nat)
    | Serves(broker: string, act: P.Op)

  function Start(views: F.Views): World {
    World(F.World(map b | b in views :: I.START, {}), map b | b in views :: P.START, [])
  }

  /** By this view the sector belongs to the broker, as a rescue asks. */
  predicate Owns(ring: Ring, view: set<string>, sector: int, b: string) {
    Owner(ring, view, sector) == b && b != ""
  }

  /** The mission enters the broker's queue. */
  ghost predicate Admits(w: World, b: string, m: Mission, custody: map<string, P.Broker>) {
    && b in w.custody && b in custody && custody == w.custody[b := custody[b]]
    && P.Step(w.custody[b], P.Admit(m), custody[b])
  }

  predicate IsPaid(w: F.World, b: string, e: string) {
    b in w.brokers && e in w.brokers[b].workers && w.brokers[b].workers[e].Paid?
  }

  ghost predicate Step(ring: Ring, w: World, op: Op, w': World) {
    match op
    case Moves(step) =>
      && !(step.At? && (step.move.Queues? || step.move.Rescues?))
      && F.Step(ring, w.mail, step, w'.mail) && w' == w.(mail := w'.mail)
    case QueuesOwn(b, e) =>
      && IsPaid(w.mail, b, e) && F.Step(ring, w.mail, F.At(b, I.Queues(e)), w'.mail)
      && Admits(w, b, w.mail.brokers[b].workers[e].mission, w'.custody)
      && w' == w.(mail := w'.mail, custody := w'.custody)
    case Loads(b, e) =>
      && b in w.mail.brokers && e in w.mail.brokers[b].shadow
      && w' == w.(hands := w.hands + [Loaded(b, w.mail.brokers[b].shadow[e])])
    case Takes(h, view) =>
      && h < |w.hands| && w.hands[h].Loaded?
      && var b, m := w.hands[h].broker, w.hands[h].mission;
         if Owns(ring, view, m.payload.sectorID, b)
         then Admits(w, b, m, w'.custody) && w' == w.(custody := w'.custody, hands := w.hands[h := Took(b, m)])
         else w' == w.(hands := w.hands[h := Empty])
    case Removes(h) =>
      && h < |w.hands| && w.hands[h].Took?
      && F.Step(ring, w.mail, F.At(w.hands[h].broker, I.Rescues(Id(w.hands[h].mission))), w'.mail)
      && w' == w.(mail := w'.mail, hands := w.hands[h := Empty])
    case Serves(b, act) =>
      && !act.Admit? && b in w.custody && b in w'.custody && P.Step(w.custody[b], act, w'.custody[b])
      && w' == w.(custody := w.custody[b := w'.custody[b]])
  }

  /** Workers and rescues route by the broker's own views, and sensors name one sector for the event. */
  predicate Fair(views: F.Views, sector: int, e: string, w: World, op: Op) {
    match op
    case Moves(step) => F.Fair(views, sector, e, step)
    case Takes(h, view) =>
      h < |w.hands| && w.hands[h].Loaded? ==> w.hands[h].broker in views && view in views[w.hands[h].broker]
    case _ => true
  }

  /** These steps lead from a world at rest to this one. */
  ghost predicate Reaches(ring: Ring, views: F.Views, sector: int, e: string, ops: seq<Op>, w: World) {
    if ops == [] then w == Start(views)
    else
      var earlier, last := ops[..|ops| - 1], ops[|ops| - 1];
      exists mid :: Reaches(ring, views, sector, e, earlier, mid) && Step(ring, mid, last, w)
                    && Fair(views, sector, e, mid, last)
  }

  // ---------- why an event is queued ----------

  predicate OwnsByOne(ring: Ring, views: F.Views, sector: int, b: string) {
    b in views && exists view :: view in views[b] && Owns(ring, view, sector, b)
  }

  predicate NamesSector(e: string, sector: int, m: Mission) {
    Id(m) == e ==> m.payload.sectorID == sector
  }

  /** Copies of the event in the shadow buffer, or on their way there, name the sector. */
  predicate CopiesRight(e: string, sector: int, b: I.Broker) {
    && (forall x :: x in b.shadow ==> NamesSector(e, sector, b.shadow[x]))
    && (forall h :: 0 <= h < |b.handlers| && !b.handlers[h].Finished? ==> NamesSector(e, sector, b.handlers[h].mission))
  }

  predicate HandsRight(e: string, sector: int, hands: seq<Hand>) {
    forall h :: 0 <= h < |hands| && !hands[h].Empty? ==> NamesSector(e, sector, hands[h].mission)
  }

  /** The event is in a broker's queue because it was charged there, or because the broker owns the sector by a view. */
  ghost predicate CustodyRight(
    ring: Ring, views: F.Views, sector: int, e: string, b: string, s: I.Broker, p: P.Broker) {
    P.Inv(p) && (Times(p.admitted, e) > 0 ==> e in s.charged || OwnsByOne(ring, views, sector, b))
  }

  ghost predicate AllRight(ring: Ring, views: F.Views, sector: int, e: string, w: World) {
    && F.GoesRight(ring, views, sector, e, w.mail) && HandsRight(e, sector, w.hands)
    && w.custody.Keys == w.mail.brokers.Keys
    && (forall b :: b in w.mail.brokers ==> CopiesRight(e, sector, w.mail.brokers[b]))
    && (forall b :: b in w.custody ==> CustodyRight(ring, views, sector, e, b, w.mail.brokers[b], w.custody[b]))
  }

  lemma StartIsRight(ring: Ring, views: F.Views, sector: int, e: string)
    ensures AllRight(ring, views, sector, e, Start(views))
  {
    F.StartGoesRight(ring, views, sector, e, Start(views).mail);
    hide F.GoesRight;
  }

  /** What a step of the intake leaves behind of copies and charges. */
  lemma MoveKeepsCopies(site: I.Site, b: I.Broker, move: I.Op, b': I.Broker, e: string, sector: int)
    requires I.Step(site, b, move, b') && CopiesRight(e, sector, b)
    requires move.Hears? ==> NamesSector(e, sector, move.mission)
    ensures CopiesRight(e, sector, b')
    ensures e in b.charged ==> e in b'.charged
  {
    hide NamesSector, Owner, I.IsElsewhere, I.IsMissionRequest, I.Packet;
  }

  /** A verdict on the event carries the mission of the worker that announced it, and so the sector. */
  lemma VerdictsNameSector(
    ring: Ring, views: F.Views, sector: int, e: string, w: F.World, to: string, action: string, m: Mission)
    requires F.GoesRight(ring, views, sector, e, w) && F.IsTold(w, to, action, m)
    ensures NamesSector(e, sector, m)
  {
    hide I.CountsAgree, I.PacketsOwed, F.ElectsItself, F.Elects;
    var c :| c in w.brokers && (to, action, m) in w.brokers[c].verdicts;
    assert I.VerdictsOwed(w.brokers[c]);
    if Id(m) == e {
      assert F.WentItsWay(ring, views, sector, c, w.brokers[c].workers[e]);
    }
  }

  lemma MailKeepsRight(ring: Ring, views: F.Views, sector: int, e: string, w: F.World, op: F.Op, w': F.World)
    requires F.GoesRight(ring, views, sector, e, w) && F.Step(ring, w, op, w') && F.Fair(views, sector, e, op)
    requires forall b :: b in w.brokers ==> CopiesRight(e, sector, w.brokers[b])
    ensures F.GoesRight(ring, views, sector, e, w') && w'.brokers.Keys == w.brokers.Keys
    ensures forall b :: b in w'.brokers ==> CopiesRight(e, sector, w'.brokers[b])
    ensures forall b :: b in w'.brokers && e in w.brokers[b].charged ==> e in w'.brokers[b].charged
  {
    F.StepGoesRight(ring, views, sector, e, w, op, w');
    hide F.GoesRight, I.Step, CopiesRight, NamesSector;
    if op.At? {
      if op.move.Hears? {
        VerdictsNameSector(ring, views, sector, e, w, op.broker, op.move.action, op.move.mission);
      }
      MoveKeepsCopies(F.SiteOf(ring, op.broker), w.brokers[op.broker], op.move, w'.brokers[op.broker], e, sector);
    }
  }

  /** A worker that is about to queue has charged. */
  lemma PaidWasCharged(ring: Ring, views: F.Views, sector: int, e: string, w: F.World, b: string, f: string)
    requires F.GoesRight(ring, views, sector, e, w) && IsPaid(w, b, f)
    ensures Id(w.brokers[b].workers[f].mission) == f && f in w.brokers[b].charged
  {
    F.KnownWorkers(w.brokers[b]);
    hide I.Inv, I.PacketsOwed, Ids;
    assert I.CountsAgree(w.brokers[b], f);
    assert f in multiset(w.brokers[b].charged);
  }

  lemma AdmitKeepsCustody(ring: Ring, views: F.Views, sector: int, e: string, w: World, b: string, m: Mission,
                          custody: map<string, P.Broker>, s: I.Broker)
    requires Admits(w, b, m, custody) && CustodyRight(ring, views, sector, e, b, s, w.custody[b])
    requires Id(m) == e ==> e in s.charged || OwnsByOne(ring, views, sector, b)
    ensures CustodyRight(ring, views, sector, e, b, s, custody[b])
  {
    P.StepKeepsInv(w.custody[b], P.Admit(m), custody[b]);
    hide P.Inv, OwnsByOne;
  }

  lemma ServeKeepsCustody(ring: Ring, views: F.Views, sector: int, e: string, b: string, s: I.Broker,
                          p: P.Broker, act: P.Op, p': P.Broker)
    requires P.Step(p, act, p') && !act.Admit? && CustodyRight(ring, views, sector, e, b, s, p)
    ensures CustodyRight(ring, views, sector, e, b, s, p')
  {
    P.StepKeepsInv(p, act, p');
    hide P.Inv, OwnsByOne, Aging.Step, P.TimedOut;
  }

  lemma CustodyFollowsCharges(ring: Ring, views: F.Views, sector: int, e: string, b: string, s: I.Broker, s': I.Broker,
                              p: P.Broker)
    requires CustodyRight(ring, views, sector, e, b, s, p) && (e in s.charged ==> e in s'.charged)
    ensures CustodyRight(ring, views, sector, e, b, s', p)
  {
  }

  lemma StepKeepsRight(ring: Ring, views: F.Views, sector: int, e: string, w: World, op: Op, w': World)
    requires AllRight(ring, views, sector, e, w) && Step(ring, w, op, w') && Fair(views, sector, e, w, op)
    ensures AllRight(ring, views, sector, e, w')
  {
    hide F.GoesRight, F.Step, CopiesRight, NamesSector, CustodyRight, Admits, OwnsByOne, P.Step;
    match op {
      case Moves(step) =>
        MailKeepsRight(ring, views, sector, e, w.mail, step, w'.mail);
        CustodiesFollow(ring, views, sector, e, w, w');
      case QueuesOwn(b, f) =>
        MailKeepsRight(ring, views, sector, e, w.mail, F.At(b, I.Queues(f)), w'.mail);
        QueueKeepsCustody(ring, views, sector, e, w, b, f, w');
      case Loads(b, f) => LoadKeepsHands(e, sector, w, b, f);
      case Takes(h, view) => TakeKeepsCustody(ring, views, sector, e, w, h, view, w');
      case Removes(h) =>
        var move := F.At(w.hands[h].broker, I.Rescues(Id(w.hands[h].mission)));
        MailKeepsRight(ring, views, sector, e, w.mail, move, w'.mail);
        CustodiesFollow(ring, views, sector, e, w, w');
      case Serves(b, act) =>
        ServeKeepsCustody(ring, views, sector, e, b, w.mail.brokers[b], w.custody[b], act, w'.custody[b]);
    }
  }

  lemma CustodiesFollow(ring: Ring, views: F.Views, sector: int, e: string, w: World, w': World)
    requires w'.custody == w.custody && w.custody.Keys == w.mail.brokers.Keys == w'.mail.brokers.Keys
    requires forall b :: b in w.custody ==> CustodyRight(ring, views, sector, e, b, w.mail.brokers[b], w.custody[b])
    requires forall b :: b in w'.mail.brokers && e in w.mail.brokers[b].charged ==> e in w'.mail.brokers[b].charged
    ensures forall b :: b in w'.custody ==> CustodyRight(ring, views, sector, e, b, w'.mail.brokers[b], w'.custody[b])
  {
    forall b | b in w'.custody
      ensures CustodyRight(ring, views, sector, e, b, w'.mail.brokers[b], w'.custody[b])
    {
      CustodyFollowsCharges(ring, views, sector, e, b, w.mail.brokers[b], w'.mail.brokers[b], w.custody[b]);
    }
  }

  lemma QueueKeepsCustody(ring: Ring, views: F.Views, sector: int, e: string, w: World, b: string, f: string, w': World)
    requires AllRight(ring, views, sector, e, w) && Step(ring, w, QueuesOwn(b, f), w')
    requires w'.mail.brokers.Keys == w.mail.brokers.Keys
    requires forall x :: x in w'.mail.brokers && e in w.mail.brokers[x].charged ==> e in w'.mail.brokers[x].charged
    ensures w'.custody.Keys == w.custody.Keys
    ensures forall x :: x in w'.custody ==> CustodyRight(ring, views, sector, e, x, w'.mail.brokers[x], w'.custody[x])
  {
    hide F.GoesRight, F.Step, CopiesRight, NamesSector, CustodyRight, OwnsByOne, P.Step;
    PaidWasCharged(ring, views, sector, e, w.mail, b, f);
    CustodiesFollow(ring, views, sector, e, w, w.(mail := w'.mail));
    var m := w.mail.brokers[b].workers[f].mission;
    AdmitKeepsCustody(ring, views, sector, e, w, b, m, w'.custody, w'.mail.brokers[b]);
  }

  lemma LoadKeepsHands(e: string, sector: int, w: World, b: string, f: string)
    requires HandsRight(e, sector, w.hands) && b in w.mail.brokers && f in w.mail.brokers[b].shadow
    requires CopiesRight(e, sector, w.mail.brokers[b])
    ensures HandsRight(e, sector, w.hands + [Loaded(b, w.mail.brokers[b].shadow[f])])
  {
  }

  lemma TakeKeepsCustody(
    ring: Ring, views: F.Views, sector: int, e: string, w: World, h: nat, view: set<string>, w': World)
    requires AllRight(ring, views, sector, e, w) && Step(ring, w, Takes(h, view), w')
    requires Fair(views, sector, e, w, Takes(h, view))
    ensures HandsRight(e, sector, w'.hands) && w'.custody.Keys == w.custody.Keys
    ensures forall x :: x in w'.custody ==> CustodyRight(ring, views, sector, e, x, w.mail.brokers[x], w'.custody[x])
  {
    hide F.GoesRight, CopiesRight, CustodyRight, P.Step;
    var b, m := w.hands[h].broker, w.hands[h].mission;
    if Owns(ring, view, m.payload.sectorID, b) {
      AdmitKeepsCustody(ring, views, sector, e, w, b, m, w'.custody, w.mail.brokers[b]);
    }
  }

  lemma {:induction false} EverythingRight(
    ring: Ring, views: F.Views, sector: int, e: string, ops: seq<Op>, w: World)
    requires Reaches(ring, views, sector, e, ops, w)
    ensures AllRight(ring, views, sector, e, w)
  {
    hide AllRight, Step, Fair, Start;
    if ops == [] {
      StartIsRight(ring, views, sector, e);
    } else {
      var earlier, last := ops[..|ops| - 1], ops[|ops| - 1];
      var mid :| Reaches(ring, views, sector, e, earlier, mid) && Step(ring, mid, last, w)
                 && Fair(views, sector, e, mid, last);
      EverythingRight(ring, views, sector, e, earlier, mid);
      StepKeepsRight(ring, views, sector, e, mid, last, w);
    }
  }

  // ---------- carried out twice ----------

  predicate IsServed(w: World, b: string, e: string) {
    b in w.custody && e in w.custody[b].discharged
  }

  predicate IsCharged(w: World, b: string, e: string) {
    b in w.mail.brokers && e in w.mail.brokers[b].charged
  }

  /** A broker discharges only what it charged for, electing itself, or what is its own by a view. */
  lemma ServedWasDue(ring: Ring, views: F.Views, sector: int, e: string, ops: seq<Op>, w: World, b: string)
    requires Reaches(ring, views, sector, e, ops, w) && IsServed(w, b, e)
    ensures (IsCharged(w, b, e) && F.ElectsItself(ring, views, sector, b)) || OwnsByOne(ring, views, sector, b)
  {
    hide Reaches, F.GoesRight, OwnsByOne, F.ElectsItself, CopiesRight, Ids;
    hide P.InQueue, P.InPending, P.InHands, P.Dropped;
    EverythingRight(ring, views, sector, e, ops, w);
    var p := w.custody[b];
    assert P.IsAccounted(p, e);
    assert e in multiset(p.discharged);
    if IsCharged(w, b, e) {
      assert e in multiset(w.mail.brokers[b].charged);
      F.ChargerElectsItself(ring, views, sector, e, w.mail, b);
    }
  }

  lemma OwnersElectThemselves(ring: Ring, views: F.Views, sector: int, b: string)
    requires OwnsByOne(ring, views, sector, b)
    ensures F.ElectsItself(ring, views, sector, b)
  {
    var view :| view in views[b] && Owns(ring, view, sector, b);
    assert F.IsOwner(ring, view, sector, b);
  }

  /** In this run only one broker charges for the event, and still two discharge it. */
  ghost predicate ServesTwice(
    ring: Ring, views: F.Views, sector: int, e: string, ops: seq<Op>, w: World, b: string, c: string) {
    && Reaches(ring, views, sector, e, ops, w) && b != c && IsServed(w, b, e) && IsServed(w, c, e)
    && forall x, y :: IsCharged(w, x, e) && IsCharged(w, y, e) ==> x == y
  }

  ghost predicate NeverServedTwice(ring: Ring, views: F.Views, sector: int, e: string) {
    forall ops, w, b, c :: !ServesTwice(ring, views, sector, e, ops, w, b, c)
  }

  lemma TwoServersWereDue(
    ring: Ring, views: F.Views, sector: int, e: string, ops: seq<Op>, w: World, b: string, c: string)
    requires ServesTwice(ring, views, sector, e, ops, w, b, c)
    ensures exists x, y :: x != y && F.ElectsItself(ring, views, sector, x) && OwnsByOne(ring, views, sector, y)
  {
    hide Reaches, OwnsByOne, F.ElectsItself, IsServed, IsCharged;
    ServedWasDue(ring, views, sector, e, ops, w, b);
    ServedWasDue(ring, views, sector, e, ops, w, c);
    if OwnsByOne(ring, views, sector, b) {
      OwnersElectThemselves(ring, views, sector, b);
    }
    if OwnsByOne(ring, views, sector, c) {
      OwnersElectThemselves(ring, views, sector, c);
    }
    if OwnsByOne(ring, views, sector, c) {
      assert b != c && F.ElectsItself(ring, views, sector, b) && OwnsByOne(ring, views, sector, c);
    } else {
      assert c != b && F.ElectsItself(ring, views, sector, c) && OwnsByOne(ring, views, sector, b);
    }
  }

  // ---------- a run that carries an event out twice ----------

  lemma OneMoreStep(ring: Ring, views: F.Views, sector: int, e: string, ops: seq<Op>, w: World, op: Op, next: World)
    returns (more: seq<Op>, w': World)
    requires Reaches(ring, views, sector, e, ops, w) && Step(ring, w, op, next) && Fair(views, sector, e, w, op)
    ensures Reaches(ring, views, sector, e, more, w') && w' == next
  {
    hide Step, Fair, Start;
    more, w' := ops + [op], next;
    assert more[..|more| - 1] == ops;
  }

  /** The world with this broker's intake as given. */
  function With(w: World, b: string, s: I.Broker): World {
    w.(mail := w.mail.(brokers := w.mail.brokers[b := s]))
  }

  lemma OneMoreMove(ring: Ring, views: F.Views, sector: int, e: string, ops: seq<Op>, w: World,
                    b: string, s: I.Broker, move: I.Op, s': I.Broker)
    returns (more: seq<Op>)
    requires Reaches(ring, views, sector, e, ops, With(w, b, s)) && !move.Queues? && !move.Rescues?
    requires I.Step(F.SiteOf(ring, b), s, move, s')
    requires move.Receives? || move.Hears? ==> F.Delivered(With(w, b, s).mail, b, move)
    requires move.Routes? ==> b in views && move.view in views[b]
    ensures Reaches(ring, views, sector, e, more, With(w, b, s'))
  {
    assert F.Delivered(With(w, b, s).mail, b, move);
    hide Reaches, I.Step, F.Delivered;
    assert w.mail.brokers[b := s][b := s'] == w.mail.brokers[b := s'];
    var end;
    more, end := OneMoreStep(ring, views, sector, e, ops, With(w, b, s), Moves(F.At(b, move)), With(w, b, s'));
  }

  predicate OthersSame(w: World, w': World, b: string) {
    && w'.mail.brokers.Keys == w.mail.brokers.Keys && w'.custody.Keys == w.custody.Keys
    && (forall x :: x in w.mail.brokers && x != b ==> w'.mail.brokers[x] == w.mail.brokers[x])
    && (forall x :: x in w.custody && x != b ==> w'.custody[x] == w.custody[x])
  }

  /** The moves of a broker that owns the sector by this view, from the request to the charge. */
  lemma ChargeMoves(ring: Ring, sector: int, e: string, a: string, view: set<string>)
    returns (passed: I.Broker, stamped: I.Broker, own: I.Broker, paid: I.Broker, m: Mission)
    requires sector > 0 && F.IsOwner(ring, view, sector, a)
    ensures var site, data := F.SiteOf(ring, a), Request(e, sector);
            && I.Step(site, I.START, I.Receives(data), passed) && I.Step(site, passed, I.Ticks(e), stamped)
            && I.Step(site, stamped, I.Routes(e, view), own) && I.Step(site, own, I.Charges(e, true), paid)
            && m.payload == data
    ensures paid.charged == [e] && paid.workers == map[e := I.Paid(m)] && paid.verdicts == {}
  {
    hide Owner, I.IsElsewhere;
    var site, data := F.SiteOf(ring, a), Request(e, sector);
    assert !I.IsElsewhere(site, Owner(ring, view, sector));
    passed := I.After(site, I.START, I.Receives(data));
    assert passed.workers == map[e := I.Passed(data)];
    stamped := I.After(site, passed, I.Ticks(e));
    m := stamped.workers[e].mission;
    assert stamped.workers == map[e := I.Stamped(m)];
    own := I.After(site, stamped, I.Routes(e, view));
    assert own.workers == map[e := I.Own(m)];
    paid := I.After(site, own, I.Charges(e, true));
  }

  lemma WithChangesOne(w: World, b: string, s: I.Broker)
    requires b in w.mail.brokers
    ensures var w' := With(w, b, s);
            OthersSame(w, w', b) && w'.mail.brokers[b] == s && w'.custody == w.custody && w'.hands == w.hands
    ensures w.mail.brokers[b] == s ==> With(w, b, s) == w
  {
  }

  /** A request for the sector, as its sensor sends it. */
  function Request(e: string, sector: int): SensorData {
    SensorData(e, "sensor", sector, true, false, 0, "", "")
  }

  lemma RequestSent(ring: Ring, views: F.Views, sector: int, e: string, before: seq<Op>, at: World, a: string)
    returns (ops: seq<Op>, w: World)
    requires Reaches(ring, views, sector, e, before, at) && a in at.mail.brokers && at.mail.brokers[a] == I.START
    ensures Reaches(ring, views, sector, e, ops, w) && With(w, a, I.START) == w
    ensures OthersSame(at, w, a) && w.hands == at.hands && w.custody == at.custody
    ensures a in w.mail.brokers && F.Arrives(w.mail, a, Request(e, sector))
  {
    var data := Request(e, sector);
    hide Reaches;
    var sent := at.(mail := at.mail.(sensed := at.mail.sensed + {(a, data)}));
    ops, w := OneMoreStep(ring, views, sector, e, before, at, Moves(F.Sensed(a, data)), sent);
    assert sent.mail.brokers[a := I.START] == sent.mail.brokers;
  }

  /** A broker that owns the sector by this view takes the request in and charges for it. */
  lemma ChargesFirst(
    ring: Ring, views: F.Views, sector: int, e: string, before: seq<Op>, at: World, a: string, view: set<string>)
    returns (ops: seq<Op>, w: World, m: Mission)
    requires Reaches(ring, views, sector, e, before, at) && a in at.mail.brokers && at.mail.brokers[a] == I.START
    requires sector > 0 && a in views && view in views[a] && F.IsOwner(ring, view, sector, a)
    ensures Reaches(ring, views, sector, e, ops, w) && OthersSame(at, w, a) && w.hands == at.hands
    ensures w.custody == at.custody && m.payload == Request(e, sector)
    ensures a in w.mail.brokers && w.mail.brokers[a].charged == [e]
    ensures w.mail.brokers[a].workers == map[e := I.Paid(m)] && w.mail.brokers[a].verdicts == {}
  {
    var data := Request(e, sector);
    var passed, stamped, own, paid;
    passed, stamped, own, paid, m := ChargeMoves(ring, sector, e, a, view);
    var sent;
    ops, sent := RequestSent(ring, views, sector, e, before, at, a);
    WithChangesOne(sent, a, paid);
    hide Reaches, I.Step, F.IsOwner, With, OthersSame, F.Arrives;
    ops := OneMoreMove(ring, views, sector, e, ops, sent, a, I.START, I.Receives(data), passed);
    ops := OneMoreMove(ring, views, sector, e, ops, sent, a, passed, I.Ticks(e), stamped);
    ops := OneMoreMove(ring, views, sector, e, ops, sent, a, stamped, I.Routes(e, view), own);
    ops := OneMoreMove(ring, views, sector, e, ops, sent, a, own, I.Charges(e, true), paid);
    w := With(sent, a, paid);
    StillSame(at, sent, w, a);
  }

  /** A broker with one mission queued and nothing else done. */
  function Queued(m: Mission): P.Broker {
    P.START.(queue := [m], admitted := [Id(m)])
  }

  lemma FlowsThrough(m: Mission)
    ensures P.Step(P.START, P.Admit(m), Queued(m))
    ensures var popped := Queued(m).(queue := [], popped := [m]);
            var pending := popped.(popped := [], pending := map[Id(m) := P.PendingMission(m, 0)]);
            && P.Step(Queued(m), P.Pop(m), popped) && P.Step(popped, P.Checkout(0, 0), pending)
            && P.Step(pending, P.Resolve("SUCCESS", m), pending.(pending := map[], discharged := [Id(m)]))
  {
    LessIsWeakOrder(m, m, m);
    assert map[Id(m) := P.PendingMission(m, 0)] - {Id(m)} == map[];
  }

  /** A queued mission is handed out and confirmed. */
  lemma Discharges(ring: Ring, views: F.Views, sector: int, e: string, ops: seq<Op>, w: World, b: string, m: Mission)
    returns (more: seq<Op>, w': World)
    requires Reaches(ring, views, sector, e, ops, w) && b in w.custody && w.custody[b] == Queued(m)
    ensures Reaches(ring, views, sector, e, more, w') && IsServed(w', b, Id(m))
    ensures w'.mail == w.mail && w'.hands == w.hands && OthersSame(w, w', b)
  {
    FlowsThrough(m);
    hide Reaches, P.Step, Queued;
    var popped := Queued(m).(queue := [], popped := [m]);
    var pending := popped.(popped := [], pending := map[Id(m) := P.PendingMission(m, 0)]);
    var done := pending.(pending := map[], discharged := [Id(m)]);
    more, w' := OneMoreStep(ring, views, sector, e, ops, w, Serves(b, P.Pop(m)), w.(custody := w.custody[b := popped]));
    more, w' := OneMoreStep(ring, views, sector, e, more, w', Serves(b, P.Checkout(0, 0)),
                            w'.(custody := w'.custody[b := pending]));
    more, w' := OneMoreStep(ring, views, sector, e, more, w', Serves(b, P.Resolve("SUCCESS", m)),
                            w'.(custody := w'.custody[b := done]));
  }

  /** The moves of a worker after its charge was approved. */
  lemma TellMoves(site: I.Site, paid: I.Broker, m: Mission, c: string) returns (answered: I.Broker, announced: I.Broker)
    requires paid.workers == map[Id(m) := I.Paid(m)] && c != site.name
    ensures I.Step(site, paid, I.Queues(Id(m)), answered) && I.Step(site, answered, I.Announces(Id(m), {c}), announced)
    ensures (c, "ACK", m) in announced.verdicts && announced.charged == paid.charged
  {
    answered := I.After(site, paid, I.Queues(Id(m)));
    assert answered.workers == map[Id(m) := I.Answered("ACK", m)];
    announced := I.After(site, answered, I.Announces(Id(m), {c}));
  }

  /** The owner queues what it charged for and tells the other broker. */
  lemma QueuesAndTells(
    ring: Ring, views: F.Views, sector: int, e: string, ops: seq<Op>, w: World, a: string, m: Mission, c: string)
    returns (more: seq<Op>, w': World)
    requires Reaches(ring, views, sector, e, ops, w) && a in w.mail.brokers && a in w.custody && a != c && Id(m) == e
    requires w.mail.brokers[a].workers == map[e := I.Paid(m)] && w.custody[a] == P.START
    ensures Reaches(ring, views, sector, e, more, w') && OthersSame(w, w', a) && w'.hands == w.hands
    ensures a in w'.custody && w'.custody[a] == Queued(m)
    ensures F.IsTold(w'.mail, c, "ACK", m) && w'.mail.brokers[a].charged == w.mail.brokers[a].charged
  {
    FlowsThrough(m);
    hide Reaches, P.Step, Queued;
    var answered, announced := TellMoves(F.SiteOf(ring, a), w.mail.brokers[a], m, c);
    hide I.Step;
    var queued := With(w, a, answered).(custody := w.custody[a := Queued(m)]);
    more, w' := OneMoreStep(ring, views, sector, e, ops, w, QueuesOwn(a, e), queued);
    assert With(queued, a, answered) == queued;
    more := OneMoreMove(ring, views, sector, e, more, queued, a, answered, I.Announces(e, {c}), announced);
    w' := With(queued, a, announced);
  }

  /** The moves of a handler that hears of a charge. */
  lemma HearMoves(site: I.Site, e: string, m: Mission) returns (noted: I.Broker, cleared: I.Broker, kept: I.Broker)
    requires Id(m) == e && e != ""
    ensures I.Step(site, I.START, I.Hears("ACK", e, m), noted) && I.Step(site, noted, I.Retrieves(0), cleared)
    ensures I.Step(site, cleared, I.Shadows(0), kept) && kept.shadow == map[e := m] && kept.charged == []
  {
    noted := I.After(site, I.START, I.Hears("ACK", e, m));
    assert noted.handlers == [I.Noted("ACK", e, m)];
    cleared := I.After(site, noted, I.Retrieves(0));
    assert cleared.handlers == [I.Cleared(m)];
    kept := I.After(site, cleared, I.Shadows(0));
  }

  /** The other broker hears of the charge and keeps a copy. */
  lemma HearsAndKeeps(ring: Ring, views: F.Views, sector: int, e: string, ops: seq<Op>, w: World, c: string, m: Mission)
    returns (more: seq<Op>, w': World)
    requires Reaches(ring, views, sector, e, ops, w) && F.IsTold(w.mail, c, "ACK", m) && Id(m) == e && e != ""
    requires c in w.mail.brokers && w.mail.brokers[c] == I.START
    ensures Reaches(ring, views, sector, e, more, w') && OthersSame(w, w', c)
    ensures w'.custody == w.custody && w'.hands == w.hands
    ensures w'.mail.brokers[c].shadow == map[e := m] && w'.mail.brokers[c].charged == []
  {
    var noted, cleared, kept := HearMoves(F.SiteOf(ring, c), e, m);
    WithChangesOne(w, c, I.START);
    WithChangesOne(w, c, kept);
    hide Reaches, I.Step, F.IsTold, With, OthersSame;
    more := OneMoreMove(ring, views, sector, e, ops, w, c, I.START, I.Hears("ACK", e, m), noted);
    more := OneMoreMove(ring, views, sector, e, more, w, c, noted, I.Retrieves(0), cleared);
    more := OneMoreMove(ring, views, sector, e, more, w, c, cleared, I.Shadows(0), kept);
    w' := With(w, c, kept);
  }

  /** By a view that makes it the owner, the other broker rescues its copy, whatever became of the event meanwhile. */
  lemma RescuesCopy(ring: Ring, views: F.Views, sector: int, e: string, ops: seq<Op>, w: World, c: string, m: Mission,
                    view: set<string>)
    returns (more: seq<Op>, w': World)
    requires Reaches(ring, views, sector, e, ops, w) && c in w.mail.brokers && w.mail.brokers[c].shadow == map[e := m]
    requires w.hands == [] && c in w.custody && w.custody[c] == P.START && m.payload.sectorID == sector
    requires c in views && view in views[c] && Owns(ring, view, sector, c)
    ensures Reaches(ring, views, sector, e, more, w') && OthersSame(w, w', c)
    ensures w'.mail == w.mail && c in w'.custody && w'.custody[c] == Queued(m)
  {
    FlowsThrough(m);
    hide Reaches, P.Step, Queued, Owns;
    more, w' := OneMoreStep(ring, views, sector, e, ops, w, Loads(c, e), w.(hands := [Loaded(c, m)]));
    more, w' := OneMoreStep(ring, views, sector, e, more, w', Takes(0, view),
                            w'.(custody := w'.custody[c := Queued(m)], hands := [Took(c, m)]));
  }

  /** Among others, this broker has done nothing yet. */
  lemma AtRestAmong(views: F.Views, w: World, a: string, c: string)
    requires OthersSame(Start(views), w, a) && c in views && c != a
    ensures c in w.mail.brokers && w.mail.brokers[c] == I.START && c in w.custody && w.custody[c] == P.START
    ensures forall x, e :: IsCharged(w, x, e) ==> x == a
  {
  }

  /** The owner charges, queues, tells the other broker, and discharges. */
  lemma OwnerCarriesOut(ring: Ring, views: F.Views, sector: int, e: string, a: string, view: set<string>, c: string)
    returns (ops: seq<Op>, w: World, m: Mission)
    requires sector > 0 && a in views && view in views[a] && F.IsOwner(ring, view, sector, a) && a != c && c in views
    ensures Reaches(ring, views, sector, e, ops, w) && OthersSame(Start(views), w, a) && w.hands == []
    ensures F.IsTold(w.mail, c, "ACK", m) && Id(m) == e && m.payload.sectorID == sector && IsServed(w, a, e)
  {
    var start := Start(views);
    assert Reaches(ring, views, sector, e, [], start);
    hide Reaches, F.IsOwner, F.IsTold, Queued;
    ops, w, m := ChargesFirst(ring, views, sector, e, [], start, a, view);
    assert a in w.custody && w.custody[a] == P.START;
    var told, served;
    ops, told := QueuesAndTells(ring, views, sector, e, ops, w, a, m, c);
    StillSame(Start(views), w, told, a);
    hide OthersSame;
    ops, served := Discharges(ring, views, sector, e, ops, told, a, m);
    StillSame(Start(views), told, served, a);
    w := served;
  }

  lemma StillSame(w: World, w': World, w'': World, b: string)
    requires OthersSame(w, w', b) && OthersSame(w', w'', b)
    ensures OthersSame(w, w'', b)
  {
  }

  /** The owner charges, queues and discharges; then a broker whose view makes it the owner does it all over again. */
  lemma CarriedOutAgain(ring: Ring, views: F.Views, sector: int, e: string, a: string, c: string)
    returns (ops: seq<Op>, w: World)
    requires sector > 0 && e != "" && a != c
    requires F.ElectsItself(ring, views, sector, a) && OwnsByOne(ring, views, sector, c)
    ensures ServesTwice(ring, views, sector, e, ops, w, a, c)
  {
    var view :| view in views[a] && F.IsOwner(ring, view, sector, a);
    var later :| later in views[c] && Owns(ring, later, sector, c);
    hide Reaches, F.IsOwner, Owns, F.IsTold, Queued, Start, OthersSame, IsServed, IsCharged, ServesTwice;
    var m, first, kept, rescued;
    ops, first, m := OwnerCarriesOut(ring, views, sector, e, a, view, c);
    AtRestAmong(views, first, a, c);
    ops, kept := HearsAndKeeps(ring, views, sector, e, ops, first, c, m);
    Untouched(first, kept, c, a, e);
    ops, rescued := RescuesCopy(ring, views, sector, e, ops, kept, c, m, later);
    Untouched(kept, rescued, c, a, e);
    ops, w := Discharges(ring, views, sector, e, ops, rescued, c, m);
    Untouched(rescued, w, c, a, e);
    NothingChargedAt(kept, rescued, w, c, e);
    BothServed(ring, views, sector, e, ops, w, a, c);
  }

  lemma NothingChargedAt(kept: World, rescued: World, w: World, c: string, e: string)
    requires c in kept.mail.brokers && kept.mail.brokers[c].charged == []
    requires rescued.mail == kept.mail && w.mail == rescued.mail
    ensures !IsCharged(w, c, e)
  {
  }

  lemma BothServed(ring: Ring, views: F.Views, sector: int, e: string, ops: seq<Op>, w: World, a: string, c: string)
    requires Reaches(ring, views, sector, e, ops, w) && a != c && IsServed(w, a, e) && IsServed(w, c, e)
    requires forall x :: IsCharged(w, x, e) ==> x == a
    ensures ServesTwice(ring, views, sector, e, ops, w, a, c)
  {
    hide Reaches, IsServed, IsCharged;
  }

  /** What happens at one broker neither undoes a discharge at another nor charges there. */
  lemma Untouched(w: World, w': World, c: string, a: string, e: string)
    requires OthersSame(w, w', c) && a != c && c in w.mail.brokers && c in w'.mail.brokers
    ensures IsServed(w, a, e) ==> IsServed(w', a, e)
    ensures forall x :: x != c ==> (IsCharged(w', x, e) <==> IsCharged(w, x, e))
  {
  }

  /**
   * Even if only one broker charges for the event: no run discharges it at two brokers, if and only if nobody but the
   * broker that elects itself ever sees itself as the sector's owner. A takeover is enough for discharging it again.
   */
  lemma ServedOnceExactly(ring: Ring, views: F.Views, sector: int, e: string)
    requires sector > 0 && e != ""
    ensures NeverServedTwice(ring, views, sector, e)
            <==> forall b, c :: F.ElectsItself(ring, views, sector, b) && OwnsByOne(ring, views, sector, c) ==> b == c
  {
    hide ServesTwice, F.ElectsItself, OwnsByOne;
    forall ops, w, b, c | ServesTwice(ring, views, sector, e, ops, w, b, c)
      ensures exists x, y :: x != y && F.ElectsItself(ring, views, sector, x) && OwnsByOne(ring, views, sector, y)
    {
      TwoServersWereDue(ring, views, sector, e, ops, w, b, c);
    }
    forall b, c | b != c && F.ElectsItself(ring, views, sector, b) && OwnsByOne(ring, views, sector, c)
      ensures exists ops, w :: ServesTwice(ring, views, sector, e, ops, w, b, c)
    {
      var ops, w := CarriedOutAgain(ring, views, sector, e, b, c);
    }
  }
}
