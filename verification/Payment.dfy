/**
 * What workers and rescues queue against what the ledger debits. A worker queues when the mempool has taken its spend
 * in, which is before the chain accepts or refuses it; so queued missions and accepted debits can part.
 */
module Payment {
  import opened Missions
  import opened Permutations
  import opened LedgerState
  import opened LedgerTheorems
  import opened SectorRouting
  import opened Text
  import OperationKeys
  import F = Forwarding
  import I = Intake
  import P = BrokerProtocol
  import X = Execution

  // ---------- one debit to an event ----------

  predicate IsPaidBy(node: Node, l: Ledger, txs: seq<Bytes>, i: nat)
    requires i < |txs|
  {
    Codes(node, l, txs)[i] == 0 && IsSpendOfAny(node, txs[i])
  }

  function EventOf(node: Node, txBytes: Bytes): string {
    match node.decode(txBytes)
    case None => ""
    case Some(tx) => tx.eventID
  }

  /** The events whose spend the chain accepted. */
  ghost function PaidEvents(node: Node, l: Ledger, txs: seq<Bytes>): set<string> {
    set i | 0 <= i < |txs| && IsPaidBy(node, l, txs, i) :: EventOf(node, txs[i])
  }

  lemma PaidOnce(node: Node, l: Ledger, txs: seq<Bytes>, i: nat, j: nat)
    requires i < j < |txs| && IsPaidBy(node, l, txs, i) && IsPaidBy(node, l, txs, j)
    ensures EventOf(node, txs[i]) != EventOf(node, txs[j])
  {
    BlockClosedForm(node, l, txs, i);
    BlockClosedForm(node, l, txs, j);
    if EventOf(node, txs[i]) == EventOf(node, txs[j]) {
      OperationKeys.OneAcceptancePerKey(node, l, txs, i, j);
    }
  }

  lemma PaidPrefix(node: Node, l: Ledger, txs: seq<Bytes>, i: nat)
    requires i < |txs| - 1
    ensures IsPaidBy(node, l, txs[..|txs| - 1], i) <==> IsPaidBy(node, l, txs, i)
  {
    var init := txs[..|txs| - 1];
    assert init[i] == txs[i];
    CodesAt(node, l, init, i);
    CodesAt(node, l, txs, i);
    assert init[..i] == txs[..i];
  }

  lemma PaidGrows(node: Node, l: Ledger, txs: seq<Bytes>)
    requires txs != []
    ensures var n := |txs| - 1;
            && PaidEvents(node, l, txs) == PaidEvents(node, l, txs[..n])
                                           + (if IsPaidBy(node, l, txs, n) then {EventOf(node, txs[n])} else {})
            && (IsPaidBy(node, l, txs, n) ==> EventOf(node, txs[n]) !in PaidEvents(node, l, txs[..n]))
  {
    hide IsPaidBy, EventOf;
    var n := |txs| - 1;
    var init := txs[..n];
    forall i: nat | i < n
      ensures IsPaidBy(node, l, init, i) <==> IsPaidBy(node, l, txs, i)
      ensures IsPaidBy(node, l, txs, i) && IsPaidBy(node, l, txs, n) ==> EventOf(node, init[i]) != EventOf(node, txs[n])
    {
      PaidPrefix(node, l, txs, i);
      if IsPaidBy(node, l, txs, i) && IsPaidBy(node, l, txs, n) {
        PaidOnce(node, l, txs, i, n);
      }
    }
    forall e
      ensures e in PaidEvents(node, l, txs)
              <==> e in PaidEvents(node, l, init) || (IsPaidBy(node, l, txs, n) && e == EventOf(node, txs[n]))
    {
      if e in PaidEvents(node, l, init) {
        var i :| 0 <= i < n && IsPaidBy(node, l, init, i) && EventOf(node, init[i]) == e;
        assert IsPaidBy(node, l, txs, i) && txs[i] == init[i];
      }
      if e in PaidEvents(node, l, txs) {
        var i :| 0 <= i < |txs| && IsPaidBy(node, l, txs, i) && EventOf(node, txs[i]) == e;
        assert i < n ==> IsPaidBy(node, l, init, i) && txs[i] == init[i];
      }
    }
  }

  /** Over any chain the accepted debits are exactly as many as the events they pay for: none is paid twice. */
  lemma {:induction false} DebitsCountEvents(node: Node, l: Ledger, txs: seq<Bytes>)
    ensures AcceptedDebits(node, l, txs) == |PaidEvents(node, l, txs)|
  {
    if txs == [] {
      assert PaidEvents(node, l, txs) == {};
    } else {
      hide PaidEvents, EventOf;
      var n := |txs| - 1;
      DebitsCountEvents(node, l, txs[..n]);
      PaidGrows(node, l, txs);
    }
  }

  // ---------- the debit of one event ----------

  ghost function DebitsFor(node: Node, l: Ledger, chain: seq<Bytes>, e: string): set<nat> {
    set i: nat | i < |chain| && IsPaidBy(node, l, chain, i) && EventOf(node, chain[i]) == e
  }

  function SpendKey(e: string): string {
    SPEND_CREDIT + "_" + e
  }

  predicate IsValidSpend(node: Node, txBytes: Bytes, e: string) {
    Valid(node, txBytes) && IsSpendOfAny(node, txBytes) && EventOf(node, txBytes) == e
  }

  predicate IsKnownType(node: Node, txBytes: Bytes) {
    Valid(node, txBytes) ==> node.decode(txBytes).value.kind in {SPEND_CREDIT, SAVE_REPORT}
  }

  /** The chain holds a valid spend of the event, which the ledger has not processed, and no types but the two known. */
  ghost predicate Included(node: Node, l: Ledger, chain: seq<Bytes>, e: string) {
    && SpendKey(e) !in l.processed
    && (exists i :: 0 <= i < |chain| && IsValidSpend(node, chain[i], e))
    && (forall i :: 0 <= i < |chain| ==> IsKnownType(node, chain[i]))
  }

  lemma {:induction false} FirstWithKey(node: Node, chain: seq<Bytes>, key: string, i: nat) returns (j: nat)
    requires i < |chain| && HasKey(node, chain[i], key)
    ensures j <= i && IsFirst(node, chain, j, key)
    decreases i
  {
    if k :| 0 <= k < i && HasKey(node, chain[k], key) {
      j := FirstWithKey(node, chain, key, k);
    } else {
      j := i;
    }
  }

  /** On known types the spend's key is only ever a spend's of the event. */
  lemma KeyMeansSpend(node: Node, txBytes: Bytes, e: string)
    requires |e| >= OperationKeys.MIN_EVENT_LENGTH && IsKnownType(node, txBytes)
    ensures HasKey(node, txBytes, SpendKey(e)) <==> IsValidSpend(node, txBytes, e)
  {
    if Valid(node, txBytes) {
      var spend: Transaction := TransactionFields(SPEND_CREDIT, "BR", e, "", "");
      OperationKeys.DedupKeyInjective(node.decode(txBytes).value, spend);
    }
  }

  /** However often its spend is on the chain, an included event is debited exactly once. */
  lemma DebitedOnce(node: Node, l: Ledger, chain: seq<Bytes>, e: string)
    requires |e| >= OperationKeys.MIN_EVENT_LENGTH && Included(node, l, chain, e)
    ensures |DebitsFor(node, l, chain, e)| == 1
  {
    var i :| 0 <= i < |chain| && IsValidSpend(node, chain[i], e);
    KeyMeansSpend(node, chain[i], e);
    var j := FirstWithKey(node, chain, SpendKey(e), i);
    KeyMeansSpend(node, chain[j], e);
    BlockClosedForm(node, l, chain, j);
    assert IsPaidBy(node, l, chain, j);
    hide IsPaidBy, EventOf, IsValidSpend, IsSpendOfAny;
    forall k: nat | k < |chain| && IsPaidBy(node, l, chain, k) && EventOf(node, chain[k]) == e
      ensures k == j
    {
      if k < j {
        PaidOnce(node, l, chain, k, j);
      } else if j < k {
        PaidOnce(node, l, chain, j, k);
      }
    }
    assert DebitsFor(node, l, chain, e) == {j};
  }

  // ---------- rescues follow charges elsewhere ----------

  /** A broker never announces to itself. */
  ghost predicate NoneToSelf(b: string, s: I.Broker) {
    forall receiver: string, action: string, m: Mission :: (receiver, action, m) in s.verdicts ==> receiver != b
  }

  /** The event is in the shadow buffer, or a handler is about to put it there. */
  predicate HasCopy(e: string, s: I.Broker) {
    || (exists x :: x in s.shadow && Id(s.shadow[x]) == e)
    || (exists h :: 0 <= h < |s.handlers| && !s.handlers[h].Finished? && Id(s.handlers[h].mission) == e)
  }

  predicate ChargedElsewhere(brokers: map<string, I.Broker>, e: string, b: string) {
    exists c :: c in brokers && c != b && e in brokers[c].charged
  }

  ghost predicate CopiesFollow(e: string, brokers: map<string, I.Broker>) {
    forall b :: b in brokers ==>
      NoneToSelf(b, brokers[b]) && (HasCopy(e, brokers[b]) ==> ChargedElsewhere(brokers, e, b))
  }

  predicate HandsFollow(e: string, brokers: map<string, I.Broker>, hands: seq<X.Hand>) {
    forall h :: 0 <= h < |hands| && !hands[h].Empty? && Id(hands[h].mission) == e ==>
      ChargedElsewhere(brokers, e, hands[h].broker)
  }

  /** Beyond what its own workers queued, a broker admits an event only as the owner, and after another charged. */
  predicate AdmissionsFollow(
    ring: Ring, views: F.Views, sector: int, e: string, brokers: map<string, I.Broker>, b: string, p: P.Broker) {
    b in brokers
    && (Times(p.admitted, e) <= Times(Ids(brokers[b].queued), e)
        || (X.OwnsByOne(ring, views, sector, b) && ChargedElsewhere(brokers, e, b)))
  }

  ghost predicate Follows(ring: Ring, views: F.Views, sector: int, e: string, w: X.World) {
    && CopiesFollow(e, w.mail.brokers) && HandsFollow(e, w.mail.brokers, w.hands)
    && forall b :: b in w.custody ==> AdmissionsFollow(ring, views, sector, e, w.mail.brokers, b, w.custody[b])
  }

  lemma StartFollows(ring: Ring, views: F.Views, sector: int, e: string)
    ensures Follows(ring, views, sector, e, X.Start(views))
  {
  }

  lemma MoveFollows(site: I.Site, s: I.Broker, move: I.Op, s': I.Broker, e: string)
    requires I.Step(site, s, move, s') && NoneToSelf(site.name, s)
    ensures NoneToSelf(site.name, s')
    ensures HasCopy(e, s') ==> HasCopy(e, s) || (move.Hears? && Id(move.mission) == e)
  {
    hide Owner, I.IsElsewhere, I.IsMissionRequest, I.Packet;
    CopiesAfter(site, s, move, s', e);
    hide HasCopy;
  }

  lemma CopiesAfter(site: I.Site, s: I.Broker, move: I.Op, s': I.Broker, e: string)
    requires I.Step(site, s, move, s')
    ensures HasCopy(e, s') ==> HasCopy(e, s) || (move.Hears? && Id(move.mission) == e)
  {
    hide Owner, I.IsElsewhere, I.IsMissionRequest, I.Packet;
  }

  /** What a worker queues it was about to queue; nothing else is queued. */
  lemma QueuedByMove(site: I.Site, s: I.Broker, move: I.Op, s': I.Broker)
    requires I.Step(site, s, move, s')
    ensures move.Queues? ==> move.eventID in s.workers && s.workers[move.eventID].Paid?
    ensures s'.queued == if move.Queues? then s.queued + [s.workers[move.eventID].mission] else s.queued
  {
    hide Owner, I.IsElsewhere, I.IsMissionRequest, I.Packet;
  }

  lemma ElsewhereStays(e: string, brokers: map<string, I.Broker>, brokers': map<string, I.Broker>, b: string)
    requires ChargedElsewhere(brokers, e, b) && brokers'.Keys == brokers.Keys
    requires forall c :: c in brokers && e in brokers[c].charged ==> e in brokers'[c].charged
    ensures ChargedElsewhere(brokers', e, b)
  {
    var c :| c in brokers && c != b && e in brokers[c].charged;
    assert e in brokers'[c].charged;
  }

  /** A verdict reaches a broker only from another one, which charged. */
  lemma ToldByAnother(
    ring: Ring, views: F.Views, sector: int, e: string, w: F.World, b: string, action: string, m: Mission)
    requires F.GoesRight(ring, views, sector, e, w) && CopiesFollow(e, w.brokers) && F.IsTold(w, b, action, m)
    ensures ChargedElsewhere(w.brokers, Id(m), b)
  {
    hide I.Inv, HasCopy, F.AllWentTheirWay;
    var c :| c in w.brokers && (b, action, m) in w.brokers[c].verdicts;
    assert NoneToSelf(c, w.brokers[c]);
    F.AnnouncedWasCharged(w.brokers[c], b, action, m);
    assert Id(m) in multiset(w.brokers[c].charged);
  }

  lemma MailFollows(ring: Ring, views: F.Views, sector: int, e: string, w: F.World, op: F.Op, w': F.World)
    requires F.GoesRight(ring, views, sector, e, w) && F.Step(ring, w, op, w') && CopiesFollow(e, w.brokers)
    requires w'.brokers.Keys == w.brokers.Keys
    requires forall b :: b in w.brokers && e in w.brokers[b].charged ==> e in w'.brokers[b].charged
    ensures CopiesFollow(e, w'.brokers)
  {
    hide F.GoesRight, I.Step, HasCopy, NoneToSelf, ChargedElsewhere;
    if op.At? {
      MoveFollows(F.SiteOf(ring, op.broker), w.brokers[op.broker], op.move, w'.brokers[op.broker], e);
      if op.move.Hears? {
        ToldByAnother(ring, views, sector, e, w, op.broker, op.move.action, op.move.mission);
      }
    }
    forall b | b in w'.brokers && HasCopy(e, w'.brokers[b])
      ensures ChargedElsewhere(w'.brokers, e, b)
    {
      ElsewhereStays(e, w.brokers, w'.brokers, b);
    }
  }

  lemma HandsStillFollow(e: string, brokers: map<string, I.Broker>, brokers': map<string, I.Broker>, hands: seq<X.Hand>)
    requires HandsFollow(e, brokers, hands) && brokers'.Keys == brokers.Keys
    requires forall c :: c in brokers && e in brokers[c].charged ==> e in brokers'[c].charged
    ensures HandsFollow(e, brokers', hands)
  {
    hide ChargedElsewhere;
    forall h | 0 <= h < |hands| && !hands[h].Empty? && Id(hands[h].mission) == e
      ensures ChargedElsewhere(brokers', e, hands[h].broker)
    {
      ElsewhereStays(e, brokers, brokers', hands[h].broker);
    }
  }

  /** Admissions still follow when queues only grow and charges stay. */
  lemma AdmissionsStillFollow(
    ring: Ring, views: F.Views, sector: int, e: string, brokers: map<string, I.Broker>, brokers': map<string, I.Broker>,
    b: string, p: P.Broker)
    requires AdmissionsFollow(ring, views, sector, e, brokers, b, p) && brokers'.Keys == brokers.Keys
    requires forall c :: c in brokers && e in brokers[c].charged ==> e in brokers'[c].charged
    requires Times(Ids(brokers[b].queued), e) <= Times(Ids(brokers'[b].queued), e)
    ensures AdmissionsFollow(ring, views, sector, e, brokers', b, p)
  {
    hide ChargedElsewhere, X.OwnsByOne, Ids;
    if ChargedElsewhere(brokers, e, b) {
      ElsewhereStays(e, brokers, brokers', b);
    }
  }

  lemma QueuesGrow(ring: Ring, w: F.World, op: F.Op, w': F.World, e: string)
    requires F.Step(ring, w, op, w')
    ensures forall b :: b in w.brokers ==> b in w'.brokers
                                           && Times(Ids(w.brokers[b].queued), e) <= Times(Ids(w'.brokers[b].queued), e)
  {
    hide I.Step, Ids;
    if op.At? {
      var s := w.brokers[op.broker];
      QueuedByMove(F.SiteOf(ring, op.broker), s, op.move, w'.brokers[op.broker]);
      if op.move.Queues? {
        IdsMore(s.queued, s.workers[op.move.eventID].mission);
      }
    }
  }

  /** A step of the intake that queues nothing by itself. */
  lemma MailKeepsFollowing(ring: Ring, views: F.Views, sector: int, e: string, w: X.World, op: F.Op, mail': F.World)
    requires X.AllRight(ring, views, sector, e, w) && Follows(ring, views, sector, e, w)
    requires F.Step(ring, w.mail, op, mail') && F.Fair(views, sector, e, op)
    ensures Follows(ring, views, sector, e, w.(mail := mail'))
  {
    hide F.GoesRight, F.Step, X.CopiesRight, X.HandsRight, X.CustodyRight, CopiesFollow, HandsFollow, AdmissionsFollow;
    X.MailKeepsRight(ring, views, sector, e, w.mail, op, mail');
    MailFollows(ring, views, sector, e, w.mail, op, mail');
    HandsStillFollow(e, w.mail.brokers, mail'.brokers, w.hands);
    QueuesGrow(ring, w.mail, op, mail', e);
    forall b | b in w.custody
      ensures AdmissionsFollow(ring, views, sector, e, mail'.brokers, b, w.custody[b])
    {
      AdmissionsStillFollow(ring, views, sector, e, w.mail.brokers, mail'.brokers, b, w.custody[b]);
    }
  }

  /** A worker's mission enters queue and count together. */
  lemma QueueKeepsFollowing(
    ring: Ring, views: F.Views, sector: int, e: string, w: X.World, b: string, f: string, w': X.World)
    requires X.AllRight(ring, views, sector, e, w) && Follows(ring, views, sector, e, w)
    requires X.Step(ring, w, X.QueuesOwn(b, f), w')
    ensures Follows(ring, views, sector, e, w')
  {
    hide F.GoesRight, I.Step, X.CopiesRight, X.HandsRight, X.CustodyRight, CopiesFollow, HandsFollow, Ids, X.OwnsByOne;
    var m := w.mail.brokers[b].workers[f].mission;
    MailKeepsFollowing(ring, views, sector, e, w, F.At(b, I.Queues(f)), w'.mail);
    AdmittedNext(w, b, m, w'.custody);
    QueuedByMove(F.SiteOf(ring, b), w.mail.brokers[b], I.Queues(f), w'.mail.brokers[b]);
    IdsMore(w.mail.brokers[b].queued, m);
    X.MailKeepsRight(ring, views, sector, e, w.mail, F.At(b, I.Queues(f)), w'.mail);
    AdmissionsAfterQueue(ring, views, sector, e, w.mail.brokers, w'.mail.brokers, b, m, w.custody[b], w'.custody[b]);
  }

  lemma AdmittedNext(w: X.World, b: string, m: Mission, custody: map<string, P.Broker>)
    requires X.Admits(w, b, m, custody)
    ensures custody[b].admitted == w.custody[b].admitted + [Id(m)]
  {
  }

  lemma AdmissionsAfterQueue(
    ring: Ring, views: F.Views, sector: int, e: string, brokers: map<string, I.Broker>, brokers': map<string, I.Broker>,
    b: string, m: Mission, p: P.Broker, p': P.Broker)
    requires AdmissionsFollow(ring, views, sector, e, brokers, b, p) && brokers'.Keys == brokers.Keys
    requires forall c :: c in brokers && e in brokers[c].charged ==> e in brokers'[c].charged
    requires Ids(brokers'[b].queued) == Ids(brokers[b].queued) + [Id(m)] && p'.admitted == p.admitted + [Id(m)]
    ensures AdmissionsFollow(ring, views, sector, e, brokers', b, p')
  {
    hide ChargedElsewhere, X.OwnsByOne, Ids;
    if ChargedElsewhere(brokers, e, b) {
      ElsewhereStays(e, brokers, brokers', b);
    }
  }

  /** A pass loads only what another broker's verdict put there. */
  lemma LoadKeepsFollowing(
    ring: Ring, views: F.Views, sector: int, e: string, w: X.World, b: string, f: string, w': X.World)
    requires Follows(ring, views, sector, e, w) && X.Step(ring, w, X.Loads(b, f), w')
    ensures Follows(ring, views, sector, e, w')
  {
    hide AdmissionsFollow, ChargedElsewhere;
    var m := w.mail.brokers[b].shadow[f];
    if Id(m) == e {
      assert HasCopy(e, w.mail.brokers[b]);
    }
    hide HasCopy;
  }

  /** A rescue admits only for the sector's owner, and only what another broker charged for. */
  lemma TakeKeepsFollowing(
    ring: Ring, views: F.Views, sector: int, e: string, w: X.World, h: nat, view: set<string>, w': X.World)
    requires X.AllRight(ring, views, sector, e, w) && Follows(ring, views, sector, e, w)
    requires X.Step(ring, w, X.Takes(h, view), w') && X.Fair(views, sector, e, w, X.Takes(h, view))
    ensures Follows(ring, views, sector, e, w')
  {
    hide F.GoesRight, X.CopiesRight, X.CustodyRight, CopiesFollow, ChargedElsewhere, P.Step, Ids;
    var b, m := w.hands[h].broker, w.hands[h].mission;
    if X.Owns(ring, view, m.payload.sectorID, b) {
      AdmittedByRescue(w, b, m, w'.custody);
      assert Id(m) == e ==> X.OwnsByOne(ring, views, sector, b);
    }
  }

  lemma AdmittedByRescue(w: X.World, b: string, m: Mission, custody: map<string, P.Broker>)
    requires X.Admits(w, b, m, custody)
    ensures forall e :: Times(custody[b].admitted, e) == Times(w.custody[b].admitted, e) + if Id(m) == e then 1 else 0
  {
    AdmittedNext(w, b, m, custody);
  }

  lemma ServeKeepsFollowing(
    ring: Ring, views: F.Views, sector: int, e: string, w: X.World, b: string, act: P.Op, w': X.World)
    requires Follows(ring, views, sector, e, w) && X.Step(ring, w, X.Serves(b, act), w')
    ensures Follows(ring, views, sector, e, w')
  {
    ServeAdmitsNothing(w.custody[b], act, w'.custody[b]);
    hide CopiesFollow, HandsFollow, ChargedElsewhere, X.OwnsByOne, P.Step, Ids;
  }

  lemma ServeAdmitsNothing(p: P.Broker, act: P.Op, p': P.Broker)
    requires P.Step(p, act, p') && !act.Admit?
    ensures p'.admitted == p.admitted
  {
  }

  lemma RemoveKeepsFollowing(ring: Ring, views: F.Views, sector: int, e: string, w: X.World, h: nat, w': X.World)
    requires X.AllRight(ring, views, sector, e, w) && Follows(ring, views, sector, e, w)
    requires X.Step(ring, w, X.Removes(h), w')
    ensures Follows(ring, views, sector, e, w')
  {
    hide X.AllRight, F.Step, CopiesFollow, AdmissionsFollow, ChargedElsewhere;
    var move := F.At(w.hands[h].broker, I.Rescues(Id(w.hands[h].mission)));
    MailKeepsFollowing(ring, views, sector, e, w, move, w'.mail);
  }

  lemma StepKeepsFollowing(ring: Ring, views: F.Views, sector: int, e: string, w: X.World, op: X.Op, w': X.World)
    requires X.AllRight(ring, views, sector, e, w) && Follows(ring, views, sector, e, w)
    requires X.Step(ring, w, op, w') && X.Fair(views, sector, e, w, op)
    ensures Follows(ring, views, sector, e, w')
  {
    match op {
      case Moves(step) => hide X.AllRight, Follows; MailKeepsFollowing(ring, views, sector, e, w, step, w'.mail);
      case QueuesOwn(b, f) => hide *; QueueKeepsFollowing(ring, views, sector, e, w, b, f, w');
      case Loads(b, f) => hide *; LoadKeepsFollowing(ring, views, sector, e, w, b, f, w');
      case Takes(h, view) => hide *; TakeKeepsFollowing(ring, views, sector, e, w, h, view, w');
      case Removes(h) => hide *; RemoveKeepsFollowing(ring, views, sector, e, w, h, w');
      case Serves(b, act) => hide *; ServeKeepsFollowing(ring, views, sector, e, w, b, act, w');
    }
  }

  lemma {:induction false} EverythingFollows(
    ring: Ring, views: F.Views, sector: int, e: string, ops: seq<X.Op>, w: X.World)
    requires X.Reaches(ring, views, sector, e, ops, w)
    ensures Follows(ring, views, sector, e, w)
  {
    hide X.AllRight, X.Step, X.Fair, X.Start, Follows;
    if ops == [] {
      StartFollows(ring, views, sector, e);
    } else {
      var earlier, last := ops[..|ops| - 1], ops[|ops| - 1];
      var mid :| X.Reaches(ring, views, sector, e, earlier, mid) && X.Step(ring, mid, last, w)
                 && X.Fair(views, sector, e, mid, last);
      X.EverythingRight(ring, views, sector, e, earlier, mid);
      EverythingFollows(ring, views, sector, e, earlier, mid);
      StepKeepsFollowing(ring, views, sector, e, mid, last, w);
    }
  }

  // ---------- missions against debits ----------

  /** Each time a broker's queue took the event in, from a worker or a rescue. */
  function Admissions(w: X.World, e: string): set<(string, nat)> {
    set b, k: nat | b in w.custody && k < |w.custody[b].admitted| && w.custody[b].admitted[k] == e :: (b, k)
  }

  ghost predicate OneElector(ring: Ring, views: F.Views, sector: int) {
    forall b, c :: F.ElectsItself(ring, views, sector, b) && F.ElectsItself(ring, views, sector, c) ==> b == c
  }

  lemma ChargedElects(ring: Ring, views: F.Views, sector: int, e: string, w: F.World, c: string)
    requires F.GoesRight(ring, views, sector, e, w) && c in w.brokers && e in w.brokers[c].charged
    ensures F.ElectsItself(ring, views, sector, c)
  {
    hide F.GoesRight, F.ElectsItself, Ids;
    assert e in multiset(w.brokers[c].charged);
    F.ChargerElectsItself(ring, views, sector, e, w, c);
  }

  /** With one elector, whoever queues an event elects itself, and queues it once. */
  lemma QueuedOnceByElector(ring: Ring, views: F.Views, sector: int, e: string, ops: seq<X.Op>, w: X.World, b: string)
    requires X.Reaches(ring, views, sector, e, ops, w) && OneElector(ring, views, sector)
    requires b in w.custody && e in w.custody[b].admitted
    ensures F.ElectsItself(ring, views, sector, b) && Times(w.custody[b].admitted, e) == 1
  {
    hide X.Reaches, X.OwnsByOne, X.CopiesRight, X.HandsRight, F.GoesRight, F.ElectsItself, P.Inv, Ids;
    hide CopiesFollow, HandsFollow;
    X.EverythingRight(ring, views, sector, e, ops, w);
    EverythingFollows(ring, views, sector, e, ops, w);
    assert e in multiset(w.custody[b].admitted);
    assert AdmissionsFollow(ring, views, sector, e, w.mail.brokers, b, w.custody[b]);
    if X.OwnsByOne(ring, views, sector, b) && ChargedElsewhere(w.mail.brokers, e, b) {
      var c :| c in w.mail.brokers && c != b && e in w.mail.brokers[c].charged;
      ChargedElects(ring, views, sector, e, w.mail, c);
      X.OwnersElectThemselves(ring, views, sector, b);
      assert false;
    } else {
      F.ChargerElectsItself(ring, views, sector, e, w.mail, b);
    }
  }

  lemma AdmittedAtMostOnce(ring: Ring, views: F.Views, sector: int, e: string, ops: seq<X.Op>, w: X.World)
    requires X.Reaches(ring, views, sector, e, ops, w) && OneElector(ring, views, sector)
    ensures |Admissions(w, e)| <= 1
  {
    hide X.Reaches, F.ElectsItself;
    forall p, q | p in Admissions(w, e) && q in Admissions(w, e)
      ensures p == q
    {
      QueuedOnceByElector(ring, views, sector, e, ops, w, p.0);
      QueuedOnceByElector(ring, views, sector, e, ops, w, q.0);
      if p.1 < q.1 {
        TwiceIsTwo(w.custody[p.0].admitted, p.1, q.1);
      } else if q.1 < p.1 {
        TwiceIsTwo(w.custody[p.0].admitted, q.1, p.1);
      }
    }
    AllTheSame(Admissions(w, e));
  }

  lemma AllTheSame<T>(s: set<T>)
    requires forall p, q :: p in s && q in s ==> p == q
    ensures |s| <= 1
  {
    if s != {} {
      var p :| p in s;
      assert s == {p};
    }
  }

  /** The run queues the event more often than any chain debits for it, though the chain includes its spend. */
  ghost predicate Underpaid(
    ring: Ring, views: F.Views, sector: int, e: string, ops: seq<X.Op>, w: X.World,
    node: Node, l: Ledger, chain: seq<Bytes>) {
    && X.Reaches(ring, views, sector, e, ops, w) && Included(node, l, chain, e)
    && |Admissions(w, e)| > |DebitsFor(node, l, chain, e)|
  }

  ghost predicate NeverUnderpaid(ring: Ring, views: F.Views, sector: int, e: string) {
    forall ops, w, node, l, chain :: !Underpaid(ring, views, sector, e, ops, w, node, l, chain)
  }

  /**
   * Whatever brokers, workers and rescues do, and whatever chain includes the event's spend: the event is never queued
   * more often than it is paid for, if and only if at most one broker elects itself owner by a view of its own.
   */
  lemma PaidForExactly(ring: Ring, views: F.Views, sector: int, e: string)
    requires sector > 0 && |e| >= OperationKeys.MIN_EVENT_LENGTH
    ensures NeverUnderpaid(ring, views, sector, e) <==> OneElector(ring, views, sector)
  {
    hide Underpaid, F.ElectsItself;
    forall ops, w, node, l, chain | Underpaid(ring, views, sector, e, ops, w, node, l, chain)
      ensures !OneElector(ring, views, sector)
    {
      UnderpaidNeedsTwo(ring, views, sector, e, ops, w, node, l, chain);
    }
    forall b, c | b != c && F.ElectsItself(ring, views, sector, b) && F.ElectsItself(ring, views, sector, c)
      ensures exists ops, w, node, l, chain :: Underpaid(ring, views, sector, e, ops, w, node, l, chain)
    {
      var ops, w, node, chain := TwoMissionsOneDebit(ring, views, sector, e, b, c);
    }
  }

  lemma UnderpaidNeedsTwo(
    ring: Ring, views: F.Views, sector: int, e: string, ops: seq<X.Op>, w: X.World,
    node: Node, l: Ledger, chain: seq<Bytes>)
    requires |e| >= OperationKeys.MIN_EVENT_LENGTH && Underpaid(ring, views, sector, e, ops, w, node, l, chain)
    ensures !OneElector(ring, views, sector)
  {
    hide X.Reaches, Included, OneElector;
    DebitedOnce(node, l, chain, e);
    if OneElector(ring, views, sector) {
      AdmittedAtMostOnce(ring, views, sector, e, ops, w);
    }
  }

  // ---------- two missions and one debit ----------

  /** A ledger on which the event's spend passes the mempool check and is accepted. */
  lemma SpendIncluded(e: string) returns (node: Node, chain: seq<Bytes>)
    requires |e| >= OperationKeys.MIN_EVENT_LENGTH
    ensures Included(node, Genesis(), chain, e) && |chain| == 1 && Check(node, Genesis(), chain[0]) == 0
  {
    var tx: Transaction := TransactionFields(SPEND_CREDIT, "BR", e, seq(128, _ => '0'), "");
    node := Node(_ => Some(tx), (_, _, _) => true);
    chain := ["spend"];
    GenesisLedger();
    NationNames();
    assert IsValidSpend(node, chain[0], e);
  }

  /** Two brokers that elect themselves both charge for the event and queue it. */
  lemma BothQueue(ring: Ring, views: F.Views, sector: int, e: string, b: string, c: string)
    returns (ops: seq<X.Op>, w: X.World)
    requires sector > 0 && b != c
    requires F.ElectsItself(ring, views, sector, b) && F.ElectsItself(ring, views, sector, c)
    ensures X.Reaches(ring, views, sector, e, ops, w)
    ensures b in w.custody && w.custody[b].admitted == [e] && c in w.custody && w.custody[c].admitted == [e]
  {
    var view :| view in views[b] && F.IsOwner(ring, view, sector, b);
    var other :| other in views[c] && F.IsOwner(ring, other, sector, c);
    var start := X.Start(views);
    var m, n;
    assert X.Reaches(ring, views, sector, e, [], start);
    hide X.Reaches, F.IsOwner, F.IsTold;
    ops, w, m := X.ChargesFirst(ring, views, sector, e, [], start, b, view);
    ops, w := X.QueuesAndTells(ring, views, sector, e, ops, w, b, m, c);
    assert w.mail.brokers[c] == I.START && w.custody[c] == P.START && w.custody[b].admitted == [e];
    ops, w, n := X.ChargesFirst(ring, views, sector, e, ops, w, c, other);
    ops, w := X.QueuesAndTells(ring, views, sector, e, ops, w, c, n, b);
  }

  /** So the event is queued twice, while its spend, which passed every check, is debited once. */
  lemma TwoMissionsOneDebit(ring: Ring, views: F.Views, sector: int, e: string, b: string, c: string)
    returns (ops: seq<X.Op>, w: X.World, node: Node, chain: seq<Bytes>)
    requires sector > 0 && |e| >= OperationKeys.MIN_EVENT_LENGTH && b != c
    requires F.ElectsItself(ring, views, sector, b) && F.ElectsItself(ring, views, sector, c)
    ensures Underpaid(ring, views, sector, e, ops, w, node, Genesis(), chain)
    ensures Check(node, Genesis(), chain[0]) == 0
  {
    hide X.Reaches, F.ElectsItself, Included, Genesis, Check;
    ops, w := BothQueue(ring, views, sector, e, b, c);
    node, chain := SpendIncluded(e);
    DebitedOnce(node, Genesis(), chain, e);
    assert {(b, 0), (c, 0)} <= Admissions(w, e) && |{(b, 0), (c, 0)}| == 2;
    Smaller({(b, 0), (c, 0)}, Admissions(w, e));
  }
}
