/** Taking over a dead broker's sectors: which survivor rescues a mission, and how often. */
module Failover {
  import opened Missions
  import opened MissionTables
  import opened Permutations
  import opened SectorRouting

  /** Whether the broker that goes by these addresses owns a sector in this view. */
  function Mine(ring: Ring, view: set<string>, locals: set<string>): int -> bool {
    sector => Owner(ring, view, sector) in locals
  }

  /** What a rescue takes, by the member set that is in view when it visits each entry. */
  function Orphans(ring: Ring, locals: set<string>, buffer: map<string, Mission>, viewAt: string -> set<string>)
    : set<string>
  {
    set e | e in buffer && Mine(ring, viewAt(e), locals)(buffer[e].payload.sectorID)
  }

  function Kept(ring: Ring, locals: set<string>, buffer: map<string, Mission>, viewAt: string -> set<string>)
    : map<string, Mission>
  {
    buffer - Orphans(ring, locals, buffer, viewAt)
  }

  lemma OrphansInWords(ring: Ring, locals: set<string>, buffer: map<string, Mission>, viewAt: string -> set<string>)
    ensures Orphans(ring, locals, buffer, viewAt) == set e | e in buffer &&
              (if viewAt(e) == {} then "" else ring(viewAt(e), buffer[e].payload.sectorID)) in locals
    ensures Kept(ring, locals, buffer, viewAt) == buffer - Orphans(ring, locals, buffer, viewAt)
  {
  }

  function Always(view: set<string>): string -> set<string> {
    _ => view
  }

  /** The survivors, among those with a shadow copy, that a rescue makes queue the event. */
  function Rescuers(ring: Ring, view: set<string>, shadows: map<string, map<string, Mission>>, e: string): set<string> {
    set b | b in shadows && e in Orphans(ring, {b}, shadows[b], Always(view))
  }

  /**
   * Every survivor has the event in its shadow buffer and all see the same non-empty member set. Then a rescue at
   * each queues the event only at the owner, once, and all others keep their copy; so exactly one survivor queues
   * it if the owner survives, as it does when the members are the survivors, and none otherwise.
   */
  lemma OneRescuer(ring: Ring, view: set<string>, shadows: map<string, map<string, Mission>>, e: string, sector: int)
    requires PicksMembers(ring) && view != {}
    requires forall b :: b in shadows ==>
               Keyed(shadows[b]) && e in shadows[b] && shadows[b][e].payload.sectorID == sector
    ensures var owner := Owner(ring, view, sector);
            && owner in view
            && Rescuers(ring, view, shadows, e) == (if owner in shadows then {owner} else {})
            && forall b :: b in shadows ==>
                 var kept := Kept(ring, {b}, shadows[b], Always(view));
                 var taken := Orphans(ring, {b}, shadows[b], Always(view));
                 if b == owner
                 then e !in kept && Stored(shadows[b], taken)[shadows[b][e]] == 1
                 else e in kept && kept[e] == shadows[b][e] && Stored(shadows[b], taken)[shadows[b][e]] == 0
    ensures shadows.Keys == view ==> |Rescuers(ring, view, shadows, e)| == 1
  {
    assert ring(view, sector) in view;
    forall b | b in shadows
      ensures Stored(shadows[b], Orphans(ring, {b}, shadows[b], Always(view)))[shadows[b][e]]
              == if b == Owner(ring, view, sector) then 1 else 0
    {
      StoredOnce(shadows[b], Orphans(ring, {b}, shadows[b], Always(view)), e);
    }
  }

  // ---------- one broker over its changing views ----------

  /** What one ACK stored: `serial` tells it from copies that other ACKs of the same event stored. */
  datatype Copy = Copy(mission: Mission, serial: nat)

  /** How far a rescue pass is with an entry. */
  datatype Hand = Loaded(copy: Copy) | Took(copy: Copy)

  datatype Rescue = Rescue(pass: nat, copy: Copy)

  /**
   * A rescue pass loads one entry after the other, none twice; it queues what is ours by then, and removes the entry.
   * Each change of view starts a pass of its own, so several can be under way. `queued` and `acked` are histories.
   */
  datatype Broker = Broker(
    shadow: map<string, Copy>, hands: map<nat, Hand>, loaded: set<(nat, string)>,
    queued: seq<Rescue>, acked: seq<Mission>)

  const FRESH := Broker(map[], map[], {}, [], [])

  datatype Op =
    | Acked(mission: Mission)
    | Loads(pass: nat, eventID: string)
    | Takes(pass: nat, view: set<string>)
    | Removes(pass: nat)

  ghost predicate Step(ring: Ring, locals: set<string>, b: Broker, op: Op, b': Broker) {
    match op
    case Acked(m) => b' == b.(shadow := b.shadow[Id(m) := Copy(m, |b.acked|)], acked := b.acked + [m])
    case Loads(pass, e) =>
      && e in b.shadow && pass !in b.hands && (pass, e) !in b.loaded
      && b' == b.(hands := b.hands[pass := Loaded(b.shadow[e])], loaded := b.loaded + {(pass, e)})
    case Takes(pass, view) =>
      && pass in b.hands && b.hands[pass].Loaded?
      && var c := b.hands[pass].copy;
         b' == if Mine(ring, view, locals)(c.mission.payload.sectorID)
               then b.(queued := b.queued + [Rescue(pass, c)], hands := b.hands[pass := Took(c)])
               else b.(hands := b.hands - {pass})
    case Removes(pass) =>
      && pass in b.hands && b.hands[pass].Took?
      && b' == b.(shadow := b.shadow - {Id(b.hands[pass].copy.mission)}, hands := b.hands - {pass})
  }

  ghost predicate Runs(ring: Ring, locals: set<string>, states: seq<Broker>, ops: seq<Op>) {
    && |states| == |ops| + 1 && states[0] == FRESH
    && forall i :: 0 <= i < |ops| ==> Step(ring, locals, states[i], ops[i], states[i + 1])
  }

  predicate Holds(b: Broker, pass: nat, c: Copy) {
    pass in b.hands && b.hands[pass].copy == c
  }

  predicate IsStored(b: Broker, c: Copy) {
    Id(c.mission) in b.shadow && b.shadow[Id(c.mission)] == c
  }

  predicate WasAcked(b: Broker, c: Copy) {
    c.serial < |b.acked| && b.acked[c.serial] == c.mission
  }

  /** Every copy in sight comes from an ACK. */
  ghost predicate AllAcked(b: Broker) {
    && (forall e :: e in b.shadow ==> Id(b.shadow[e].mission) == e && WasAcked(b, b.shadow[e]))
    && (forall p :: p in b.hands ==> WasAcked(b, b.hands[p].copy) && (p, Id(b.hands[p].copy.mission)) in b.loaded)
    && (forall r :: r in b.queued ==> WasAcked(b, r.copy) && (r.pass, Id(r.copy.mission)) in b.loaded)
  }

  /** A pass queues a copy once; while a copy that it queued is still stored, it has yet to remove it. */
  ghost predicate HandsAgree(b: Broker) {
    && (forall j, k :: 0 <= j < k < |b.queued| ==> b.queued[j] != b.queued[k])
    && (forall p :: p in b.hands ==> (b.hands[p].Took? <==> Rescue(p, b.hands[p].copy) in b.queued))
    && (forall r :: r in b.queued && IsStored(b, r.copy) ==> r.pass in b.hands && b.hands[r.pass] == Took(r.copy))
  }

  ghost predicate Inv(b: Broker) {
    AllAcked(b) && HandsAgree(b)
  }

  /** Where the parts of the next state come from. */
  lemma StepChanges(ring: Ring, locals: set<string>, b: Broker, op: Op, b': Broker)
    requires Step(ring, locals, b, op, b')
    ensures b.loaded <= b'.loaded && b'.acked == if op.Acked? then b.acked + [op.mission] else b.acked
    ensures forall e :: e in b'.shadow ==>
              if op.Acked? && e == Id(op.mission) then b'.shadow[e] == Copy(op.mission, |b.acked|)
              else e in b.shadow && b'.shadow[e] == b.shadow[e]
    ensures forall p :: p in b'.hands ==>
              if op.Loads? && p == op.pass
              then p !in b.hands && op.eventID in b.shadow && b'.hands[p] == Loaded(b.shadow[op.eventID])
                   && (p, op.eventID) in b'.loaded - b.loaded
              else p in b.hands && b'.hands[p].copy == b.hands[p].copy
                   && (b'.hands[p] == b.hands[p]
                       || (op.Takes? && p == op.pass && b.hands[p].Loaded? && b'.hands[p].Took?
                           && b'.queued == b.queued + [Rescue(p, b.hands[p].copy)]))
    ensures b'.queued == b.queued
            || (op.Takes? && op.pass in b.hands && b.hands[op.pass].Loaded?
                && b'.queued == b.queued + [Rescue(op.pass, b.hands[op.pass].copy)]
                && op.pass in b'.hands && b'.hands[op.pass] == Took(b.hands[op.pass].copy))
  {
    hide Mine;
  }

  lemma AckedStays(b: Broker, op: Op, b': Broker, c: Copy)
    requires b'.acked == if op.Acked? then b.acked + [op.mission] else b.acked
    ensures WasAcked(b, c) ==> WasAcked(b', c)
  {
  }

  lemma StoredIsAcked(ring: Ring, locals: set<string>, b: Broker, op: Op, b': Broker, e: string)
    requires AllAcked(b) && Step(ring, locals, b, op, b') && e in b'.shadow
    ensures Id(b'.shadow[e].mission) == e && WasAcked(b', b'.shadow[e])
  {
    StepChanges(ring, locals, b, op, b');
    hide Step;
    if !(op.Acked? && e == Id(op.mission)) {
      AckedStays(b, op, b', b.shadow[e]);
    }
  }

  lemma HeldIsAcked(ring: Ring, locals: set<string>, b: Broker, op: Op, b': Broker, p: nat)
    requires AllAcked(b) && Step(ring, locals, b, op, b') && p in b'.hands
    ensures WasAcked(b', b'.hands[p].copy) && (p, Id(b'.hands[p].copy.mission)) in b'.loaded
  {
    StepChanges(ring, locals, b, op, b');
    hide Step;
    AckedStays(b, op, b', b'.hands[p].copy);
  }

  lemma QueuedIsAcked(ring: Ring, locals: set<string>, b: Broker, op: Op, b': Broker, r: Rescue)
    requires AllAcked(b) && Step(ring, locals, b, op, b') && r in b'.queued
    ensures WasAcked(b', r.copy) && (r.pass, Id(r.copy.mission)) in b'.loaded
  {
    StepChanges(ring, locals, b, op, b');
    hide Step;
    assert r in b.queued || (op.Takes? && r == Rescue(op.pass, b.hands[op.pass].copy));
    AckedStays(b, op, b', r.copy);
  }

  lemma StepKeepsAcked(ring: Ring, locals: set<string>, b: Broker, op: Op, b': Broker)
    requires AllAcked(b) && Step(ring, locals, b, op, b')
    ensures AllAcked(b')
  {
    forall e | e in b'.shadow
      ensures Id(b'.shadow[e].mission) == e && WasAcked(b', b'.shadow[e])
    {
      hide Step, AllAcked, WasAcked;
      StoredIsAcked(ring, locals, b, op, b', e);
    }
    forall p | p in b'.hands
      ensures WasAcked(b', b'.hands[p].copy) && (p, Id(b'.hands[p].copy.mission)) in b'.loaded
    {
      hide Step, AllAcked, WasAcked;
      HeldIsAcked(ring, locals, b, op, b', p);
    }
    forall r | r in b'.queued
      ensures WasAcked(b', r.copy) && (r.pass, Id(r.copy.mission)) in b'.loaded
    {
      hide Step, AllAcked, WasAcked;
      QueuedIsAcked(ring, locals, b, op, b', r);
    }
    hide Step, WasAcked;
  }

  /** A pass that has queued something is not given its event again. */
  lemma StepKeepsTaken(ring: Ring, locals: set<string>, b: Broker, op: Op, b': Broker, p: nat)
    requires Inv(b) && Step(ring, locals, b, op, b') && p in b'.hands
    ensures b'.hands[p].Took? <==> Rescue(p, b'.hands[p].copy) in b'.queued
  {
    StepChanges(ring, locals, b, op, b');
    hide Step, WasAcked;
  }

  /** A copy that a pass queued is stored only as long as the pass has not removed it. */
  lemma StepKeepsUnremoved(ring: Ring, locals: set<string>, b: Broker, op: Op, b': Broker, r: Rescue)
    requires Inv(b) && Step(ring, locals, b, op, b') && r in b'.queued && IsStored(b', r.copy)
    ensures r.pass in b'.hands && b'.hands[r.pass] == Took(r.copy)
  {
    hide Mine;
    assert r in b.queued || (op.Takes? && r == Rescue(op.pass, b.hands[op.pass].copy));
    match op {
      case Acked(m) =>
      case Loads(pass, e) =>
      case Takes(pass, view) =>
      case Removes(pass) =>
    }
  }

  lemma StepKeepsHands(ring: Ring, locals: set<string>, b: Broker, op: Op, b': Broker)
    requires Inv(b) && Step(ring, locals, b, op, b')
    ensures HandsAgree(b')
  {
    StepChanges(ring, locals, b, op, b');
    forall j, k | 0 <= j < k < |b'.queued|
      ensures b'.queued[j] != b'.queued[k]
    {
      hide Step, WasAcked;
    }
    hide Step, AllAcked;
    forall p | p in b'.hands
      ensures b'.hands[p].Took? <==> Rescue(p, b'.hands[p].copy) in b'.queued
    {
      StepKeepsTaken(ring, locals, b, op, b', p);
    }
    forall r | r in b'.queued && IsStored(b', r.copy)
      ensures r.pass in b'.hands && b'.hands[r.pass] == Took(r.copy)
    {
      StepKeepsUnremoved(ring, locals, b, op, b', r);
    }
  }

  lemma {:induction false} RunKeepsInv(
    ring: Ring, locals: set<string>, states: seq<Broker>, ops: seq<Op>, n: nat)
    requires Runs(ring, locals, states, ops) && n <= |ops|
    ensures Inv(states[n])
  {
    hide Step, AllAcked, HandsAgree;
    if n == 0 {
      FreshKeepsInv();
    } else {
      RunKeepsInv(ring, locals, states, ops, n - 1);
      assert Step(ring, locals, states[n - 1], ops[n - 1], states[n - 1 + 1]);
      StepKeepsAcked(ring, locals, states[n - 1], ops[n - 1], states[n]);
      StepKeepsHands(ring, locals, states[n - 1], ops[n - 1], states[n]);
    }
  }

  lemma FreshKeepsInv()
    ensures Inv(FRESH)
  {
  }

  // ---------- rescued twice ----------

  ghost predicate IsQueuedTwice(b: Broker, c: Copy) {
    exists j, k :: 0 <= j < k < |b.queued| && b.queued[j].copy == b.queued[k].copy == c
  }

  /** The pass holds the copy, or has queued it. */
  predicate HasHad(b: Broker, pass: nat, c: Copy) {
    Holds(b, pass, c) || Rescue(pass, c) in b.queued
  }

  ghost predicate HaveMet(states: seq<Broker>, n: nat, p: nat, q: nat, c: Copy)
    requires n < |states|
  {
    exists m :: 0 <= m <= n && Holds(states[m], p, c) && Holds(states[m], q, c)
  }

  /** Two passes that come to have the same copy either had it before or hold it together now. */
  lemma PassesMeet(ring: Ring, locals: set<string>, b: Broker, op: Op, b': Broker, p: nat, q: nat, c: Copy)
    requires Inv(b) && Step(ring, locals, b, op, b') && p != q && HasHad(b', p, c) && HasHad(b', q, c)
    ensures (HasHad(b, p, c) && HasHad(b, q, c)) || (Holds(b', p, c) && Holds(b', q, c))
  {
    hide Mine, WasAcked;
  }

  lemma {:induction false} WhoHadHaveMet(
    ring: Ring, locals: set<string>, states: seq<Broker>, ops: seq<Op>, n: nat, p: nat, q: nat, c: Copy)
    requires Runs(ring, locals, states, ops) && n <= |ops|
    requires p != q && HasHad(states[n], p, c) && HasHad(states[n], q, c)
    ensures HaveMet(states, n, p, q, c)
  {
    hide Inv, Step;
    if n > 0 {
      RunKeepsInv(ring, locals, states, ops, n - 1);
      assert Step(ring, locals, states[n - 1], ops[n - 1], states[n - 1 + 1]);
      PassesMeet(ring, locals, states[n - 1], ops[n - 1], states[n], p, q, c);
      if HasHad(states[n - 1], p, c) && HasHad(states[n - 1], q, c) {
        WhoHadHaveMet(ring, locals, states, ops, n - 1, p, q, c);
      }
    }
  }

  /** A copy is queued twice only by two passes that hold it at the same time. */
  lemma RescuedTwiceMeansPassesMet(
    ring: Ring, locals: set<string>, states: seq<Broker>, ops: seq<Op>, n: nat, c: Copy) returns (p: nat, q: nat)
    requires Runs(ring, locals, states, ops) && n <= |ops| && IsQueuedTwice(states[n], c)
    ensures p != q && HaveMet(states, n, p, q, c)
  {
    hide Step, AllAcked, HaveMet;
    RunKeepsInv(ring, locals, states, ops, n);
    var b := states[n];
    var j, k :| 0 <= j < k < |b.queued| && b.queued[j].copy == b.queued[k].copy == c;
    p, q := b.queued[j].pass, b.queued[k].pass;
    assert b.queued[j] == Rescue(p, c) && b.queued[k] == Rescue(q, c);
    WhoHadHaveMet(ring, locals, states, ops, n, p, q, c);
  }

  // ---------- when no run rescues twice ----------

  /** The router only ever shows these member sets. */
  ghost predicate KeepsTo(ops: seq<Op>, views: set<set<string>>) {
    forall i :: 0 <= i < |ops| && ops[i].Takes? ==> ops[i].view in views
  }

  /** ... and at most this many passes are at an entry at once. */
  ghost predicate Within(states: seq<Broker>, ops: seq<Op>, views: set<set<string>>, limit: nat) {
    KeepsTo(ops, views) && forall i :: 0 <= i < |states| ==> |states[i].hands| <= limit
  }

  /** This run, within these bounds, queues a copy of the sector twice. */
  ghost predicate RescuesTwice(
    ring: Ring, locals: set<string>, views: set<set<string>>, limit: nat, sector: int,
    states: seq<Broker>, ops: seq<Op>, c: Copy) {
    && Runs(ring, locals, states, ops) && Within(states, ops, views, limit)
    && c.mission.payload.sectorID == sector && IsQueuedTwice(states[|ops|], c)
  }

  ghost predicate NeverRescuedTwice(
    ring: Ring, locals: set<string>, views: set<set<string>>, limit: nat, sector: int) {
    forall states, ops, c :: !RescuesTwice(ring, locals, views, limit, sector, states, ops, c)
  }

  predicate OwnsByOne(ring: Ring, locals: set<string>, views: set<set<string>>, sector: int) {
    exists view :: view in views && Mine(ring, view, locals)(sector)
  }

  /** What a pass queued was ours by some member set it saw. */
  lemma {:induction false} QueuedWasOurs(
    ring: Ring, locals: set<string>, views: set<set<string>>, states: seq<Broker>, ops: seq<Op>, n: nat, r: Rescue)
    requires Runs(ring, locals, states, ops) && KeepsTo(ops, views) && n <= |ops|
    requires r in states[n].queued
    ensures OwnsByOne(ring, locals, views, r.copy.mission.payload.sectorID)
  {
    hide Step, OwnsByOne;
    if n > 0 {
      var b, op, b' := states[n - 1], ops[n - 1], states[n];
      assert Step(ring, locals, b, op, states[n - 1 + 1]);
      if r in b.queued {
        QueuedWasOurs(ring, locals, views, states, ops, n - 1, r);
      } else {
        QueuedNowIsOurs(ring, locals, views, b, op, b', r);
      }
    }
  }

  lemma QueuedNowIsOurs(
    ring: Ring, locals: set<string>, views: set<set<string>>, b: Broker, op: Op, b': Broker, r: Rescue)
    requires Step(ring, locals, b, op, b') && r in b'.queued && r !in b.queued
    requires op.Takes? ==> op.view in views
    ensures OwnsByOne(ring, locals, views, r.copy.mission.payload.sectorID)
  {
    hide Mine;
  }

  lemma TwoNeedRoom(b: Broker, p: nat, q: nat, c: Copy)
    requires p != q && Holds(b, p, c) && Holds(b, q, c)
    ensures |b.hands| >= 2
  {
    assert {p, q} <= b.hands.Keys && |{p, q}| == 2;
    Smaller({p, q}, b.hands.Keys);
  }

  /**
   * Whatever member sets the router may show and however passes and ACKs interleave: no run queues a copy of the
   * sector twice, if and only if passes never overlap or none of those member sets makes the sector ours.
   */
  lemma RescuedOnceExactly(ring: Ring, locals: set<string>, views: set<set<string>>, limit: nat, sector: int)
    ensures NeverRescuedTwice(ring, locals, views, limit, sector)
            <==> limit <= 1 || !OwnsByOne(ring, locals, views, sector)
  {
    hide RescuesTwice, OwnsByOne;
    forall states, ops, c | RescuesTwice(ring, locals, views, limit, sector, states, ops, c)
      ensures limit > 1 && OwnsByOne(ring, locals, views, sector)
    {
      RescuedTwiceNeeds(ring, locals, views, limit, sector, states, ops, c);
    }
    if limit > 1 && OwnsByOne(ring, locals, views, sector) {
      var states, ops, c := PassesCanMeet(ring, locals, views, limit, sector);
    }
  }

  lemma RescuedTwiceNeeds(
    ring: Ring, locals: set<string>, views: set<set<string>>, limit: nat, sector: int,
    states: seq<Broker>, ops: seq<Op>, c: Copy)
    requires RescuesTwice(ring, locals, views, limit, sector, states, ops, c)
    ensures limit > 1 && OwnsByOne(ring, locals, views, sector)
  {
    hide Step, OwnsByOne;
    var n := |ops|;
    var p, q := RescuedTwiceMeansPassesMet(ring, locals, states, ops, n, c);
    var m :| 0 <= m <= n && Holds(states[m], p, c) && Holds(states[m], q, c);
    TwoNeedRoom(states[m], p, q, c);
    var j :| 0 <= j < |states[n].queued| && states[n].queued[j].copy == c;
    QueuedWasOurs(ring, locals, views, states, ops, n, states[n].queued[j]);
  }

  /** Two passes can meet: a second change of view while the first one's rescue is under way queues one ACK twice. */
  lemma PassesCanMeet(ring: Ring, locals: set<string>, views: set<set<string>>, limit: nat, sector: int)
    returns (states: seq<Broker>, ops: seq<Op>, c: Copy)
    requires limit > 1 && OwnsByOne(ring, locals, views, sector)
    ensures RescuesTwice(ring, locals, views, limit, sector, states, ops, c)
    ensures states[|ops|].acked == [c.mission]
  {
    var view :| view in views && Mine(ring, view, locals)(sector);
    var m := Mission(SensorData("event", "sensor", sector, true, false, 0, "", ""), 0);
    var e := Id(m);
    c := Copy(m, 0);
    hide Mine;
    ops := [Acked(m), Loads(1, e), Loads(2, e), Takes(1, view), Takes(2, view)];
    var b1 := Broker(map[e := c], map[], {}, [], [m]);
    var b2 := b1.(hands := map[1 := Loaded(c)], loaded := {(1, e)});
    var b3 := b2.(hands := map[1 := Loaded(c), 2 := Loaded(c)], loaded := {(1, e), (2, e)});
    var b4 := b3.(hands := map[1 := Took(c), 2 := Loaded(c)], queued := [Rescue(1, c)]);
    var b5 := b4.(hands := map[1 := Took(c), 2 := Took(c)], queued := [Rescue(1, c), Rescue(2, c)]);
    states := [FRESH, b1, b2, b3, b4, b5];
    assert Step(ring, locals, FRESH, ops[0], b1) && Step(ring, locals, b1, ops[1], b2);
    assert Step(ring, locals, b2, ops[2], b3);
    assert b3.hands[1 := Took(c)] == b4.hands && b4.hands[2 := Took(c)] == b5.hands;
    assert b3.queued + [Rescue(1, c)] == b4.queued && b4.queued + [Rescue(2, c)] == b5.queued;
    assert Step(ring, locals, b3, ops[3], b4) && Step(ring, locals, b4, ops[4], b5);
    assert b5.queued[0].copy == b5.queued[1].copy == c;
  }

  // ---------- never rescued ----------

  ghost predicate IsQueued(b: Broker, c: Copy) {
    exists r :: r in b.queued && r.copy == c
  }

  ghost predicate IsHeld(b: Broker, c: Copy) {
    exists p :: Holds(b, p, c)
  }

  /** The copy was acknowledged, nobody has queued it, and it is neither stored nor held: nobody ever will. */
  ghost predicate IsLost(b: Broker, c: Copy) {
    WasAcked(b, c) && !IsQueued(b, c) && !IsStored(b, c) && !IsHeld(b, c)
  }

  predicate SomeQueued(b: Broker, e: string) {
    exists r :: r in b.queued && Id(r.copy.mission) == e
  }

  lemma QueuedStays(ring: Ring, locals: set<string>, b: Broker, op: Op, b': Broker)
    requires Step(ring, locals, b, op, b')
    ensures forall r :: r in b.queued ==> r in b'.queued
  {
    hide Mine;
  }

  lemma StepKeepsEvent(ring: Ring, locals: set<string>, b: Broker, op: Op, b': Broker, e: string)
    requires Inv(b) && Step(ring, locals, b, op, b') && (e in b.shadow || SomeQueued(b, e))
    ensures e in b'.shadow || SomeQueued(b', e)
  {
    QueuedStays(ring, locals, b, op, b');
    hide Mine, WasAcked;
    if op.Removes? {
      assert Rescue(op.pass, b.hands[op.pass].copy) in b'.queued;
    }
    if SomeQueued(b, e) {
      var r :| r in b.queued && Id(r.copy.mission) == e;
      assert r in b'.queued;
    }
  }

  /** No event is ever lost: whatever the views, ACKs and passes, one that was acknowledged is stored or was queued. */
  lemma {:induction false} NoEventIsLost(
    ring: Ring, locals: set<string>, states: seq<Broker>, ops: seq<Op>, n: nat, e: string)
    requires Runs(ring, locals, states, ops) && n <= |ops| && e in Ids(states[n].acked)
    ensures e in states[n].shadow || SomeQueued(states[n], e)
  {
    hide Inv, SomeQueued, Mine;
    if n > 0 {
      var b, op, b' := states[n - 1], ops[n - 1], states[n];
      RunKeepsInv(ring, locals, states, ops, n - 1);
      assert Step(ring, locals, b, op, states[n - 1 + 1]);
      if e in Ids(b.acked) {
        NoEventIsLost(ring, locals, states, ops, n - 1, e);
        StepKeepsEvent(ring, locals, b, op, b', e);
      } else {
        IdsMore(b.acked, op.mission);
      }
    }
  }

  /** At most this many ACKs store any one event. */
  ghost predicate AckLimit(b: Broker, limit: nat) {
    forall e :: Times(Ids(b.acked), e) <= limit
  }

  /** With one ACK to an event, copies of the same event are the same copy. */
  lemma OneCopyOfAnEvent(b: Broker, c: Copy, d: Copy)
    requires AckLimit(b, 1) && WasAcked(b, c) && WasAcked(b, d) && Id(c.mission) == Id(d.mission)
    ensures c == d
  {
    if c.serial != d.serial {
      var i := if c.serial < d.serial then c.serial else d.serial;
      var j := if c.serial < d.serial then d.serial else c.serial;
      TwiceIsTwo(Ids(b.acked), i, j);
    }
  }

  lemma FewerAcksBefore(ring: Ring, locals: set<string>, b: Broker, op: Op, b': Broker, limit: nat)
    requires Step(ring, locals, b, op, b') && AckLimit(b', limit)
    ensures AckLimit(b, limit)
  {
    hide Mine, Ids;
    if op.Acked? {
      IdsMore(b.acked, op.mission);
      assert forall e :: Times(Ids(b.acked), e) <= Times(Ids(b'.acked), e);
    }
  }

  lemma StepKeepsCopy(ring: Ring, locals: set<string>, b: Broker, op: Op, b': Broker, c: Copy)
    requires Inv(b) && Inv(b') && Step(ring, locals, b, op, b') && AckLimit(b', 1)
    requires WasAcked(b, c) && (IsStored(b, c) || IsQueued(b, c))
    ensures IsStored(b', c) || IsQueued(b', c)
  {
    StepChanges(ring, locals, b, op, b');
    QueuedStays(ring, locals, b, op, b');
    AckedStays(b, op, b', c);
    hide Mine, AckLimit;
    if op.Acked? && Id(op.mission) == Id(c.mission) {
      OneCopyOfAnEvent(b', c, Copy(op.mission, |b.acked|));
    } else if op.Removes? && Id(b.hands[op.pass].copy.mission) == Id(c.mission) {
      AckedStays(b, op, b', b.hands[op.pass].copy);
      assert Rescue(op.pass, b.hands[op.pass].copy) in b'.queued;
      OneCopyOfAnEvent(b', c, b.hands[op.pass].copy);
    } else if IsQueued(b, c) {
      var r :| r in b.queued && r.copy == c;
      assert r in b'.queued;
    }
  }

  lemma {:induction false} KeptOrQueued(
    ring: Ring, locals: set<string>, states: seq<Broker>, ops: seq<Op>, n: nat, c: Copy)
    requires Runs(ring, locals, states, ops) && n <= |ops| && AckLimit(states[n], 1) && WasAcked(states[n], c)
    ensures IsStored(states[n], c) || IsQueued(states[n], c)
  {
    hide Inv, IsQueued, Mine, AckLimit;
    if n > 0 {
      var b, op, b' := states[n - 1], ops[n - 1], states[n];
      RunKeepsInv(ring, locals, states, ops, n - 1);
      RunKeepsInv(ring, locals, states, ops, n);
      assert Step(ring, locals, b, op, states[n - 1 + 1]);
      FewerAcksBefore(ring, locals, b, op, b', 1);
      if WasAcked(b, c) {
        KeptOrQueued(ring, locals, states, ops, n - 1, c);
        StepKeepsCopy(ring, locals, b, op, b', c);
      }
    }
  }

  // ---------- when no run loses the latest copy ----------

  /** The copy is what the event's last ACK stored. */
  predicate IsLatest(b: Broker, c: Copy) {
    WasAcked(b, c) && forall s :: c.serial < s < |b.acked| ==> Id(b.acked[s]) != Id(c.mission)
  }

  predicate AllNameSector(b: Broker, e: string, sector: int) {
    forall i :: 0 <= i < |b.acked| && Id(b.acked[i]) == e ==> b.acked[i].payload.sectorID == sector
  }

  /** What a pass has taken and not yet removed was ours by some member set. */
  lemma RemovedWasOurs(
    ring: Ring, locals: set<string>, views: set<set<string>>, states: seq<Broker>, ops: seq<Op>, n: nat, sector: int)
    requires Runs(ring, locals, states, ops) && KeepsTo(ops, views) && n < |ops| && ops[n].Removes?
    requires var b, pass := states[n], ops[n].pass;
             pass in b.hands ==> AllNameSector(b, Id(b.hands[pass].copy.mission), sector)
    ensures OwnsByOne(ring, locals, views, sector)
  {
    hide OwnsByOne, Mine;
    assert Step(ring, locals, states[n], ops[n], states[n + 1]);
    RunKeepsInv(ring, locals, states, ops, n);
    var c := states[n].hands[ops[n].pass].copy;
    QueuedWasOurs(ring, locals, views, states, ops, n, Rescue(ops[n].pass, c));
  }

  /** While no member set makes the sector ours, the event's latest copy stays in the table. */
  lemma {:induction false} LatestStays(
    ring: Ring, locals: set<string>, views: set<set<string>>, states: seq<Broker>, ops: seq<Op>, n: nat, c: Copy,
    sector: int)
    requires Runs(ring, locals, states, ops) && KeepsTo(ops, views) && n <= |ops|
    requires !OwnsByOne(ring, locals, views, sector)
    requires IsLatest(states[n], c) && AllNameSector(states[n], Id(c.mission), sector)
    ensures IsStored(states[n], c)
  {
    hide OwnsByOne, Mine, Inv, KeepsTo;
    if n > 0 {
      var b, op, b' := states[n - 1], ops[n - 1], states[n];
      assert Step(ring, locals, b, op, states[n - 1 + 1]);
      if WasAcked(b, c) {
        LatestBefore(ring, locals, b, op, b', c, sector);
        LatestStays(ring, locals, views, states, ops, n - 1, c, sector);
        if op.Removes? && Id(b.hands[op.pass].copy.mission) == Id(c.mission) {
          RemovedWasOurs(ring, locals, views, states, ops, n - 1, sector);
          assert false;
        }
        if op.Acked? {
          assert b'.acked[|b.acked|] == op.mission;
        }
      }
    }
  }

  lemma LatestBefore(ring: Ring, locals: set<string>, b: Broker, op: Op, b': Broker, c: Copy, sector: int)
    requires Step(ring, locals, b, op, b') && WasAcked(b, c)
    requires IsLatest(b', c) && AllNameSector(b', Id(c.mission), sector)
    ensures IsLatest(b, c) && AllNameSector(b, Id(c.mission), sector)
  {
    hide Mine;
    assert forall i :: 0 <= i < |b.acked| ==> b'.acked[i] == b.acked[i];
  }

  /**
   * This run, in which the router keeps to these member sets and no event has more ACKs than that, ends with what the
   * last ACK of an event of the sector stored neither in the table, nor held by a pass, nor ever queued.
   */
  ghost predicate LosesLatest(
    ring: Ring, locals: set<string>, views: set<set<string>>, limit: nat, sector: int,
    states: seq<Broker>, ops: seq<Op>, c: Copy) {
    && Runs(ring, locals, states, ops) && KeepsTo(ops, views) && AckLimit(states[|ops|], limit)
    && AllNameSector(states[|ops|], Id(c.mission), sector)
    && IsLatest(states[|ops|], c) && IsLost(states[|ops|], c)
  }

  ghost predicate NeverLosesLatest(
    ring: Ring, locals: set<string>, views: set<set<string>>, limit: nat, sector: int) {
    forall states, ops, c :: !LosesLatest(ring, locals, views, limit, sector, states, ops, c)
  }

  /**
   * However passes and ACKs interleave: no run loses the latest copy of an event of the sector if and only if no event
   * is acknowledged twice, or none of the member sets the router may show makes the sector ours.
   */
  lemma LatestKeptExactly(ring: Ring, locals: set<string>, views: set<set<string>>, limit: nat, sector: int)
    ensures NeverLosesLatest(ring, locals, views, limit, sector)
            <==> limit <= 1 || !OwnsByOne(ring, locals, views, sector)
  {
    hide LosesLatest, OwnsByOne;
    forall states, ops, c | LosesLatest(ring, locals, views, limit, sector, states, ops, c)
      ensures limit > 1 && OwnsByOne(ring, locals, views, sector)
    {
      LosingNeeds(ring, locals, views, limit, sector, states, ops, c);
    }
    if limit > 1 && OwnsByOne(ring, locals, views, sector) {
      var states, ops, c := LateRemovalLosesCopy(ring, locals, views, limit, sector);
    }
  }

  lemma LosingNeeds(
    ring: Ring, locals: set<string>, views: set<set<string>>, limit: nat, sector: int,
    states: seq<Broker>, ops: seq<Op>, c: Copy)
    requires LosesLatest(ring, locals, views, limit, sector, states, ops, c)
    ensures limit > 1 && OwnsByOne(ring, locals, views, sector)
  {
    hide Step, IsQueued, OwnsByOne, KeepsTo, AllNameSector;
    if limit <= 1 {
      assert AckLimit(states[|ops|], 1);
      KeptOrQueued(ring, locals, states, ops, |ops|, c);
    }
    if !OwnsByOne(ring, locals, views, sector) {
      LatestStays(ring, locals, views, states, ops, |ops|, c, sector);
    }
  }

  /** A pass that is late removes the second ACK's copy, which it never saw. */
  lemma LateRemovalLosesCopy(ring: Ring, locals: set<string>, views: set<set<string>>, limit: nat, sector: int)
    returns (states: seq<Broker>, ops: seq<Op>, c: Copy)
    requires limit > 1 && OwnsByOne(ring, locals, views, sector)
    ensures LosesLatest(ring, locals, views, limit, sector, states, ops, c)
    ensures states[|ops|].acked == [c.mission, c.mission]
  {
    var view :| view in views && Mine(ring, view, locals)(sector);
    var m := Mission(SensorData("event", "sensor", sector, true, false, 0, "", ""), 0);
    states, ops := LateRemoval(ring, locals, view, m);
    c := Copy(m, 1);
    hide Step, Mine;
    assert Ids([m, m]) == [Id(m), Id(m)];
  }

  lemma LateRemoval(ring: Ring, locals: set<string>, view: set<string>, m: Mission)
    returns (states: seq<Broker>, ops: seq<Op>)
    requires Mine(ring, view, locals)(m.payload.sectorID)
    ensures Runs(ring, locals, states, ops) && KeepsTo(ops, {view})
    ensures states[|ops|] == Broker(map[], map[], {(1, Id(m))}, [Rescue(1, Copy(m, 0))], [m, m])
  {
    hide Mine;
    var e, c := Id(m), Copy(m, 0);
    ops := [Acked(m), Loads(1, e), Takes(1, view), Acked(m), Removes(1)];
    var b1 := Broker(map[e := c], map[], {}, [], [m]);
    var b2 := b1.(hands := map[1 := Loaded(c)], loaded := {(1, e)});
    var b3 := b2.(hands := map[1 := Took(c)], queued := [Rescue(1, c)]);
    var b4 := b3.(shadow := map[e := Copy(m, 1)], acked := [m, m]);
    var b5 := b4.(shadow := map[], hands := map[]);
    states := [FRESH, b1, b2, b3, b4, b5];
    assert Step(ring, locals, FRESH, ops[0], b1) && Step(ring, locals, b1, ops[1], b2);
    assert b2.hands[1 := Took(c)] == b3.hands && b2.queued + [Rescue(1, c)] == b3.queued;
    assert Step(ring, locals, b2, ops[2], b3);
    assert b3.shadow[e := Copy(m, 1)] == b4.shadow && b3.acked + [m] == b4.acked;
    assert Step(ring, locals, b3, ops[3], b4);
    assert b4.shadow - {e} == b5.shadow && b4.hands - {1} == b5.hands;
    assert Step(ring, locals, b4, ops[4], b5);
  }

  // ---------- one undisturbed pass ----------

  /** A broker with this shadow buffer, and nothing else yet. */
  function Holding(buffer: map<string, Mission>): Broker {
    FRESH.(shadow := map e | e in buffer :: Copy(buffer[e], 0))
  }

  /** These steps, in this order, lead from the one state to the other. */
  ghost predicate Leads(ring: Ring, locals: set<string>, b: Broker, ops: seq<Op>, b': Broker) {
    if ops == [] then b == b'
    else
      var earlier, last := ops[..|ops| - 1], ops[|ops| - 1];
      exists mid :: Leads(ring, locals, b, earlier, mid) && Step(ring, locals, mid, last, b')
  }

  lemma LeadsOn(ring: Ring, locals: set<string>, b: Broker, ops: seq<Op>, mid: Broker, op: Op, b': Broker)
    requires Leads(ring, locals, b, ops, mid) && Step(ring, locals, mid, op, b')
    ensures Leads(ring, locals, b, ops + [op], b')
  {
    hide Step;
    assert (ops + [op])[..|ops|] == ops;
  }

  function MissionsOf(rescues: seq<Rescue>): (ms: seq<Mission>)
    ensures |ms| == |rescues| && forall i :: 0 <= i < |rescues| ==> ms[i] == rescues[i].copy.mission
  {
    seq(|rescues|, i requires 0 <= i < |rescues| => rescues[i].copy.mission)
  }

  lemma NothingQueued()
    ensures MissionsOf([]) == []
  {
  }

  lemma QueuedNext(rescues: seq<Rescue>, r: Rescue)
    ensures MissionsOf(rescues + [r]) == MissionsOf(rescues) + [r.copy.mission]
  {
  }

  function Given(pass: nat, events: set<string>): set<(nat, string)> {
    set e | e in events :: (pass, e)
  }

  /** The pass between two entries, with these events behind it. */
  function Between(pass: nat, buffer: map<string, Mission>, visited: set<string>, queued: seq<Rescue>): Broker {
    Holding(buffer).(loaded := Given(pass, visited), queued := queued)
  }

  /** A rescue pass over a table of copies, when the entries in `todo` are still to be visited. */
  ghost predicate PassSoFar(
    ring: Ring, locals: set<string>, viewAt: string -> set<string>, pass: nat, before: map<string, Mission>,
    todo: set<string>, buffer: map<string, Mission>, ops: seq<Op>, queued: seq<Rescue>) {
    && todo <= buffer.Keys <= before.Keys && (forall e :: e in buffer ==> buffer[e] == before[e])
    && (forall e :: e in before && e !in todo ==> (e in buffer <==> e !in Orphans(ring, locals, before, viewAt)))
    && multiset(MissionsOf(queued)) == Stored(before, before.Keys - buffer.Keys)
    && Leads(ring, locals, Holding(before), ops, Between(pass, buffer, before.Keys - todo, queued))
  }

  lemma PassStarts(
    ring: Ring, locals: set<string>, viewAt: string -> set<string>, pass: nat, before: map<string, Mission>)
    ensures PassSoFar(ring, locals, viewAt, pass, before, before.Keys, before, [], [])
  {
    assert before.Keys - before.Keys == {};
    NothingStored(before);
    NothingQueued();
    assert Given(pass, {}) == {};
    assert Between(pass, before, {}, []) == Holding(before);
  }

  function SkipOps(pass: nat, e: string, view: set<string>): seq<Op> {
    [Loads(pass, e)] + [Takes(pass, view)]
  }

  function TakeOps(pass: nat, e: string, view: set<string>): seq<Op> {
    [Loads(pass, e)] + [Takes(pass, view)] + [Removes(pass)]
  }

  /** The two steps of a pass on an entry that is not ours. */
  lemma PassSkips(
    ring: Ring, locals: set<string>, viewAt: string -> set<string>, pass: nat, before: map<string, Mission>,
    todo: set<string>, buffer: map<string, Mission>, ops: seq<Op>, queued: seq<Rescue>, e: string)
    requires PassSoFar(ring, locals, viewAt, pass, before, todo, buffer, ops, queued) && e in todo
    requires Owner(ring, viewAt(e), buffer[e].payload.sectorID) !in locals
    ensures PassSoFar(ring, locals, viewAt, pass, before, todo - {e}, buffer, ops + SkipOps(pass, e, viewAt(e)), queued)
  {
    hide Leads, Stored, Owner, Between, SkipOps;
    assert before.Keys - (todo - {e}) == before.Keys - todo + {e};
    SkipLeadsOn(ring, locals, Holding(before), ops, buffer, before.Keys - todo, queued, pass, e, viewAt(e));
  }

  lemma SkipLeadsOn(ring: Ring, locals: set<string>, start: Broker, ops: seq<Op>, buffer: map<string, Mission>,
                    visited: set<string>, queued: seq<Rescue>, pass: nat, e: string, view: set<string>)
    requires e in buffer && e !in visited && Owner(ring, view, buffer[e].payload.sectorID) !in locals
    requires Leads(ring, locals, start, ops, Between(pass, buffer, visited, queued))
    ensures Leads(ring, locals, start, ops + SkipOps(pass, e, view), Between(pass, buffer, visited + {e}, queued))
  {
    hide Leads, Owner;
    var b, c := Between(pass, buffer, visited, queued), Copy(buffer[e], 0);
    assert Given(pass, visited + {e}) == Given(pass, visited) + {(pass, e)};
    var loaded := b.(hands := map[pass := Loaded(c)], loaded := Given(pass, visited + {e}));
    LeadsOn(ring, locals, start, ops, b, Loads(pass, e), loaded);
    var left := Between(pass, buffer, visited + {e}, queued);
    assert loaded.hands - {pass} == left.hands;
    LeadsOn(ring, locals, start, ops + [Loads(pass, e)], loaded, Takes(pass, view), left);
    assert ops + SkipOps(pass, e, view) == ops + [Loads(pass, e)] + [Takes(pass, view)];
  }

  /** The three steps of a pass on an entry that is ours. */
  lemma PassTakes(
    ring: Ring, locals: set<string>, viewAt: string -> set<string>, pass: nat, before: map<string, Mission>,
    todo: set<string>, buffer: map<string, Mission>, ops: seq<Op>, queued: seq<Rescue>, e: string)
    requires PassSoFar(ring, locals, viewAt, pass, before, todo, buffer, ops, queued) && e in todo && Keyed(before)
    requires Owner(ring, viewAt(e), buffer[e].payload.sectorID) in locals
    ensures PassSoFar(ring, locals, viewAt, pass, before, todo - {e}, buffer - {e},
                      ops + TakeOps(pass, e, viewAt(e)), queued + [Rescue(pass, Copy(buffer[e], 0))])
  {
    hide Leads, Stored, Owner, Between, TakeOps;
    assert before.Keys - (todo - {e}) == before.Keys - todo + {e};
    TakeLeadsOn(ring, locals, Holding(before), ops, buffer, before.Keys - todo, queued, pass, e, viewAt(e));
    StoredSplit(before, before.Keys - (buffer - {e}).Keys, e);
    assert before.Keys - (buffer - {e}).Keys - {e} == before.Keys - buffer.Keys;
    QueuedNext(queued, Rescue(pass, Copy(buffer[e], 0)));
  }

  lemma TakeLeadsOn(ring: Ring, locals: set<string>, start: Broker, ops: seq<Op>, buffer: map<string, Mission>,
                    visited: set<string>, queued: seq<Rescue>, pass: nat, e: string, view: set<string>)
    requires e in buffer && e !in visited && Id(buffer[e]) == e
    requires Owner(ring, view, buffer[e].payload.sectorID) in locals
    requires Leads(ring, locals, start, ops, Between(pass, buffer, visited, queued))
    ensures Leads(ring, locals, start, ops + TakeOps(pass, e, view),
                  Between(pass, buffer - {e}, visited + {e}, queued + [Rescue(pass, Copy(buffer[e], 0))]))
  {
    hide Leads, Owner;
    var b, c := Between(pass, buffer, visited, queued), Copy(buffer[e], 0);
    assert Given(pass, visited + {e}) == Given(pass, visited) + {(pass, e)};
    var loaded := b.(hands := map[pass := Loaded(c)], loaded := Given(pass, visited + {e}));
    LeadsOn(ring, locals, start, ops, b, Loads(pass, e), loaded);
    var took := loaded.(hands := map[pass := Took(c)], queued := queued + [Rescue(pass, c)]);
    assert loaded.hands[pass := Took(c)] == took.hands;
    LeadsOn(ring, locals, start, ops + [Loads(pass, e)], loaded, Takes(pass, view), took);
    var left := Between(pass, buffer - {e}, visited + {e}, queued + [Rescue(pass, c)]);
    assert took.hands - {pass} == left.hands && took.shadow - {e} == left.shadow;
    LeadsOn(ring, locals, start, ops + [Loads(pass, e)] + [Takes(pass, view)], took, Removes(pass), left);
    assert ops + TakeOps(pass, e, view) == ops + [Loads(pass, e)] + [Takes(pass, view)] + [Removes(pass)];
  }

  lemma PassEnds(
    ring: Ring, locals: set<string>, viewAt: string -> set<string>, pass: nat, before: map<string, Mission>,
    buffer: map<string, Mission>, ops: seq<Op>, queued: seq<Rescue>)
    requires PassSoFar(ring, locals, viewAt, pass, before, {}, buffer, ops, queued)
    ensures buffer == Kept(ring, locals, before, viewAt)
    ensures multiset(MissionsOf(queued)) == Stored(before, Orphans(ring, locals, before, viewAt))
    ensures |queued| == |Orphans(ring, locals, before, viewAt)|
    ensures Leads(ring, locals, Holding(before), ops, Between(pass, buffer, before.Keys, queued))
  {
    var orphans := Orphans(ring, locals, before, viewAt);
    assert orphans <= before.Keys && before.Keys - {} == before.Keys;
    hide Leads, Stored, Orphans, MissionsOf, Between;
    OthersStay(before, buffer, orphans);
    StoredSize(before, orphans);
    assert |multiset(MissionsOf(queued))| == |MissionsOf(queued)|;
  }
}
