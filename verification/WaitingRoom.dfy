/**
 * Packet against verdict: what a broker that does not own the sector remembers of an event in every interleaving
 * of the worker that parks its packet with the handlers that take in the owner's verdict.
 */
module WaitingRoom {
  import opened Missions
  import opened SectorRouting
  import opened Intake
  import opened UndividedIntake

  /** The filter lets the event's packet through, for the first time. */
  predicate LetsIn(b: Broker, op: Op, e: string) {
    op.Receives? && op.data.eventID == e && IsMissionRequest(op.data) && e !in b.known
  }

  /** A handler with a verdict on the event looks for it in the waiting room. */
  predicate Clears(b: Broker, op: Op, e: string) {
    op.Retrieves? && op.handler < |b.handlers| && b.handlers[op.handler].Noted? && b.handlers[op.handler].eventID == e
  }

  predicate ShadowsEvent(b: Broker, op: Op, e: string) {
    op.Shadows? && op.handler < |b.handlers| && b.handlers[op.handler].Cleared?
    && Id(b.handlers[op.handler].mission) == e
  }

  // ---------- the order of letting in, clearing and parking ----------

  lemma {:induction false} KnownStays(site: Site, states: seq<Broker>, ops: seq<Op>, i: nat, j: nat)
    requires Runs(site, states, ops) && i <= j <= |ops|
    ensures states[i].known <= states[j].known
    decreases j
  {
    hide Inv, Step;
    if i < j {
      KnownStays(site, states, ops, i, j - 1);
      RunKeepsInv(site, states, ops, j - 1);
      assert Step(site, states[j - 1], ops[j - 1], states[j - 1 + 1]);
      StepKeepsInv(site, states[j - 1], ops[j - 1], states[j]);
    }
  }

  /** What is known was let in or heard of, and nothing else is. */
  lemma KnownByStep(site: Site, b: Broker, op: Op, b': Broker, e: string)
    requires Step(site, b, op, b')
    ensures e in b'.known <==> e in b.known || LetsIn(b, op, e) || (op.Hears? && op.eventID == e)
    ensures e in b'.workers <==> e in b.workers || LetsIn(b, op, e)
  {
    hide Owner, IsElsewhere, IsMissionRequest, Packet;
  }

  /** The filter remembers exactly the events it let in and those of verdicts, in whatever order they came. */
  lemma {:induction false} KnownExactly(site: Site, states: seq<Broker>, ops: seq<Op>, n: nat, e: string)
    requires Runs(site, states, ops) && n <= |ops|
    ensures e in states[n].known
            <==> exists i :: 0 <= i < n && (LetsIn(states[i], ops[i], e) || (ops[i].Hears? && ops[i].eventID == e))
    ensures e in states[n].workers <==> exists i :: 0 <= i < n && LetsIn(states[i], ops[i], e)
  {
    hide Step, LetsIn;
    if n > 0 {
      KnownExactly(site, states, ops, n - 1, e);
      assert Step(site, states[n - 1], ops[n - 1], states[n - 1 + 1]);
      KnownByStep(site, states[n - 1], ops[n - 1], states[n], e);
    }
  }

  lemma ClearedAfterLetIn(site: Site, states: seq<Broker>, ops: seq<Op>, p: nat, r: nat, e: string)
    requires Runs(site, states, ops) && p < |ops| && r < |ops|
    requires LetsIn(states[p], ops[p], e) && Clears(states[r], ops[r], e)
    ensures p < r
  {
    RunKeepsInv(site, states, ops, r);
    if r < p {
      KnownStays(site, states, ops, r, p);
    }
  }

  // ---------- the waiting room ----------

  /** The steps on which the event's place in the waiting room depends. */
  lemma WaitingByStep(site: Site, b: Broker, op: Op, b': Broker, e: string)
    requires WorkersKnown(b) && Step(site, b, op, b')
    ensures e in b'.waiting <==> op == Parks(e) || (e in b.waiting && !Clears(b, op, e) && op != Expires(e))
  {
    hide Owner, IsElsewhere, IsMissionRequest, Packet;
  }

  ghost predicate Untouched(states: seq<Broker>, ops: seq<Op>, s: nat, n: nat, e: string)
    requires n <= |ops| < |states|
  {
    forall x :: s < x < n ==> !Clears(states[x], ops[x], e) && ops[x] != Expires(e)
  }

  lemma {:induction false} WaitingSinceParked(site: Site, states: seq<Broker>, ops: seq<Op>, n: nat, e: string)
    requires Runs(site, states, ops) && n <= |ops|
    ensures e in states[n].waiting
            <==> exists s: nat :: s < n && ops[s] == Parks(e) && Untouched(states, ops, s, n, e)
  {
    hide Step, Clears, Inv;
    if n > 0 {
      WaitingSinceParked(site, states, ops, n - 1, e);
      RunKeepsInv(site, states, ops, n - 1);
      assert Step(site, states[n - 1], ops[n - 1], states[n - 1 + 1]);
      WaitingNext(site, states, ops, n - 1, e);
    }
  }

  lemma WaitingNext(site: Site, states: seq<Broker>, ops: seq<Op>, n: nat, e: string)
    requires n < |ops| < |states| && Inv(states[n]) && Step(site, states[n], ops[n], states[n + 1])
    requires e in states[n].waiting
             <==> exists s: nat :: s < n && ops[s] == Parks(e) && Untouched(states, ops, s, n, e)
    ensures e in states[n + 1].waiting
            <==> exists s: nat :: s < n + 1 && ops[s] == Parks(e) && Untouched(states, ops, s, n + 1, e)
  {
    WaitingByStep(site, states[n], ops[n], states[n + 1], e);
    hide Step, Clears, Inv;
    forall s: nat | s < n && Untouched(states, ops, s, n + 1, e)
      ensures Untouched(states, ops, s, n, e)
    {
    }
    if ops[n] == Parks(e) {
      assert Untouched(states, ops, n, n + 1, e);
    } else if e in states[n + 1].waiting {
      var s: nat :| s < n && ops[s] == Parks(e) && Untouched(states, ops, s, n, e);
      assert Untouched(states, ops, s, n + 1, e);
    }
  }

  /** Between the filter at p and the waiting room at s, every verdict's look for the event came and went. */
  ghost predicate LeftWaiting(states: seq<Broker>, ops: seq<Op>, p: nat, s: nat, n: nat, e: string)
    requires n <= |ops| < |states|
  {
    && p < s < n && LetsIn(states[p], ops[p], e) && ops[s] == Parks(e)
    && (forall r :: 0 <= r < n && Clears(states[r], ops[r], e) ==> p < r < s)
    && (forall x :: s < x < n ==> ops[x] != Expires(e))
  }

  /**
   * In every interleaving: an event is left in the waiting room if and only if its packet was let in and parked, it
   * did not expire since, and every verdict that looked for it did so between the filter and the parking. So a
   * verdict clears the waiting room exactly if it does not fall into that gap.
   */
  lemma WaitingExactly(site: Site, states: seq<Broker>, ops: seq<Op>, n: nat, e: string)
    requires Runs(site, states, ops) && n <= |ops|
    ensures e in states[n].waiting <==> exists p: nat, s: nat :: LeftWaiting(states, ops, p, s, n, e)
  {
    WaitingSinceParked(site, states, ops, n, e);
    forall p: nat, s: nat | LeftWaiting(states, ops, p, s, n, e)
      ensures Untouched(states, ops, s, n, e)
    {
    }
    if e in states[n].waiting {
      var s: nat :| s < n && ops[s] == Parks(e) && Untouched(states, ops, s, n, e);
      ParkedWasLetIn(site, states, ops, s, n, e);
    }
  }

  lemma ParkedWasLetIn(site: Site, states: seq<Broker>, ops: seq<Op>, s: nat, n: nat, e: string)
    requires Runs(site, states, ops) && s < n <= |ops| && ops[s] == Parks(e) && Untouched(states, ops, s, n, e)
    ensures exists p: nat :: LeftWaiting(states, ops, p, s, n, e)
  {
    assert Step(site, states[s], ops[s], states[s + 1]);
    KnownExactly(site, states, ops, s, e);
    var p: nat :| p < s && LetsIn(states[p], ops[p], e);
    forall r | 0 <= r < n && Clears(states[r], ops[r], e)
      ensures p < r < s
    {
      ClearedAfterLetIn(site, states, ops, p, r, e);
    }
    assert LeftWaiting(states, ops, p, s, n, e);
  }

  lemma {:induction false} ParkedForGood(site: Site, states: seq<Broker>, ops: seq<Op>, i: nat, j: nat, e: string)
    requires Runs(site, states, ops) && i <= j <= |ops|
    requires e in states[i].workers && (states[i].workers[e].Parked? || states[i].workers[e].Forwarded?)
    ensures e in states[j].workers && (states[j].workers[e].Parked? || states[j].workers[e].Forwarded?)
    decreases j
  {
    hide Step, CountsAgree, PacketsOwed, VerdictsOwed, HandlersKnown, WorkersKnown;
    if i < j {
      ParkedForGood(site, states, ops, i, j - 1, e);
      RunKeepsInv(site, states, ops, j - 1);
      assert Step(site, states[j - 1], ops[j - 1], states[j - 1 + 1]);
      ParkedStays(site, states[j - 1], ops[j - 1], states[j], e);
    }
  }

  lemma ParkedStays(site: Site, b: Broker, op: Op, b': Broker, e: string)
    requires WorkersKnown(b) && Step(site, b, op, b')
    requires e in b.workers && (b.workers[e].Parked? || b.workers[e].Forwarded?)
    ensures e in b'.workers && (b'.workers[e].Parked? || b'.workers[e].Forwarded?)
  {
    hide Owner, IsElsewhere, IsMissionRequest, Packet;
  }

  lemma LetInOnce(site: Site, states: seq<Broker>, ops: seq<Op>, p: nat, q: nat, e: string)
    requires Runs(site, states, ops) && p < q < |ops| && LetsIn(states[p], ops[p], e)
    ensures !LetsIn(states[q], ops[q], e)
  {
    assert Step(site, states[p], ops[p], states[p + 1]);
    KnownStays(site, states, ops, p + 1, q);
  }

  lemma ParkedOnce(site: Site, states: seq<Broker>, ops: seq<Op>, s: nat, t: nat, e: string)
    requires Runs(site, states, ops) && s < t < |ops| && ops[s] == Parks(e)
    ensures ops[t] != Parks(e)
  {
    assert Step(site, states[s], ops[s], states[s + 1]) && Step(site, states[t], ops[t], states[t + 1]);
    ParkedForGood(site, states, ops, s + 1, t, e);
  }

  /** One packet and one verdict, nothing expiring: the packet is left waiting exactly if the verdict is in the gap. */
  lemma LeftExactlyInGap(site: Site, states: seq<Broker>, ops: seq<Op>, p: nat, s: nat, r: nat, n: nat, e: string)
    requires Runs(site, states, ops) && p < n <= |ops| && s < n && r < n
    requires LetsIn(states[p], ops[p], e) && ops[s] == Parks(e) && Clears(states[r], ops[r], e)
    requires forall x :: 0 <= x < n ==> ops[x] != Expires(e) && (Clears(states[x], ops[x], e) ==> x == r)
    ensures e in states[n].waiting <==> p < r < s
  {
    hide Step, LetsIn, Clears;
    WaitingExactly(site, states, ops, n, e);
    assert p < r < s ==> LeftWaiting(states, ops, p, s, n, e);
    if e in states[n].waiting {
      var p': nat, s': nat :| LeftWaiting(states, ops, p', s', n, e);
      if p' < p {
        LetInOnce(site, states, ops, p', p, e);
      } else if p < p' {
        LetInOnce(site, states, ops, p, p', e);
      }
      if s' < s {
        ParkedOnce(site, states, ops, s', s, e);
      } else if s < s' {
        ParkedOnce(site, states, ops, s, s', e);
      }
    }
  }

  /**
   * A run that no order of undivided handlers gives: the verdict is taken in whole while the packet, already let in,
   * is not parked yet. In the end worker and handler are done and the event is still waiting, as if undecided.
   */
  lemma VerdictInGap(site: Site, data: SensorData, view: set<string>, action: string, m: Mission) returns (ops: seq<Op>)
    requires IsMissionRequest(data) && data.eventID != "" && (action == "ACK" || action == "NACK")
    requires IsElsewhere(site, Owner(site.ring, view, data.sectorID))
    ensures Allowed(site, START, ops)
    ensures var end := Final(site, START, ops); var e := data.eventID;
            && e in end.waiting && end.workers.Keys == {e} && end.workers[e].Forwarded? && end.handlers == [Finished]
            && (action == "ACK" ==> end.shadow == map[Id(m) := m])
  {
    var b;
    ops, b := UntilRouted(site, data, view);
    ops, b := HandlerTakes(site, START, ops, b, action, data.eventID, m);
    ops, b := ParkedAndForwarded(site, ops, b, data.eventID);
  }

  /** A packet for another broker's sector on its way to the waiting room. */
  lemma UntilRouted(site: Site, data: SensorData, view: set<string>) returns (ops: seq<Op>, b: Broker)
    requires IsMissionRequest(data)
    requires IsElsewhere(site, Owner(site.ring, view, data.sectorID))
    ensures Allowed(site, START, ops) && b == Final(site, START, ops)
    ensures var e := data.eventID;
            && b.workers.Keys == {e} && b.workers[e].Foreign? && EventOf(b.workers[e]) == e
            && b.known == {e} && b.waiting == map[] && b.shadow == map[] && b.handlers == []
  {
    hide Final, Allowed, Owner, IsElsewhere;
    var e := data.eventID;
    NoSteps(site, START);
    GoesOn(site, START, [], Receives(data));
    ops := [] + [Receives(data)];
    GoesOn(site, START, ops, Ticks(e));
    ops := ops + [Ticks(e)];
    if data.internalClock > 0 {
      GoesOn(site, START, ops, Syncs(e));
      ops := ops + [Syncs(e)];
    }
    GoesOn(site, START, ops, Routes(e, view));
    ops := ops + [Routes(e, view)];
    b := Final(site, START, ops);
  }

  lemma ParkedAndForwarded(site: Site, before: seq<Op>, b: Broker, e: string) returns (ops: seq<Op>, b': Broker)
    requires Allowed(site, START, before) && b == Final(site, START, before)
    requires b.workers.Keys == {e} && b.workers[e].Foreign? && EventOf(b.workers[e]) == e
    ensures Allowed(site, START, ops) && b' == Final(site, START, ops)
    ensures e in b'.waiting && b'.workers.Keys == {e} && b'.workers[e].Forwarded?
    ensures b'.handlers == b.handlers && b'.shadow == b.shadow
  {
    hide Final, Allowed, Packet;
    GoesOn(site, START, before, Parks(e));
    ops := before + [Parks(e)];
    GoesOn(site, START, ops, Forwards(e));
    ops := ops + [Forwards(e)];
    b' := Final(site, START, ops);
  }


  // ---------- the shadow buffer ----------

  lemma ShadowByStep(site: Site, b: Broker, op: Op, b': Broker, e: string)
    requires Step(site, b, op, b')
    ensures e in b'.shadow <==> ShadowsEvent(b, op, e) || (e in b.shadow && op != Rescues(e))
    ensures e in b'.shadow ==>
              b'.shadow[e] == if ShadowsEvent(b, op, e) then b.handlers[op.handler].mission else b.shadow[e]
  {
    hide Owner, IsElsewhere, IsMissionRequest, Packet;
  }

  /** At s a handler stored this mission as the event's copy, and no later step stored another or removed it. */
  ghost predicate LastShadowed(states: seq<Broker>, ops: seq<Op>, s: nat, n: nat, e: string, m: Mission)
    requires n <= |ops| < |states|
  {
    && s < n && ShadowsEvent(states[s], ops[s], e) && states[s].handlers[ops[s].handler].mission == m
    && forall x :: s < x < n ==> !ShadowsEvent(states[x], ops[x], e) && ops[x] != Rescues(e)
  }

  /** In every interleaving the shadow copy is the last that an ACK stored and no rescue took: packets never matter. */
  lemma {:induction false} ShadowExactly(site: Site, states: seq<Broker>, ops: seq<Op>, n: nat, e: string, m: Mission)
    requires Runs(site, states, ops) && n <= |ops|
    ensures e in states[n].shadow && states[n].shadow[e] == m
            <==> exists s: nat :: LastShadowed(states, ops, s, n, e, m)
  {
    hide Step, ShadowsEvent;
    if n > 0 {
      ShadowExactly(site, states, ops, n - 1, e, m);
      var b, op, b' := states[n - 1], ops[n - 1], states[n];
      assert Step(site, b, op, states[n - 1 + 1]);
      ShadowByStep(site, b, op, b', e);
      forall s: nat | s < n - 1 && LastShadowed(states, ops, s, n, e, m)
        ensures LastShadowed(states, ops, s, n - 1, e, m)
      {
      }
      if e in b'.shadow && b'.shadow[e] == m {
        if ShadowsEvent(b, op, e) {
          assert LastShadowed(states, ops, n - 1, n, e, m);
        } else {
          var s: nat :| LastShadowed(states, ops, s, n - 1, e, m);
          assert LastShadowed(states, ops, s, n, e, m);
        }
      }
    }
  }
}
