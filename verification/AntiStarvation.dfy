/** What the queue guarantees over any sequence of enqueues, dequeues and aging passes. */
module AntiStarvation {
  import opened Missions
  import opened Permutations

  /** A queue operation with what went in or came out; aging carries the clock it read. */
  datatype Operation =
    | Enqueued(mission: Mission)
    | Dequeued(mission: Mission)
    | AgedAt(clock: nat)

  /** What the methods of the mission queue promise about the queued missions, in whatever order they are stored. */
  ghost predicate Step(agingLimit: nat, before: seq<Mission>, op: Operation, after: seq<Mission>) {
    match op
    case Enqueued(m) => multiset(after) == multiset(before) + multiset{m}
    case Dequeued(m) => multiset(after) + multiset{m} == multiset(before) && forall x :: x in before ==> !Less(x, m)
    case AgedAt(clock) => multiset(after) == multiset(Aged(before, clock, agingLimit))
  }

  ghost predicate Runs(agingLimit: nat, queues: seq<seq<Mission>>, ops: seq<Operation>) {
    && |queues| == |ops| + 1
    && forall i :: 0 <= i < |ops| ==> Step(agingLimit, queues[i], ops[i], queues[i + 1])
  }

  // ---------- counting ----------

  function Count(ms: seq<Mission>, p: Mission -> bool): nat {
    if ms == [] then 0 else Count(ms[..|ms| - 1], p) + if p(ms[|ms| - 1]) then 1 else 0
  }

  lemma {:induction false} CountConcat(a: seq<Mission>, b: seq<Mission>, p: Mission -> bool)
    ensures Count(a + b, p) == Count(a, p) + Count(b, p)
  {
    if b == [] {
      assert a + b == a;
    } else {
      assert (a + b)[..|a + b| - 1] == a + b[..|b| - 1];
      CountConcat(a, b[..|b| - 1], p);
    }
  }

  lemma CountOne(m: Mission, p: Mission -> bool)
    ensures Count([m], p) == if p(m) then 1 else 0
  {
    assert [m][..0] == [];
  }

  lemma {:induction false} CountPermuted(a: seq<Mission>, b: seq<Mission>, p: Mission -> bool)
    requires multiset(a) == multiset(b)
    ensures Count(a, p) == Count(b, p)
  {
    if a == [] {
      assert |multiset(b)| == 0;
    } else {
      var k := WhereLastWent(a, b);
      CountPermuted(a[..|a| - 1], Without(b, k), p);
      CountWithout(b, k, p);
    }
  }

  lemma CountWithout(b: seq<Mission>, k: nat, p: Mission -> bool)
    requires k < |b|
    ensures Count(b, p) == Count(Without(b, k), p) + if p(b[k]) then 1 else 0
  {
    WithoutOne(b, k);
    CountConcat(b[..k], b[k + 1..], p);
    CountConcat(b[..k] + [b[k]], b[k + 1..], p);
    CountConcat(b[..k], [b[k]], p);
    CountOne(b[k], p);
  }

  lemma CountAdded(a: seq<Mission>, m: Mission, b: seq<Mission>, p: Mission -> bool)
    requires multiset(b) == multiset(a) + multiset{m}
    ensures Count(b, p) == Count(a, p) + if p(m) then 1 else 0
  {
    assert multiset(a + [m]) == multiset(b);
    CountPermuted(a + [m], b, p);
    CountConcat(a, [m], p);
    CountOne(m, p);
  }

  lemma {:induction false} CountLength(ms: seq<Mission>, p: Mission -> bool)
    ensures Count(ms, p) <= |ms|
    ensures (exists m :: m in ms && p(m)) ==> Count(ms, p) >= 1
  {
    if ms != [] {
      var init := ms[..|ms| - 1];
      CountLength(init, p);
      assert forall m :: m in ms ==> m in init || m == ms[|ms| - 1];
    }
  }

  lemma {:induction false} CountSame(a: seq<Mission>, b: seq<Mission>, p: Mission -> bool)
    requires |a| == |b| && forall i :: 0 <= i < |a| ==> p(a[i]) == p(b[i])
    ensures Count(a, p) == Count(b, p)
  {
    if a != [] {
      CountSame(a[..|a| - 1], b[..|b| - 1], p);
    }
  }

  // ---------- the waiting mission ----------

  function NotAfter(m: Mission): Mission -> bool {
    (x: Mission) => !Less(m, x)
  }

  function AsOldAs(m: Mission): Mission -> bool {
    (x: Mission) => x.lamportClock <= m.lamportClock
  }

  /** How many queued missions do not come strictly after m, itself included. */
  function Rank(ms: seq<Mission>, m: Mission): nat {
    Count(ms, NotAfter(m))
  }

  /** How many queued missions are at least as old as m by the Lamport clock. */
  function Elders(ms: seq<Mission>, m: Mission): nat {
    Count(ms, AsOldAs(m))
  }

  function Dequeues(ops: seq<Operation>): nat {
    if ops == [] then 0 else Dequeues(ops[..|ops| - 1]) + if ops[|ops| - 1].Dequeued? then 1 else 0
  }

  /** How many missions at least as old as m arrive later: returned by a station, or rescued from a shadow buffer. */
  function LateElders(ops: seq<Operation>, m: Mission): nat {
    if ops == [] then 0
    else LateElders(ops[..|ops| - 1], m) +
         var op := ops[|ops| - 1];
         if op.Enqueued? && op.mission.lamportClock <= m.lamportClock then 1 else 0
  }

  lemma CriticalStays(agingLimit: nat, before: seq<Mission>, op: Operation, after: seq<Mission>, m: Mission)
    requires Step(agingLimit, before, op, after) && op != Dequeued(m)
    requires m in before && m.payload.isCritical
    ensures m in after
  {
    assert m in multiset(before);
    match op {
      case Enqueued(x) => assert m in multiset(after);
      case Dequeued(x) => assert m in multiset(after);
      case AgedAt(clock) =>
        var i :| 0 <= i < |before| && before[i] == m;
        assert Aged(before, clock, agingLimit)[i] == m;
        assert m in multiset(after);
    }
  }

  lemma EldersStep(agingLimit: nat, before: seq<Mission>, op: Operation, after: seq<Mission>, m: Mission)
    requires Step(agingLimit, before, op, after) && op != Dequeued(m)
    requires m in before && m.payload.isCritical
    ensures Elders(after, m) + Dequeues([op]) <= Elders(before, m) + LateElders([op], m)
  {
    assert [op][..0] == [];
    var p := AsOldAs(m);
    match op {
      case Enqueued(x) => CountAdded(before, x, after, p);
      case Dequeued(x) =>
        CountAdded(after, x, before, p);
        assert !Less(m, x);
      case AgedAt(clock) =>
        CountSame(before, Aged(before, clock, agingLimit), p);
        CountPermuted(Aged(before, clock, agingLimit), after, p);
    }
  }

  lemma {:induction false} OpsSplit(ops: seq<Operation>, n: nat, m: Mission)
    requires n < |ops|
    ensures Dequeues(ops[..n + 1]) == Dequeues(ops[..n]) + Dequeues([ops[n]])
    ensures LateElders(ops[..n + 1], m) == LateElders(ops[..n], m) + LateElders([ops[n]], m)
  {
    assert ops[..n + 1][..n] == ops[..n];
    assert [ops[n]][..0] == [];
  }

  /**
   * In any run, as long as a critical mission has not come out, fewer missions have come out than were ahead of it
   * by age at the start or joined later at its age or older.
   */
  lemma {:induction false} WaitIsBounded(
    agingLimit: nat, queues: seq<seq<Mission>>, ops: seq<Operation>, m: Mission, n: nat)
    requires Runs(agingLimit, queues, ops) && n <= |ops|
    requires m in queues[0] && m.payload.isCritical && Dequeued(m) !in ops[..n]
    ensures m in queues[n]
    ensures Dequeues(ops[..n]) + Elders(queues[n], m) <= Elders(queues[0], m) + LateElders(ops[..n], m)
    ensures Dequeues(ops[..n]) < Elders(queues[0], m) + LateElders(ops[..n], m)
  {
    if n == 0 {
      assert ops[..0] == [];
    } else {
      assert forall op :: op in ops[..n - 1] ==> op in ops[..n];
      WaitIsBounded(agingLimit, queues, ops, m, n - 1);
      assert ops[n - 1] in ops[..n];
      assert Step(agingLimit, queues[n - 1], ops[n - 1], queues[n - 1 + 1]);
      CriticalStays(agingLimit, queues[n - 1], ops[n - 1], queues[n], m);
      EldersStep(agingLimit, queues[n - 1], ops[n - 1], queues[n], m);
      OpsSplit(ops, n - 1, m);
    }
    CountLength(queues[n], AsOldAs(m));
  }

  // ---------- after an aging pass ----------

  ghost predicate EldersAreCritical(ms: seq<Mission>, m: Mission) {
    forall x :: x in ms && x.lamportClock <= m.lamportClock ==> x.payload.isCritical
  }

  lemma RankStep(agingLimit: nat, before: seq<Mission>, op: Operation, after: seq<Mission>, m: Mission)
    requires Step(agingLimit, before, op, after) && op != Dequeued(m)
    requires m in before && m.payload.isCritical && EldersAreCritical(before, m)
    requires op.Enqueued? ==> op.mission.lamportClock > m.lamportClock
    ensures EldersAreCritical(after, m)
    ensures Rank(after, m) == Rank(before, m) - Dequeues([op])
  {
    assert [op][..0] == [];
    var p := NotAfter(m);
    match op {
      case Enqueued(x) =>
        CountAdded(before, x, after, p);
        SameMembers(before + [x], after);
      case Dequeued(x) =>
        CountAdded(after, x, before, p);
        SameMembers(after + [x], before);
      case AgedAt(clock) =>
        var aged := Aged(before, clock, agingLimit);
        SameMembers(aged, after);
        CountPermuted(aged, after, p);
        assert forall i :: 0 <= i < |before| ==> before[i] in before;
        CountSame(before, aged, p);
    }
  }

  /**
   * A mission that an aging pass finds past the limit is critical from then on. While every later arrival has a
   * younger clock, the missions not strictly after it never grow in number, every dequeue brings out either it or
   * one of them, and so it comes out within as many dequeues as missions were queued.
   */
  lemma {:induction false} NoStarvation(
    agingLimit: nat, clock: nat, unaged: seq<Mission>, queues: seq<seq<Mission>>, ops: seq<Operation>,
    waiting: Mission, n: nat)
    requires Runs(agingLimit, queues, ops) && n <= |ops|
    requires Step(agingLimit, unaged, AgedAt(clock), queues[0])
    requires waiting in unaged && clock > waiting.lamportClock + agingLimit
    requires forall i :: 0 <= i < n && ops[i].Enqueued? ==> ops[i].mission.lamportClock > waiting.lamportClock
    requires Dequeued(Promoted(waiting)) !in ops[..n]
    ensures var m := Promoted(waiting);
            && m in queues[n] && EldersAreCritical(queues[n], m)
            && Rank(queues[n], m) == Rank(queues[0], m) - Dequeues(ops[..n])
            && Dequeues(ops[..n]) < Rank(queues[0], m) <= |unaged|
  {
    var m := Promoted(waiting);
    if n == 0 {
      assert ops[..0] == [];
      var aged := Aged(unaged, clock, agingLimit);
      SameMembers(aged, queues[0]);
      var i :| 0 <= i < |unaged| && unaged[i] == waiting;
      assert aged[i] == m && m in aged;
      assert |multiset(queues[0])| == |multiset(aged)|;
    } else {
      assert forall op :: op in ops[..n - 1] ==> op in ops[..n];
      NoStarvation(agingLimit, clock, unaged, queues, ops, waiting, n - 1);
      assert ops[n - 1] in ops[..n];
      assert Step(agingLimit, queues[n - 1], ops[n - 1], queues[n - 1 + 1]);
      CriticalStays(agingLimit, queues[n - 1], ops[n - 1], queues[n], m);
      RankStep(agingLimit, queues[n - 1], ops[n - 1], queues[n], m);
      OpsSplit(ops, n - 1, m);
    }
    LessIsWeakOrder(m, m, m);
    CountLength(queues[0], NotAfter(m));
    CountLength(queues[n], NotAfter(m));
  }

  /** Without aging there is no such bound: critical missions arriving one by one keep any other waiting forever. */
  lemma {:induction false} StarvesWithoutAging(agingLimit: nat, m: Mission, critical: Mission, n: nat)
    returns (queues: seq<seq<Mission>>, ops: seq<Operation>)
    requires !m.payload.isCritical && critical.payload.isCritical
    ensures Runs(agingLimit, queues, ops) && queues[0] == [m] && queues[|ops|] == [m]
    ensures Dequeues(ops) == n && Dequeued(m) !in ops
    ensures forall op :: op in ops ==> !op.AgedAt?
  {
    if n == 0 {
      queues, ops := [[m]], [];
    } else {
      var qs, os := StarvesWithoutAging(agingLimit, m, critical, n - 1);
      queues := qs + [[m, critical], [m]];
      ops := os + [Enqueued(critical), Dequeued(critical)];
      OneMoreRound(agingLimit, m, critical, qs, os);
    }
  }

  lemma OneMoreRound(agingLimit: nat, m: Mission, critical: Mission, qs: seq<seq<Mission>>, os: seq<Operation>)
    requires !m.payload.isCritical && critical.payload.isCritical
    requires Runs(agingLimit, qs, os) && qs[|os|] == [m]
    ensures Runs(agingLimit, qs + [[m, critical], [m]], os + [Enqueued(critical), Dequeued(critical)])
    ensures Dequeues(os + [Enqueued(critical), Dequeued(critical)]) == Dequeues(os) + 1
  {
    hide Dequeues;
    LessIsWeakOrder(critical, critical, critical);
    var queues, ops := qs + [[m, critical], [m]], os + [Enqueued(critical), Dequeued(critical)];
    forall i | 0 <= i < |ops|
      ensures Step(agingLimit, queues[i], ops[i], queues[i + 1])
    {
      if i < |os| {
        assert Step(agingLimit, qs[i], os[i], qs[i + 1]);
      }
    }
    CountTwoMore(os, critical);
  }

  lemma CountTwoMore(os: seq<Operation>, critical: Mission)
    ensures Dequeues(os + [Enqueued(critical), Dequeued(critical)]) == Dequeues(os) + 1
  {
    var ops := os + [Enqueued(critical), Dequeued(critical)];
    assert ops[..|ops| - 1] == os + [Enqueued(critical)];
    assert ops[..|ops| - 1][..|os|] == os;
  }

  // ---------- missions that are not critical ----------

  /** How many queued missions are critical or at least as old as m. */
  function Ahead(ms: seq<Mission>, m: Mission): nat {
    Count(ms, IsAhead(m))
  }

  function IsAhead(m: Mission): Mission -> bool {
    (x: Mission) => x.payload.isCritical || x.lamportClock <= m.lamportClock
  }

  /** How many missions that are critical or at least as old as m arrive later. */
  function LateAhead(ops: seq<Operation>, m: Mission): nat {
    if ops == [] then 0
    else LateAhead(ops[..|ops| - 1], m) +
         var op := ops[|ops| - 1];
         if op.Enqueued? && (op.mission.payload.isCritical || op.mission.lamportClock <= m.lamportClock) then 1 else 0
  }

  /** No aging pass of the run reaches m. */
  ghost predicate NeverPromoted(agingLimit: nat, ops: seq<Operation>, m: Mission) {
    forall op :: op in ops && op.AgedAt? ==> op.clock <= m.lamportClock + agingLimit
  }

  lemma LateSplit(ops: seq<Operation>, n: nat, m: Mission)
    requires n < |ops|
    ensures LateAhead(ops[..n + 1], m) == LateAhead(ops[..n], m) + LateAhead([ops[n]], m)
  {
    assert ops[..n + 1][..n] == ops[..n];
    assert [ops[n]][..0] == [];
  }

  lemma AheadStep(agingLimit: nat, before: seq<Mission>, op: Operation, after: seq<Mission>, m: Mission)
    requires Step(agingLimit, before, op, after) && op != Dequeued(m)
    requires m in before && !m.payload.isCritical && NeverPromoted(agingLimit, [op], m)
    ensures m in after
    ensures Ahead(after, m) + Dequeues([op]) == Ahead(before, m) + LateAhead([op], m)
  {
    hide Less;
    assert [op][..0] == [] && op in [op];
    var p := IsAhead(m);
    assert m in multiset(before);
    match op {
      case Enqueued(x) => CountAdded(before, x, after, p); assert m in multiset(after);
      case Dequeued(x) =>
        CountAdded(after, x, before, p);
        NotPrecededOnFields(m, x);
        assert m in multiset(after);
      case AgedAt(clock) =>
        var aged := Aged(before, clock, agingLimit);
        CountSame(before, aged, p);
        CountPermuted(aged, after, p);
        var i :| 0 <= i < |before| && before[i] == m;
        assert aged[i] == m && m in aged && m in multiset(after);
    }
  }

  /**
   * In any run, as long as a mission that is not critical has neither come out nor been reached by an aging pass, fewer
   * missions have come out than were critical or as old at the start or joined so later. What aging promotes meanwhile
   * is older than it and counted already.
   */
  lemma {:induction false} OrdinaryWaitIsBounded(
    agingLimit: nat, queues: seq<seq<Mission>>, ops: seq<Operation>, m: Mission, n: nat)
    requires Runs(agingLimit, queues, ops) && n <= |ops|
    requires m in queues[0] && !m.payload.isCritical
    requires Dequeued(m) !in ops[..n] && NeverPromoted(agingLimit, ops[..n], m)
    ensures m in queues[n]
    ensures Dequeues(ops[..n]) + Ahead(queues[n], m) == Ahead(queues[0], m) + LateAhead(ops[..n], m)
    ensures Dequeues(ops[..n]) < Ahead(queues[0], m) + LateAhead(ops[..n], m)
  {
    hide Step, Ahead;
    if n == 0 {
      assert ops[..0] == [];
    } else {
      assert forall op :: op in ops[..n - 1] ==> op in ops[..n];
      OrdinaryWaitIsBounded(agingLimit, queues, ops, m, n - 1);
      assert ops[n - 1] in ops[..n];
      assert Step(agingLimit, queues[n - 1], ops[n - 1], queues[n - 1 + 1]);
      AheadStep(agingLimit, queues[n - 1], ops[n - 1], queues[n], m);
      OpsSplit(ops, n - 1, m);
      LateSplit(ops, n - 1, m);
    }
    SomeAhead(queues[n], m);
  }

  lemma SomeAhead(ms: seq<Mission>, m: Mission)
    requires m in ms
    ensures Ahead(ms, m) >= 1
  {
    CountLength(ms, IsAhead(m));
  }

  // ---------- what aging may promote ----------

  /** At some earlier step the mission was critical already when it joined, or a pass found it past the limit. */
  ghost predicate WasEarned(agingLimit: nat, queues: seq<seq<Mission>>, ops: seq<Operation>, n: nat, x: Mission)
    requires n <= |ops| < |queues|
  {
    || x in queues[0]
    || (exists i :: 0 <= i < n && ops[i] == Enqueued(x))
    || (exists i :: 0 <= i < n && ops[i].AgedAt? && ops[i].clock > x.lamportClock + agingLimit
                    && x.(payload := x.payload.(isCritical := false)) in queues[i])
  }

  lemma MembersAfter(agingLimit: nat, before: seq<Mission>, op: Operation, after: seq<Mission>, x: Mission)
    requires Step(agingLimit, before, op, after) && x in after
    ensures x in before || op == Enqueued(x)
            || (op.AgedAt? && x.payload.isCritical && op.clock > x.lamportClock + agingLimit
                && x.(payload := x.payload.(isCritical := false)) in before)
  {
    match op {
      case Enqueued(m) => SameMembers(before + [m], after);
      case Dequeued(m) => SameMembers(after + [m], before);
      case AgedAt(clock) =>
        var aged := Aged(before, clock, agingLimit);
        SameMembers(aged, after);
        var i :| 0 <= i < |aged| && aged[i] == x;
        assert before[i] in before;
    }
  }

  /** What is queued or comes out was there at the start, joined as it is, or was promoted past the limit. */
  lemma {:induction false} PromotionIsEarned(
    agingLimit: nat, queues: seq<seq<Mission>>, ops: seq<Operation>, n: nat, x: Mission)
    requires Runs(agingLimit, queues, ops) && n <= |ops|
    requires x in queues[n] || (n < |ops| && ops[n] == Dequeued(x))
    ensures WasEarned(agingLimit, queues, ops, n, x)
  {
    if n < |ops| && ops[n] == Dequeued(x) {
      assert Step(agingLimit, queues[n], ops[n], queues[n + 1]);
      assert (queues[n + 1] + [x])[|queues[n + 1]|] == x;
      SameMembers(queues[n + 1] + [x], queues[n]);
    }
    if n > 0 {
      assert Step(agingLimit, queues[n - 1], ops[n - 1], queues[n - 1 + 1]);
      MembersAfter(agingLimit, queues[n - 1], ops[n - 1], queues[n], x);
      if x in queues[n - 1] {
        PromotionIsEarned(agingLimit, queues, ops, n - 1, x);
      }
    }
  }

  // ---------- draining ----------

  lemma {:induction false} DrainedInOrder(agingLimit: nat, queues: seq<seq<Mission>>, out: seq<Mission>)
    requires |queues| == |out| + 1 && queues[|out|] == []
    requires forall i :: 0 <= i < |out| ==> Step(agingLimit, queues[i], Dequeued(out[i]), queues[i + 1])
    ensures multiset(out) == multiset(queues[0])
    ensures forall i, j :: 0 <= i < j < |out| ==> !Less(out[j], out[i])
  {
    if out != [] {
      var rest := out[1..];
      forall i | 0 <= i < |rest|
        ensures Step(agingLimit, queues[1..][i], Dequeued(rest[i]), queues[1..][i + 1])
      {
        assert Step(agingLimit, queues[i + 1], Dequeued(out[i + 1]), queues[i + 1 + 1]);
      }
      DrainedInOrder(agingLimit, queues[1..], rest);
      assert Step(agingLimit, queues[0], Dequeued(out[0]), queues[0 + 1]);
      assert out == [out[0]] + rest;
      forall i, j | 0 <= i < j < |out|
        ensures !Less(out[j], out[i])
      {
        if i == 0 {
          assert out[j] == rest[j - 1] && rest[j - 1] in multiset(rest);
          assert out[j] in multiset(queues[0]);
        } else {
          assert out[i] == rest[i - 1] && out[j] == rest[j - 1];
        }
      }
    }
  }

  /**
   * Dequeuing until nothing is left brings everything out: critical missions first, then by the older clock, then by
   * the sensor's name.
   */
  lemma DrainingSorts(agingLimit: nat, queues: seq<seq<Mission>>, out: seq<Mission>)
    requires |queues| == |out| + 1 && queues[|out|] == []
    requires forall n :: 0 <= n < |out| ==> Step(agingLimit, queues[n], Dequeued(out[n]), queues[n + 1])
    ensures multiset(out) == multiset(queues[0])
    ensures forall i, j :: 0 <= i < j < |out| ==>
              && (out[j].payload.isCritical ==> out[i].payload.isCritical)
              && (out[i].payload.isCritical == out[j].payload.isCritical ==>
                    && out[i].lamportClock <= out[j].lamportClock
                    && (out[i].lamportClock == out[j].lamportClock ==>
                          var a, b := out[i].payload.sensorID, out[j].payload.sensorID;
                          a == b || exists k :: 0 <= k <= |a| && k < |b| && a[..k] == b[..k]
                                                && (k == |a| || a[k] < b[k])))
  {
    hide Step, Less;
    DrainedInOrder(agingLimit, queues, out);
    forall i, j | 0 <= i < j < |out| {
      NotPrecededOnFields(out[j], out[i]);
    }
  }
}
