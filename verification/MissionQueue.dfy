/** The mission queue: Go's `container/heap` over a slice of missions, and the anti-starvation pass. */
module MissionQueue {
  import opened Text
  import opened Missions
  import opened Permutations
  import Aging = AntiStarvation

  function Parent(k: nat): nat
    requires k > 0
  {
    (k - 1) / 2
  }

  ghost predicate InOrder(h: seq<Mission>, k: nat)
    requires 0 < k < |h|
  {
    !Less(h[k], h[Parent(k)])
  }

  /** Among the first n, every mission below position `from` in the tree is no earlier than its parent. */
  ghost predicate HeapFrom(h: seq<Mission>, from: nat, n: nat)
    requires n <= |h|
  {
    forall k :: 0 < k < n && Parent(k) >= from ==> InOrder(h, k)
  }

  ghost predicate IsHeap(h: seq<Mission>) {
    HeapFrom(h, 0, |h|)
  }

  lemma {:induction false} RootPrecedesAll(h: seq<Mission>, k: nat)
    requires IsHeap(h) && k < |h|
    ensures !Less(h[k], h[0])
  {
    if k == 0 {
      LessIsWeakOrder(h[0], h[0], h[0]);
    } else {
      RootPrecedesAll(h, Parent(k));
      assert InOrder(h, k);
      LessIsWeakOrder(h[0], h[Parent(k)], h[k]);
    }
  }

  function Swapped(h: seq<Mission>, i: nat, j: nat): seq<Mission>
    requires i < |h| && j < |h|
  {
    h[i := h[j]][j := h[i]]
  }

  lemma SwapPermutes(h: seq<Mission>, i: nat, j: nat)
    requires i < |h| && j < |h|
    ensures multiset(Swapped(h, i, j)) == multiset(h)
  {
  }

  // ---------- sifting ----------

  /** While a mission rises: everything is in order except perhaps position j, and j's children respect j's parent. */
  ghost predicate Rising(h: seq<Mission>, j: nat)
    requires j < |h|
  {
    && (forall k :: 0 < k < |h| && k != j ==> InOrder(h, k))
    && (j > 0 ==> forall k :: 0 < k < |h| && Parent(k) == j ==> !Less(h[k], h[Parent(j)]))
  }

  lemma RiseOne(h: seq<Mission>, j: nat)
    requires 0 < j < |h| && Rising(h, j) && Less(h[j], h[Parent(j)])
    ensures Rising(Swapped(h, Parent(j), j), Parent(j))
  {
    hide Less;
    var i := Parent(j);
    var h' := Swapped(h, i, j);
    LessIsWeakOrder(h[j], h[i], h[i]);
    forall k | 0 < k < |h| && k != i
      ensures InOrder(h', k)
    {
      if Parent(k) == i && k != j {
        assert InOrder(h, k);
        LessIsWeakOrder(h[j], h[i], h[k]);
      } else if k != j && Parent(k) != j {
        assert InOrder(h, k);
      }
    }
    if i > 0 {
      assert InOrder(h, i);
      forall k | 0 < k < |h| && Parent(k) == i
        ensures !Less(h'[k], h'[Parent(i)])
      {
        if k != j {
          assert InOrder(h, k);
          LessIsWeakOrder(h[Parent(i)], h[i], h[k]);
        }
      }
    }
  }

  /** While a mission sinks from i0: all is in order except below position i, and i's children respect i's parent. */
  ghost predicate Sinking(h: seq<Mission>, i0: nat, i: nat, n: nat)
    requires n <= |h|
  {
    && i0 <= i
    && (forall k :: 0 < k < n && Parent(k) >= i0 && Parent(k) != i ==> InOrder(h, k))
    && (i > i0 ==> forall k :: 0 < k < n && Parent(k) == i ==> Parent(i) >= i0 && !Less(h[k], h[Parent(i)]))
  }

  ghost predicate SmallestChild(h: seq<Mission>, i: nat, j: nat, n: nat)
    requires n <= |h|
  {
    0 < j < n && Parent(j) == i && forall k :: 0 < k < n && Parent(k) == i ==> !Less(h[k], h[j])
  }

  lemma SinkOne(h: seq<Mission>, i0: nat, i: nat, j: nat, n: nat)
    requires n <= |h| && Sinking(h, i0, i, n) && SmallestChild(h, i, j, n) && Less(h[j], h[i])
    ensures Sinking(Swapped(h, i, j), i0, j, n)
  {
    hide Less;
    var h' := Swapped(h, i, j);
    LessIsWeakOrder(h[j], h[i], h[i]);
    forall k | 0 < k < n && Parent(k) >= i0 && Parent(k) != j
      ensures InOrder(h', k)
    {
      if Parent(k) != i {
        assert InOrder(h, k);
        if k == i {
          assert Parent(j) == i;
        }
      }
    }
    forall k | 0 < k < n && Parent(k) == j
      ensures !Less(h'[k], h'[Parent(j)])
    {
      assert InOrder(h, k);
    }
  }

  lemma Settled(h: seq<Mission>, i0: nat, i: nat, j: nat, n: nat)
    requires n <= |h| && Sinking(h, i0, i, n)
    requires i < n ==> (2 * i + 1 < n ==> SmallestChild(h, i, j, n) && !Less(h[j], h[i]))
    ensures HeapFrom(h, i0, n)
  {
    hide Less;
    forall k | 0 < k < n && Parent(k) >= i0
      ensures InOrder(h, k)
    {
      if Parent(k) == i {
        assert SmallestChild(h, i, j, n);
        LessIsWeakOrder(h[i], h[j], h[k]);
      }
    }
  }

  /** Exchanging the root with the last mission disturbs nothing among the others. */
  lemma BelowRoot(h: seq<Mission>, n: nat)
    requires IsHeap(h) && |h| == n + 1
    ensures HeapFrom(Swapped(h, 0, n), 1, n)
  {
    hide Less;
    forall k | 0 < k < n && Parent(k) >= 1
      ensures InOrder(Swapped(h, 0, n), k)
    {
      assert InOrder(h, k);
    }
  }

  lemma HeapPrefix(h: seq<Mission>, n: nat)
    requires n <= |h| && HeapFrom(h, 0, n)
    ensures IsHeap(h[..n])
  {
    hide Less;
    forall k | 0 < k < n
      ensures InOrder(h[..n], k)
    {
      assert InOrder(h, k);
    }
  }

  lemma ChildOf(h: seq<Mission>, i: nat, j: nat, n: nat)
    requires n <= |h| && 2 * i + 1 < n
    requires j == if 2 * i + 2 < n && Less(h[2 * i + 2], h[2 * i + 1]) then 2 * i + 2 else 2 * i + 1
    ensures SmallestChild(h, i, j, n)
  {
    hide Less;
    assert Parent(2 * i + 1) == i && Parent(2 * i + 2) == i;
    LessIsWeakOrder(h[j], h[2 * i + 1], h[j]);
    if 2 * i + 2 < n {
      LessIsWeakOrder(h[2 * i + 1], h[2 * i + 2], h[j]);
    }
    forall k | 0 < k < n && Parent(k) == i
      ensures !Less(h[k], h[j])
    {
      assert k == 2 * i + 1 || k == 2 * i + 2;
    }
  }

  /** What nothing precedes, on the fields. */
  lemma FirstOnFields(h: seq<Mission>, m: Mission)
    requires forall x :: x in h ==> !Less(x, m)
    ensures forall x :: x in h ==>
              && (x.payload.isCritical ==> m.payload.isCritical)
              && (x.payload.isCritical == m.payload.isCritical ==>
                    && m.lamportClock <= x.lamportClock
                    && (m.lamportClock == x.lamportClock ==>
                          var a, b := m.payload.sensorID, x.payload.sensorID;
                          a == b || exists k :: 0 <= k <= |a| && k < |b| && a[..k] == b[..k]
                                                && (k == |a| || a[k] < b[k])))
  {
    hide Less;
    forall x | x in h
      ensures (x.payload.isCritical ==> m.payload.isCritical)
              && (x.payload.isCritical == m.payload.isCritical ==>
                    && m.lamportClock <= x.lamportClock
                    && (m.lamportClock == x.lamportClock ==>
                          var a, b := m.payload.sensorID, x.payload.sensorID;
                          a == b || exists k :: 0 <= k <= |a| && k < |b| && a[..k] == b[..k]
                                                && (k == |a| || a[k] < b[k])))
    {
      NotPrecededOnFields(x, m);
    }
  }

  /** What an aging pass leaves, on the fields and in any order. */
  lemma AgedOnFields(before: seq<Mission>, currentClock: nat, agingLimit: nat, after: seq<Mission>)
    requires multiset(after) == multiset(Aged(before, currentClock, agingLimit))
    ensures forall x :: x in before ==>
              if !x.payload.isCritical && currentClock > x.lamportClock + agingLimit
              then x.(payload := x.payload.(isCritical := true)) in after else x in after
    ensures forall y :: y in after ==>
              y in before || (y.payload.isCritical && currentClock > y.lamportClock + agingLimit
                              && y.(payload := y.payload.(isCritical := false)) in before)
  {
    var aged := Aged(before, currentClock, agingLimit);
    SameMembers(after, aged);
    forall x | x in before
      ensures if !x.payload.isCritical && currentClock > x.lamportClock + agingLimit
              then x.(payload := x.payload.(isCritical := true)) in after else x in after
    {
      var i :| 0 <= i < |before| && before[i] == x;
      assert aged[i] in after;
    }
    forall y | y in after
      ensures y in before || (y.payload.isCritical && currentClock > y.lamportClock + agingLimit
                              && y.(payload := y.payload.(isCritical := false)) in before)
    {
      var i :| 0 <= i < |aged| && aged[i] == y;
      assert before[i] in before;
    }
  }

  // ---------- the queue ----------

  class PriorityQueue {
    const agingLimit: nat
    var mh: seq<Mission>

    ghost predicate Valid()
      reads this
    {
      IsHeap(mh)
    }

    constructor (agingLimit: nat)
      ensures Valid() && mh == [] && this.agingLimit == agingLimit
    {
      this.agingLimit := agingLimit;
      this.mh := [];
    }

    method Swap(i: nat, j: nat)
      requires i < |mh| && j < |mh|
      modifies this
      ensures mh == Swapped(old(mh), i, j)
    {
      mh := mh[i := mh[j]][j := mh[i]];
    }

    /** `heap.up` */
    method Up(j0: nat)
      requires j0 < |mh| && Rising(mh, j0)
      modifies this
      ensures Valid() && multiset(mh) == multiset(old(mh))
    {
      hide Less;
      var j: nat := j0;
      while true
        invariant j < |mh| && Rising(mh, j) && multiset(mh) == multiset(old(mh))
        decreases j
      {
        var i: nat := if j == 0 then 0 else (j - 1) / 2;
        if i == j || !Less(mh[j], mh[i]) {
          break;
        }
        RiseOne(mh, j);
        SwapPermutes(mh, i, j);
        Swap(i, j);
        j := i;
      }
    }

    /** `heap.down`: the missions from position n on stay where they are. */
    method Down(i0: nat, n: nat)
      requires i0 < n <= |mh| || i0 == n == 0
      requires HeapFrom(mh, i0 + 1, n)
      modifies this
      ensures |mh| == |old(mh)| && mh[n..] == old(mh)[n..]
      ensures HeapFrom(mh, i0, n) && multiset(mh) == multiset(old(mh))
    {
      hide Less;
      var i := i0;
      while true
        invariant |mh| == |old(mh)| && mh[n..] == old(mh)[n..]
        invariant i0 <= i && (i < n || n == 0) && Sinking(mh, i0, i, n) && multiset(mh) == multiset(old(mh))
        decreases n - i
      {
        var j1 := 2 * i + 1;
        if j1 >= n {
          Settled(mh, i0, i, j1, n);
          break;
        }
        var j := j1;
        var j2 := j1 + 1;
        if j2 < n && Less(mh[j2], mh[j1]) {
          j := j2;
        }
        ChildOf(mh, i, j, n);
        if !Less(mh[j], mh[i]) {
          Settled(mh, i0, i, j, n);
          break;
        }
        SinkOne(mh, i0, i, j, n);
        SwapPermutes(mh, i, j);
        Swap(i, j);
        i := j;
      }
    }

    /** `heap.Init` */
    method Init()
      modifies this
      ensures Valid() && multiset(mh) == multiset(old(mh)) && |mh| == |old(mh)|
    {
      var n := |mh|;
      var i := n / 2 - 1;
      while i >= 0
        invariant -1 <= i < n && (n > 0 ==> i < n) && |mh| == n
        invariant HeapFrom(mh, i + 1, n) && multiset(mh) == multiset(old(mh))
      {
        Down(i, n);
        i := i - 1;
      }
    }

    method Enqueue(m: Mission)
      requires Valid()
      modifies this
      ensures Valid() && Aging.Step(agingLimit, old(mh), Aging.Enqueued(m), mh)
      ensures multiset(mh) == multiset(old(mh)) + multiset{m}
      ensures |mh| == |old(mh)| + 1
    {
      hide Less;
      mh := mh + [m];
      forall k | 0 < k < |mh| - 1
        ensures InOrder(mh, k)
      {
        assert InOrder(old(mh), k);
      }
      Up(|mh| - 1);
      assert |mh| == |multiset(mh)|;
    }

    /** `heap.Pop` */
    method Pop() returns (item: Mission)
      requires Valid() && mh != []
      modifies this
      ensures Valid() && item == old(mh)[0] && |mh| == |old(mh)| - 1
      ensures multiset(mh) + multiset{item} == multiset(old(mh))
    {
      hide Less, InOrder;
      var n := |mh| - 1;
      SwapPermutes(mh, 0, n);
      Swap(0, n);
      BelowRoot(old(mh), n);
      Down(0, n);
      item := mh[n];
      assert mh[n..][0] == old(mh)[0];
      assert mh == mh[..n] + [item];
      ghost var whole := mh;
      mh := mh[..n];
      HeapPrefix(whole, n);
    }

    /** Takes out a mission that no queued mission precedes; None exactly when nothing is queued. */
    method Dequeue() returns (next: Option<Mission>)
      requires Valid()
      modifies this
      ensures Valid()
      ensures next == None <==> old(mh) == []
      ensures next == None ==> mh == []
      ensures next.Some? ==> Aging.Step(agingLimit, old(mh), Aging.Dequeued(next.value), mh)
      ensures next.Some? ==> multiset(mh) + multiset{next.value} == multiset(old(mh))
                             && |mh| == |old(mh)| - 1
                             && forall x :: x in old(mh) ==> !Less(x, next.value)
      ensures next.Some? ==>
                var m := next.value;
                forall x :: x in old(mh) ==>
                  && (x.payload.isCritical ==> m.payload.isCritical)
                  && (x.payload.isCritical == m.payload.isCritical ==>
                        && m.lamportClock <= x.lamportClock
                        && (m.lamportClock == x.lamportClock ==>
                              var a, b := m.payload.sensorID, x.payload.sensorID;
                              a == b || exists k :: 0 <= k <= |a| && k < |b| && a[..k] == b[..k]
                                                    && (k == |a| || a[k] < b[k])))
    {
      hide Less, InOrder;
      if |mh| == 0 {
        return None;
      }
      forall x | x in mh
        ensures !Less(x, mh[0])
      {
        var k :| 0 <= k < |mh| && mh[k] == x;
        RootPrecedesAll(mh, k);
      }
      FirstOnFields(mh, mh[0]);
      var mission := Pop();
      return Some(mission);
    }

    /** One round of the anti-starvation worker: promotes what the clock has left behind, and nothing else. */
    method AgingPass(currentClock: nat)
      requires Valid()
      modifies this
      ensures Valid() && Aging.Step(agingLimit, old(mh), Aging.AgedAt(currentClock), mh)
      ensures multiset(mh) == multiset(Aged(old(mh), currentClock, agingLimit))
      ensures |mh| == |old(mh)|
      ensures forall x :: x in old(mh) ==>
                if !x.payload.isCritical && currentClock > x.lamportClock + agingLimit
                then x.(payload := x.payload.(isCritical := true)) in mh else x in mh
      ensures forall y :: y in mh ==>
                y in old(mh) || (y.payload.isCritical && currentClock > y.lamportClock + agingLimit
                                 && y.(payload := y.payload.(isCritical := false)) in old(mh))
    {
      if |mh| == 0 {
        AgedOnFields(mh, currentClock, agingLimit, mh);
        return;
      }
      var promoted := false;
      for i := 0 to |mh|
        invariant |mh| == |old(mh)|
        invariant forall k :: 0 <= k < i ==> mh[k] == Aged(old(mh), currentClock, agingLimit)[k]
        invariant forall k :: i <= k < |mh| ==> mh[k] == old(mh)[k]
        invariant !promoted ==> mh == old(mh)
      {
        if !mh[i].payload.isCritical {
          if currentClock > mh[i].lamportClock && currentClock - mh[i].lamportClock > agingLimit {
            mh := mh[i := mh[i].(payload := mh[i].payload.(isCritical := true))];
            promoted := true;
          }
        }
      }
      assert mh == Aged(old(mh), currentClock, agingLimit);
      if promoted {
        Init();
      }
      AgedOnFields(old(mh), currentClock, agingLimit, mh);
    }
  }
}
