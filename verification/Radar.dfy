/** The station's lease table: missions in the hands of drones, and the sweep that takes back the expired ones. */
module Radar {
  import opened Missions
  import opened MissionQueue
  import opened MissionTables
  import opened Permutations
  import Aging = AntiStarvation

  datatype InFlightRecord = InFlightRecord(mission: Mission, expiresAt: int)

  function Flying(records: map<string, InFlightRecord>): map<string, Mission> {
    map e | e in records :: records[e].mission
  }

  function Expired(records: map<string, InFlightRecord>, now: int): set<string> {
    set e | e in records && now > records[e].expiresAt
  }

  // ---------- any interleaving of drones' calls and sweeps ----------

  /** `held` is what a sweep or a Nack has taken out of the table and not yet put into the queue. */
  datatype Station = Station(
    records: map<string, InFlightRecord>, held: seq<Mission>, returned: seq<string>,
    acknowledged: seq<string>, overwritten: seq<string>, marked: seq<string>)

  const READY := Station(map[], [], [], [], [], [])

  /** A station with these leases and nothing else yet. */
  function Holding(records: map<string, InFlightRecord>): Station {
    READY.(records := records)
  }

  datatype Op =
    | Mark(mission: Mission, duration: int)
    | Renew(eventID: string, duration: int, renewed: bool)
    | Ack(eventID: string)
    | NackTakes(eventID: string)
    | SweepTakes(eventID: string)
    | PutBack(hand: nat)

  function Lent(records: map<string, InFlightRecord>, m: Mission, until: int): map<string, InFlightRecord> {
    records[Id(m) := InFlightRecord(m, until)]
  }

  ghost predicate Step(s: Station, op: Op, now: int, t: Station) {
    match op
    case Mark(m, duration) =>
      t == s.(records := Lent(s.records, m, now + duration), marked := s.marked + [Id(m)],
              overwritten := if Id(m) in s.records then s.overwritten + [Id(m)] else s.overwritten)
    case Renew(e, duration, renewed) =>
      && renewed == (e in s.records && now <= s.records[e].expiresAt)
      && t == if renewed then s.(records := s.records[e := s.records[e].(expiresAt := now + duration)]) else s
    case Ack(e) =>
      t == if e in s.records then s.(records := s.records - {e}, acknowledged := s.acknowledged + [e]) else s
    case NackTakes(e) =>
      t == if e in s.records then s.(records := s.records - {e}, held := s.held + [s.records[e].mission]) else s
    case SweepTakes(e) =>
      && e in s.records && now > s.records[e].expiresAt
      && t == s.(records := s.records - {e}, held := s.held + [s.records[e].mission])
    case PutBack(hand) =>
      && hand < |s.held|
      && t == s.(held := Without(s.held, hand), returned := s.returned + [Id(s.held[hand])])
  }

  /** These steps, all at this time, lead from the one state to the other. */
  ghost predicate Leads(now: int, s: Station, ops: seq<Op>, t: Station) {
    if ops == [] then s == t
    else
      var earlier, last := ops[..|ops| - 1], ops[|ops| - 1];
      exists mid :: Leads(now, s, earlier, mid) && Step(mid, last, now, t)
  }

  lemma NoSteps(now: int, s: Station)
    ensures Leads(now, s, [], s)
  {
  }

  lemma LeadsOn(now: int, s: Station, ops: seq<Op>, mid: Station, op: Op, t: Station)
    requires Leads(now, s, ops, mid) && Step(mid, op, now, t)
    ensures Leads(now, s, ops + [op], t)
  {
    hide Step;
    assert (ops + [op])[..|ops|] == ops;
  }

  lemma SweepTakesOne(now: int, start: Station, ops: seq<Op>, records: map<string, InFlightRecord>,
                      held: seq<Mission>, e: string)
    requires Leads(now, start, ops, Holding(records).(held := held)) && e in records && now > records[e].expiresAt
    ensures Leads(now, start, ops + [SweepTakes(e)],
                  Holding(records - {e}).(held := held + [records[e].mission]))
  {
    hide Leads;
    LeadsOn(now, start, ops, Holding(records).(held := held), SweepTakes(e),
            Holding(records - {e}).(held := held + [records[e].mission]));
  }

  lemma PutsBackOne(now: int, start: Station, ops: seq<Op>, records: map<string, InFlightRecord>,
                    held: seq<Mission>, returned: seq<string>)
    requires Leads(now, start, ops, Holding(records).(held := held, returned := returned)) && held != []
    ensures Leads(now, start, ops + [PutBack(0)],
                  Holding(records).(held := held[1..], returned := returned + [Id(held[0])]))
  {
    hide Leads;
    assert Without(held, 0) == held[1..];
    LeadsOn(now, start, ops, Holding(records).(held := held, returned := returned), PutBack(0),
            Holding(records).(held := held[1..], returned := returned + [Id(held[0])]));
  }

  ghost predicate Runs(states: seq<Station>, ops: seq<Op>, times: seq<int>) {
    && |states| == |ops| + 1 && |times| == |ops|
    && states[0] == READY
    && (forall i, j :: 0 <= i < j < |times| ==> times[i] <= times[j])
    && forall i :: 0 <= i < |ops| ==> Step(states[i], ops[i], times[i], states[i + 1])
  }

  function Accounted(s: Station, e: string): nat {
    (if e in s.records then 1 else 0) + Aging.Count(s.held, Is(e)) +
    Times(s.returned, e) + Times(s.acknowledged, e) + Times(s.overwritten, e)
  }

  ghost predicate Inv(s: Station) {
    && (forall e :: Accounted(s, e) == Times(s.marked, e))
    && (forall e :: e in s.records ==> Id(s.records[e].mission) == e)
  }

  lemma StepAccounts(s: Station, op: Op, now: int, t: Station, e: string)
    requires Inv(s) && Step(s, op, now, t)
    ensures Accounted(t, e) == Times(t.marked, e)
  {
    hide Aging.Count;
    assert Accounted(s, e) == Times(s.marked, e);
    match op {
      case Mark(m, duration) =>
      case Renew(f, duration, renewed) =>
      case Ack(f) =>
      case NackTakes(f) =>
        if f in s.records {
          Aging.CountAdded(s.held, s.records[f].mission, t.held, Is(e));
        }
      case SweepTakes(f) => Aging.CountAdded(s.held, s.records[f].mission, t.held, Is(e));
      case PutBack(hand) => Aging.CountWithout(s.held, hand, Is(e));
    }
  }

  lemma StepKeepsInv(s: Station, op: Op, now: int, t: Station)
    requires Inv(s) && Step(s, op, now, t)
    ensures Inv(t)
  {
    forall e
      ensures Accounted(t, e) == Times(t.marked, e)
    {
      StepAccounts(s, op, now, t, e);
    }
  }

  /**
   * In every run, each time an event was marked in flight is accounted for once: its lease is in the table, its
   * mission in the sweeper's hands, back in the queue, acknowledged, or its lease was replaced by a newer one.
   */
  lemma {:induction false} LeasesAreConserved(states: seq<Station>, ops: seq<Op>, times: seq<int>, n: nat)
    requires Runs(states, ops, times) && n <= |ops|
    ensures Inv(states[n])
  {
    if n > 0 {
      LeasesAreConserved(states, ops, times, n - 1);
      assert Step(states[n - 1], ops[n - 1], times[n - 1], states[n - 1 + 1]);
      StepKeepsInv(states[n - 1], ops[n - 1], times[n - 1], states[n]);
    }
  }

  ghost predicate HasExpired(s: Station, e: string, now: int) {
    e in s.records ==> now > s.records[e].expiresAt
  }

  /** A lease that has expired stays so, and every renewal of it is refused, until its event is marked again. */
  lemma {:induction false} ExpiredIsNotRevived(
    states: seq<Station>, ops: seq<Op>, times: seq<int>, i: nat, j: nat, e: string)
    requires Runs(states, ops, times) && i <= j < |ops| && HasExpired(states[i], e, times[i])
    requires forall k :: i <= k < j && ops[k].Mark? ==> Id(ops[k].mission) != e
    ensures HasExpired(states[j], e, times[j])
    ensures ops[j].Renew? && ops[j].eventID == e ==> !ops[j].renewed
    decreases j
  {
    assert Step(states[j], ops[j], times[j], states[j + 1]);
    if i < j {
      ExpiredIsNotRevived(states, ops, times, i, j - 1, e);
      assert Step(states[j - 1], ops[j - 1], times[j - 1], states[j - 1 + 1]);
      assert times[j - 1] <= times[j];
    }
  }

  // ---------- the table itself ----------

  class InFlightManager {
    var records: map<string, InFlightRecord>
    const pq: PriorityQueue

    ghost predicate Valid()
      reads this, pq
    {
      pq.Valid()
    }

    constructor (pq: PriorityQueue)
      requires pq.Valid()
      ensures Valid() && records == map[] && this.pq == pq
    {
      this.pq := pq;
      this.records := map[];
    }

    method MarkInFlight(mission: Mission, duration: int, now: int)
      modifies this
      ensures records == old(records)[mission.payload.eventID := InFlightRecord(mission, now + duration)]
      ensures Step(Holding(old(records)), Mark(mission, duration), now,
                   Holding(records).(marked := [Id(mission)],
                                     overwritten := if Id(mission) in old(records) then [Id(mission)] else []))
    {
      records := records[mission.payload.eventID := InFlightRecord(mission, now + duration)];
    }

    /** Extends a lease exactly while it is there and has not expired. */
    method RenewLease(eventID: string, duration: int, now: int) returns (renewed: bool)
      modifies this
      ensures renewed <==> eventID in old(records) && now <= old(records)[eventID].expiresAt
      ensures records == if renewed
                         then old(records)[eventID := old(records)[eventID].(expiresAt := now + duration)]
                         else old(records)
      ensures Step(Holding(old(records)), Renew(eventID, duration, renewed), now, Holding(records))
    {
      if eventID !in records {
        return false;
      }
      var record := records[eventID];
      if now > record.expiresAt {
        return false;
      }
      records := records[eventID := record.(expiresAt := now + duration)];
      return true;
    }

    method Acknowledge(eventID: string) returns (wasFlying: bool)
      modifies this
      ensures wasFlying <==> eventID in old(records)
      ensures records == old(records) - {eventID}
      ensures Step(Holding(old(records)), Ack(eventID), 0,
                   Holding(records).(acknowledged := if wasFlying then [eventID] else []))
    {
      if eventID !in records {
        return false;
      }
      records := records - {eventID};
      return true;
    }

    method Nack(eventID: string) returns (wasFlying: bool)
      requires Valid()
      modifies this, pq
      ensures Valid() && (wasFlying <==> eventID in old(records))
      ensures records == old(records) - {eventID}
      ensures multiset(pq.mh) == multiset(old(pq.mh)) +
                if wasFlying then multiset{old(records)[eventID].mission} else multiset{}
      ensures !wasFlying ==> Step(Holding(old(records)), NackTakes(eventID), 0, Holding(records))
      ensures wasFlying ==>
                var m := old(records)[eventID].mission;
                var taken := Holding(records).(held := [m]);
                && Step(Holding(old(records)), NackTakes(eventID), 0, taken)
                && Step(taken, PutBack(0), 0, Holding(records).(returned := [Id(m)]))
    {
      hide IsHeap, Less;
      wasFlying := eventID in records;
      if wasFlying {
        var record := records[eventID];
        records := records - {eventID};
        pq.Enqueue(record.mission);
      }
    }

    /** Under the lock: takes out exactly the expired missions, each once. */
    method CollectExpired(now: int) returns (expired: seq<Mission>, ghost ops: seq<Op>)
      modifies this
      ensures records == map e | e in old(records) && now <= old(records)[e].expiresAt :: old(records)[e]
      ensures multiset(expired) == Stored(Flying(old(records)), Expired(old(records), now))
      ensures Leads(now, Holding(old(records)), ops, Holding(records).(held := expired))
      ensures forall op :: op in ops ==> op.SweepTakes?
    {
      hide Stored, Leads, Step;
      ghost var flying, start := Flying(records), Holding(records);
      NothingStored(flying);
      NoSteps(now, start);
      expired, ops := [], [];
      ghost var taken: set<string> := {};
      var todo := records.Keys;
      while todo != {}
        invariant todo <= records.Keys <= old(records).Keys
        invariant forall e :: e in records ==> records[e] == old(records)[e]
        invariant taken <= old(records).Keys
        invariant forall e :: e in old(records) ==> (e in taken <==> e !in records)
        invariant forall e :: e in old(records) && e !in todo ==> (e in records <==> now <= old(records)[e].expiresAt)
        invariant multiset(expired) == Stored(flying, taken)
        invariant Leads(now, start, ops, Holding(records).(held := expired))
        invariant forall op :: op in ops ==> op.SweepTakes?
        decreases |todo|
      {
        var id :| id in todo;
        todo := todo - {id};
        var record := records[id];
        if now > record.expiresAt {
          SweepTakesOne(now, start, ops, records, expired, id);
          ops := ops + [SweepTakes(id)];
          expired := expired + [record.mission];
          records := records - {id};
          StoredSplit(flying, taken + {id}, id);
          assert taken + {id} - {id} == taken;
          taken := taken + {id};
        }
      }
      assert taken == Expired(old(records), now);
    }

    /** Moves exactly the expired missions from the table to the queue. */
    method Sweep(now: int) returns (ghost ops: seq<Op>, ghost returned: seq<string>)
      requires Valid()
      modifies this, pq
      ensures Valid()
      ensures records == map e | e in old(records) && now <= old(records)[e].expiresAt :: old(records)[e]
      ensures multiset(pq.mh) == multiset(old(pq.mh)) + Stored(Flying(old(records)), Expired(old(records), now))
      ensures Leads(now, Holding(old(records)), ops, Holding(records).(returned := returned))
      ensures forall op :: op in ops ==> op.SweepTakes? || op == PutBack(0)
    {
      hide IsHeap, Less, Stored, Leads, Step;
      var expired;
      expired, ops := CollectExpired(now);
      returned := [];
      ghost var swept, start := records, old(Holding(records));
      assert expired[0..] == expired;
      for i := 0 to |expired|
        invariant pq.Valid() && records == swept
        invariant multiset(pq.mh) == multiset(old(pq.mh)) + multiset(expired[..i])
        invariant Leads(now, start, ops, Holding(records).(held := expired[i..], returned := returned))
        invariant forall op :: op in ops ==> op.SweepTakes? || op == PutBack(0)
      {
        PutsBackOne(now, start, ops, records, expired[i..], returned);
        ops := ops + [PutBack(0)];
        returned := returned + [Id(expired[i])];
        assert expired[i..][1..] == expired[i + 1..];
        pq.Enqueue(expired[i]);
        assert expired[..i + 1] == expired[..i] + [expired[i]];
      }
      assert expired[..|expired|] == expired;
    }
  }
}
