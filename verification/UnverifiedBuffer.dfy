/** The waiting room: missions of other brokers' sectors until the owner's verdict, or a timeout, arrives. */
module UnverifiedBuffer {
  import opened Text
  import opened Missions
  import I = Intake

  const TIMEOUT_SECONDS := 10

  datatype UnverifiedRecord = UnverifiedRecord(mission: Mission, expiresAt: int)

  function WaitingMissions(records: map<string, UnverifiedRecord>): map<string, Mission> {
    map e | e in records :: records[e].mission
  }

  /** The intake's state of a broker of which only the waiting room is in view. */
  function RoomOf(records: map<string, UnverifiedRecord>): I.Broker {
    I.Resting({}, 0, WaitingMissions(records), map[])
  }

  // ---------- the janitor's round ----------

  /** A round of the janitor when the entries in `todo` are still to be looked at. */
  ghost predicate PassSoFar(site: I.Site, before: map<string, UnverifiedRecord>, now: int, todo: set<string>,
                            records: map<string, UnverifiedRecord>, ops: seq<I.Op>) {
    && todo <= records.Keys <= before.Keys && (forall e :: e in records ==> records[e] == before[e])
    && (forall e :: e in before && e !in todo ==> (e in records <==> now <= before[e].expiresAt))
    && I.Allowed(site, RoomOf(before), ops) && I.Final(site, RoomOf(before), ops) == RoomOf(records)
    && (forall op :: op in ops ==> op.Expires?)
  }

  lemma PassStarts(site: I.Site, before: map<string, UnverifiedRecord>, now: int)
    ensures PassSoFar(site, before, now, before.Keys, before, [])
  {
    I.NoSteps(site, RoomOf(before));
  }

  lemma PassGoesOn(site: I.Site, before: map<string, UnverifiedRecord>, now: int, todo: set<string>,
                   records: map<string, UnverifiedRecord>, ops: seq<I.Op>, e: string)
    requires PassSoFar(site, before, now, todo, records, ops) && e in todo
    ensures if now > records[e].expiresAt
            then PassSoFar(site, before, now, todo - {e}, records - {e}, ops + [I.Expires(e)])
            else PassSoFar(site, before, now, todo - {e}, records, ops)
  {
    hide I.Final, I.Allowed, I.After, RoomOf;
    if now > records[e].expiresAt {
      I.GoesOn(site, RoomOf(before), ops, I.Expires(e));
      ExpiredLeaves(site, records, e);
    }
  }

  lemma ExpiredLeaves(site: I.Site, records: map<string, UnverifiedRecord>, e: string)
    ensures I.After(site, RoomOf(records), I.Expires(e)) == RoomOf(records - {e})
  {
    assert WaitingMissions(records - {e}) == I.WithoutEvent(WaitingMissions(records), e);
  }

  lemma PassEnds(site: I.Site, before: map<string, UnverifiedRecord>, now: int,
                 records: map<string, UnverifiedRecord>, ops: seq<I.Op>)
    requires PassSoFar(site, before, now, {}, records, ops)
    ensures I.Allowed(site, RoomOf(before), ops) && I.Final(site, RoomOf(before), ops) == RoomOf(records)
    ensures forall op :: op in ops ==> op.Expires?
    ensures records == map e | e in before && now <= before[e].expiresAt :: before[e]
  {
    hide I.Final, I.Allowed, RoomOf;
  }

  class UnverifiedBufferManager {
    var buffer: map<string, UnverifiedRecord>

    constructor ()
      ensures buffer == map[]
    {
      buffer := map[];
    }

    method Store(mission: Mission, now: int)
      modifies this
      ensures buffer == old(buffer)[mission.payload.eventID := UnverifiedRecord(mission, now + 10)]
      ensures WaitingMissions(buffer) == I.WithParked(WaitingMissions(old(buffer)), mission)
    {
      buffer := buffer[mission.payload.eventID := UnverifiedRecord(mission, now + TIMEOUT_SECONDS)];
    }

    method RetrieveAndRemove(eventID: string) returns (found: Option<Mission>)
      modifies this
      ensures buffer == old(buffer) - {eventID}
      ensures WaitingMissions(buffer) == I.WithoutEvent(WaitingMissions(old(buffer)), eventID)
      ensures found == if eventID in old(buffer) then Some(old(buffer)[eventID].mission) else None
    {
      if eventID in buffer {
        found := Some(buffer[eventID].mission);
        buffer := buffer - {eventID};
      } else {
        found := None;
      }
    }

    /** One round of the janitor: drops exactly the missions whose timeout has passed, one by one. */
    method JanitorPass(now: int, ghost site: I.Site) returns (ghost ops: seq<I.Op>)
      modifies this
      ensures I.Allowed(site, RoomOf(old(buffer)), ops) && I.Final(site, RoomOf(old(buffer)), ops) == RoomOf(buffer)
      ensures forall op :: op in ops ==> op.Expires?
      ensures buffer == map e | e in old(buffer) && now <= old(buffer)[e].expiresAt :: old(buffer)[e]
    {
      hide I.Final, I.Allowed, RoomOf, PassSoFar;
      PassStarts(site, buffer, now);
      ops := [];
      var todo := buffer.Keys;
      while todo != {}
        invariant todo <= buffer.Keys && PassSoFar(site, old(buffer), now, todo, buffer, ops)
        decreases |todo|
      {
        var key :| key in todo;
        PassGoesOn(site, old(buffer), now, todo, buffer, ops, key);
        if now > buffer[key].expiresAt {
          ops := ops + [I.Expires(key)];
          buffer := buffer - {key};
        }
        todo := todo - {key};
      }
      PassEnds(site, old(buffer), now, buffer, ops);
    }
  }
}
