/** Copies of other brokers' paid missions, kept so that a new owner can take over. */
module ShadowBuffer {
  import opened Missions
  import opened MissionTables
  import opened MissionQueue
  import opened SectorRouting
  import F = Failover
  import I = Intake

  class ShadowBufferManager {
    var buffer: map<string, Mission>

    ghost predicate Valid()
      reads this
    {
      Keyed(buffer)
    }

    constructor ()
      ensures Valid() && buffer == map[]
    {
      buffer := map[];
    }

    method Store(mission: Mission)
      requires Valid()
      modifies this
      ensures Valid()
      ensures buffer == old(buffer)[mission.payload.eventID := mission] == I.WithShadow(old(buffer), mission)
      ensures forall ring, locals ::
                F.Step(ring, locals, F.Holding(old(buffer)), F.Acked(mission), F.Holding(buffer).(acked := [mission]))
    {
      buffer := buffer[mission.payload.eventID := mission];
    }

    method ClearMission(eventID: string)
      requires Valid()
      modifies this
      ensures Valid() && buffer == old(buffer) - {eventID}
    {
      buffer := buffer - {eventID};
    }

    /**
     * One pass over the entries. `viewAt` is the member set that the router shows when an entry is visited; exactly
     * the missions of sectors that are ours by then move into the queue, one queue entry for each. Without
     * interference these are the steps of one pass.
     */
    method RescueOrphanedMissions(ring: Ring, locals: set<string>, viewAt: string -> set<string>,
                                  missionQueue: PriorityQueue, ghost pass: nat)
      returns (count: nat, ghost ops: seq<F.Op>, ghost queued: seq<F.Rescue>)
      requires Valid() && missionQueue.Valid()
      modifies this, missionQueue
      ensures Valid() && missionQueue.Valid()
      ensures var orphans := set e | e in old(buffer) &&
                (if viewAt(e) == {} then "" else ring(viewAt(e), old(buffer)[e].payload.sectorID)) in locals;
              && buffer == old(buffer) - orphans
              && multiset(missionQueue.mh) == multiset(old(missionQueue.mh)) + Stored(old(buffer), orphans)
              && multiset(F.MissionsOf(queued)) == Stored(old(buffer), orphans) && count == |orphans|
      ensures F.Leads(ring, locals, F.Holding(old(buffer)), ops,
                      F.Between(pass, buffer, old(buffer).Keys, queued))
    {
      hide IsHeap, Stored, Less, Owner, F.Leads, F.Holding, F.Between, F.MissionsOf, F.Orphans, F.PassSoFar;
      ghost var before := buffer;
      F.PassStarts(ring, locals, viewAt, pass, before);
      F.NothingQueued();
      count, ops, queued := 0, [], [];
      var todo := buffer.Keys;
      while todo != {}
        invariant Valid() && missionQueue.Valid() && todo <= buffer.Keys && count == |queued|
        invariant F.PassSoFar(ring, locals, viewAt, pass, before, todo, buffer, ops, queued)
        invariant multiset(missionQueue.mh) == multiset(old(missionQueue.mh)) + multiset(F.MissionsOf(queued))
        decreases |todo|
      {
        var key :| key in todo;
        var mission := buffer[key];
        var currentOwner := Owner(ring, viewAt(key), mission.payload.sectorID);
        if currentOwner in locals {
          F.PassTakes(ring, locals, viewAt, pass, before, todo, buffer, ops, queued, key);
          ops := ops + F.TakeOps(pass, key, viewAt(key));
          F.QueuedNext(queued, F.Rescue(pass, F.Copy(mission, 0)));
          queued := queued + [F.Rescue(pass, F.Copy(mission, 0))];
          missionQueue.Enqueue(mission);
          buffer := buffer - {key};
          count := count + 1;
        } else {
          F.PassSkips(ring, locals, viewAt, pass, before, todo, buffer, ops, queued, key);
          ops := ops + F.SkipOps(pass, key, viewAt(key));
        }
        todo := todo - {key};
      }
      F.PassEnds(ring, locals, viewAt, pass, before, buffer, ops, queued);
      F.OrphansInWords(ring, locals, before, viewAt);
    }
  }
}
