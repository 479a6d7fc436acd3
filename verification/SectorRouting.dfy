/** Who owns a sector: consistent hashing over the brokers that the name service last reported. */
module SectorRouting {
  import opened Text

  /** The hash ring's choice: some function of the member set and the sector that picks a member. */
  type Ring = (set<string>, int) -> string

  ghost predicate PicksMembers(ring: Ring) {
    forall members: set<string>, sector: int :: members != {} ==> ring(members, sector) in members
  }

  /** The empty text stands for the ring's error on an empty member set. */
  function Owner(ring: Ring, members: set<string>, sectorID: int): string {
    if members == {} then "" else ring(members, sectorID)
  }

  class SectorRouter {
    const ring: Ring
    var members: set<string>
    /** The last lookup, as a bag of addresses: sorting and joining them forgets exactly their order. */
    var previousSwarmState: multiset<string>

    constructor (ring: Ring)
      ensures this.ring == ring && members == {} && previousSwarmState == multiset{}
    {
      this.ring := ring;
      members := {};
      previousSwarmState := multiset{};
    }

    /** One round of watching the topology; None is a failed lookup. Reports whether the view changed. */
    method ObserveTopology(lookup: Option<seq<string>>) returns (changed: bool)
      modifies this
      ensures changed <==> lookup.Some? && lookup.value != [] && multiset(lookup.value) != old(previousSwarmState)
      ensures changed ==> members == set ip | ip in lookup.value
      ensures changed ==> members != {} && previousSwarmState == multiset(lookup.value)
      ensures !changed ==> members == old(members) && previousSwarmState == old(previousSwarmState)
    {
      if lookup.Some? && |lookup.value| > 0 {
        var currentState := multiset(lookup.value);
        if currentState != previousSwarmState {
          members := set ip | ip in lookup.value;
          previousSwarmState := currentState;
          assert lookup.value[0] in members;
          return true;
        }
      }
      return false;
    }

    function GetOwnerIP(sectorID: int): string
      reads this
    {
      Owner(ring, members, sectorID)
    }
  }
}
