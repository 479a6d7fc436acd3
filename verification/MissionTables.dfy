/** Tables of missions under their events, and the bag of missions that a part of such a table holds. */
module MissionTables {
  import opened Missions

  predicate Keyed(buffer: map<string, Mission>) {
    forall e :: e in buffer ==> Id(buffer[e]) == e
  }

  /** The missions stored under these events, one for each. */
  ghost function Stored(buffer: map<string, Mission>, events: set<string>): multiset<Mission>
    requires events <= buffer.Keys
  {
    if events == {} then multiset{}
    else
      var e :| e in events;
      Stored(buffer, events - {e}) + multiset{buffer[e]}
  }

  lemma {:induction false} StoredSplit(buffer: map<string, Mission>, events: set<string>, e: string)
    requires events <= buffer.Keys && e in events
    ensures Stored(buffer, events) == Stored(buffer, events - {e}) + multiset{buffer[e]}
    decreases |events|
  {
    var f :| f in events && Stored(buffer, events) == Stored(buffer, events - {f}) + multiset{buffer[f]};
    if f != e {
      StoredSplit(buffer, events - {f}, e);
      StoredSplit(buffer, events - {e}, f);
      assert events - {f} - {e} == events - {e} - {f};
    }
  }

  lemma NothingStored(buffer: map<string, Mission>)
    ensures Stored(buffer, {}) == multiset{}
  {
  }

  lemma {:induction false} StoredSize(buffer: map<string, Mission>, events: set<string>)
    requires events <= buffer.Keys
    ensures |Stored(buffer, events)| == |events|
    decreases |events|
  {
    if events != {} {
      var f :| f in events && Stored(buffer, events) == Stored(buffer, events - {f}) + multiset{buffer[f]};
      StoredSize(buffer, events - {f});
    }
  }

  /** Each mission is in the bag as often as events have it. */
  lemma {:induction false} StoredCount(buffer: map<string, Mission>, events: set<string>, m: Mission)
    requires events <= buffer.Keys
    ensures Stored(buffer, events)[m] == |set e | e in events && buffer[e] == m|
    decreases |events|
  {
    var holders := set e | e in events && buffer[e] == m;
    if events == {} {
      assert holders == {};
    } else {
      var f :| f in events && Stored(buffer, events) == Stored(buffer, events - {f}) + multiset{buffer[f]};
      StoredCount(buffer, events - {f}, m);
      var others := set e | e in events - {f} && buffer[e] == m;
      assert holders == if buffer[f] == m then others + {f} else others;
    }
  }

  lemma {:induction false} StoredOnce(buffer: map<string, Mission>, events: set<string>, e: string)
    requires Keyed(buffer) && events <= buffer.Keys && e in buffer
    ensures Stored(buffer, events)[buffer[e]] == if e in events then 1 else 0
    decreases |events|
  {
    if events != {} {
      var f :| f in events && Stored(buffer, events) == Stored(buffer, events - {f}) + multiset{buffer[f]};
      StoredOnce(buffer, events - {f}, e);
      assert buffer[e] == buffer[f] ==> e == f;
    }
  }

  /** Taking out exactly these entries leaves the rest. */
  lemma OthersStay<V>(before: map<string, V>, after: map<string, V>, taken: set<string>)
    requires taken <= before.Keys && after.Keys <= before.Keys && forall e :: e in after ==> after[e] == before[e]
    requires forall e :: e in before ==> (e in after <==> e !in taken)
    ensures after == before - taken && before.Keys - after.Keys == taken
  {
  }
}
