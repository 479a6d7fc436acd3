/** The filter that lets each event through once while it remembers it. */
module IdempotencyFilter {

  // ---------- many workers and the cleanup, in any interleaving ----------

  /**
   * What happens to the filter at the instant `at`. A worker looked at the wall clock (`now`) before its
   * load-or-store, and the cleanup before its round, so `now` may lie behind `at`.
   */
  datatype Event =
    | Checked(at: int, eventID: string, now: int, isNew: bool)
    | Forgot(at: int, eventID: string, now: int)

  ghost predicate Step(ttl: int, s: map<string, int>, e: Event, t: map<string, int>) {
    && e.now <= e.at
    && match e
       case Checked(_, id, now, isNew) => isNew == (id !in s) && t == if isNew then s[id := now + ttl] else s
       case Forgot(_, id, now) => id in s && now > s[id] && t == s - {id}
  }

  ghost predicate Runs(ttl: int, states: seq<map<string, int>>, events: seq<Event>) {
    && |states| == |events| + 1
    && (forall i :: 0 <= i < |events| ==> Step(ttl, states[i], events[i], states[i + 1]))
    && (forall i, j :: 0 <= i < j < |events| ==> events[i].at <= events[j].at)
  }

  /** These events, in this order, lead from the one memory to the other. */
  ghost predicate Leads(ttl: int, s: map<string, int>, events: seq<Event>, t: map<string, int>) {
    if events == [] then s == t
    else
      var earlier, last := events[..|events| - 1], events[|events| - 1];
      exists mid :: Leads(ttl, s, earlier, mid) && Step(ttl, mid, last, t)
  }

  lemma LeadsOn(ttl: int, s: map<string, int>, events: seq<Event>, mid: map<string, int>, e: Event, t: map<string, int>)
    requires Leads(ttl, s, events, mid) && Step(ttl, mid, e, t)
    ensures Leads(ttl, s, events + [e], t)
  {
    assert (events + [e])[..|events|] == events;
  }

  lemma {:induction false} Remembered(ttl: int, states: seq<map<string, int>>, events: seq<Event>, i: nat, j: nat)
    requires Runs(ttl, states, events) && i < j <= |events| && events[i].Checked? && events[i].isNew
    requires forall k :: i < k < j ==> events[k].at <= events[i].now + ttl
    ensures events[i].eventID in states[j] && states[j][events[i].eventID] == events[i].now + ttl
    decreases j
  {
    assert Step(ttl, states[j - 1], events[j - 1], states[j - 1 + 1]);
    if i < j - 1 {
      Remembered(ttl, states, events, i, j - 1);
    }
  }

  /** The same event passes twice only when more than the retention time lies between, so at most once within it. */
  lemma PassesOncePerRetention(ttl: int, states: seq<map<string, int>>, events: seq<Event>, i: nat, j: nat)
    requires Runs(ttl, states, events) && i < j < |events|
    requires events[i].Checked? && events[i].isNew
    requires events[j].Checked? && events[j].isNew && events[j].eventID == events[i].eventID
    ensures events[j].at > events[i].now + ttl
  {
    assert Step(ttl, states[j], events[j], states[j + 1]);
    if events[j].at <= events[i].now + ttl {
      Remembered(ttl, states, events, i, j);
    }
  }

  /** A round of the cleanup when the events in `todo` are still to be looked at. */
  ghost predicate PassSoFar(ttl: int, before: map<string, int>, now: int, todo: set<string>,
                            seen: map<string, int>, events: seq<Event>) {
    && todo <= seen.Keys <= before.Keys && (forall e :: e in seen ==> seen[e] == before[e])
    && (forall e :: e in before && e !in todo ==> (e in seen <==> now <= before[e]))
    && Leads(ttl, before, events, seen)
    && (forall k :: 0 <= k < |events| ==> events[k].Forgot? && events[k].at == events[k].now == now)
  }

  lemma PassGoesOn(ttl: int, before: map<string, int>, now: int, todo: set<string>,
                   seen: map<string, int>, events: seq<Event>, e: string)
    requires PassSoFar(ttl, before, now, todo, seen, events) && e in todo
    ensures if now > seen[e]
            then PassSoFar(ttl, before, now, todo - {e}, seen - {e}, events + [Forgot(now, e, now)])
            else PassSoFar(ttl, before, now, todo - {e}, seen, events)
  {
    hide Leads;
    if now > seen[e] {
      LeadsOn(ttl, before, events, seen, Forgot(now, e, now), seen - {e});
    }
  }

  lemma PassEnds(ttl: int, before: map<string, int>, now: int, seen: map<string, int>, events: seq<Event>)
    requires PassSoFar(ttl, before, now, {}, seen, events)
    ensures Leads(ttl, before, events, seen)
    ensures forall k :: 0 <= k < |events| ==> events[k].Forgot? && events[k].at == events[k].now == now
    ensures seen == map e | e in before && now <= before[e] :: before[e]
  {
    hide Leads;
  }

  // ---------- the filter itself ----------

  class Filter {
    const ttl: int
    /** When each remembered event may be forgotten. */
    var seen: map<string, int>

    constructor (ttl: int)
      ensures this.ttl == ttl && seen == map[]
    {
      this.ttl := ttl;
      this.seen := map[];
    }

    /** One atomic load-or-store: true for an event that is not remembered, which then is. */
    method CheckAndAdd(eventID: string, now: int) returns (isNew: bool)
      modifies this
      ensures Step(ttl, old(seen), Checked(now, eventID, now, isNew), seen)
      ensures isNew <==> eventID !in old(seen)
      ensures seen == if isNew then old(seen)[eventID := now + ttl] else old(seen)
      ensures eventID in seen
    {
      var loaded := eventID in seen;
      if !loaded {
        seen := seen[eventID := now + ttl];
      }
      return !loaded;
    }

    /** One round of the cleanup worker: forgets exactly the events past their time, one by one. */
    method CleanupPass(now: int) returns (ghost events: seq<Event>)
      modifies this
      ensures Leads(ttl, old(seen), events, seen)
      ensures forall k :: 0 <= k < |events| ==> events[k].Forgot? && events[k].at == events[k].now == now
      ensures seen == map e | e in old(seen) && now <= old(seen)[e] :: old(seen)[e]
    {
      events := [];
      var todo := seen.Keys;
      assert PassSoFar(ttl, seen, now, todo, seen, events);
      hide PassSoFar, Leads;
      while todo != {}
        invariant todo <= seen.Keys && PassSoFar(ttl, old(seen), now, todo, seen, events)
        decreases |todo|
      {
        var key :| key in todo;
        PassGoesOn(ttl, old(seen), now, todo, seen, events, key);
        if now > seen[key] {
          events := events + [Forgot(now, key, now)];
          seen := seen - {key};
        }
        todo := todo - {key};
      }
      PassEnds(ttl, old(seen), now, seen, events);
    }
  }
}
