/** The process-wide Lamport clock: a 64-bit word that goroutines change with atomic add and compare-and-swap. */
module LamportClock {

  const WORD := 0x1_0000_0000_0000_0000

  /** One more, wrapping around like a uint64. */
  function Incremented(word: nat): nat {
    (word + 1) % WORD
  }

  function Larger(current: nat, received: nat): nat {
    if received > current then received else current
  }

  function Next(current: nat, received: nat): nat {
    Incremented(Larger(current, received))
  }

  lemma IncrementedRises(word: nat)
    requires word < WORD
    ensures Incremented(word) < WORD
    ensures Incremented(word) > word <==> word != WORD - 1
    ensures word != WORD - 1 ==> Incremented(word) == word + 1
    ensures word == WORD - 1 ==> Incremented(word) == 0
  {
  }

  // ---------- any number of goroutines, any interleaving of loads and swaps ----------

  datatype Goroutine =
    | Outside
    | Looping(received: nat)
    | Loaded(received: nat, current: nat)

  datatype Event =
    | Ticked(id: nat, value: nat)
    | Called(id: nat, received: nat)
    | Read(id: nat, current: nat)
    | Swapped(id: nat, value: nat)
    | SwapFailed(id: nat)

  datatype State = State(clock: nat, goroutines: map<nat, Goroutine>)

  function At(s: State, id: nat): Goroutine {
    if id in s.goroutines then s.goroutines[id] else Outside
  }

  ghost predicate Step(s: State, e: Event, t: State) {
    match e
    case Ticked(id, value) => At(s, id) == Outside && value == Incremented(s.clock) && t == s.(clock := value)
    case Called(id, received) =>
      At(s, id) == Outside && received < WORD && t == s.(goroutines := s.goroutines[id := Looping(received)])
    case Read(id, current) =>
      At(s, id).Looping? && current == s.clock
      && t == s.(goroutines := s.goroutines[id := Loaded(At(s, id).received, current)])
    case Swapped(id, value) =>
      At(s, id).Loaded? && s.clock == At(s, id).current && value == Next(s.clock, At(s, id).received)
      && t == State(value, s.goroutines[id := Outside])
    case SwapFailed(id) =>
      At(s, id).Loaded? && s.clock != At(s, id).current
      && t == s.(goroutines := s.goroutines[id := Looping(At(s, id).received)])
  }

  /** A clock with one goroutine. */
  function Alone(clock: nat, g: Goroutine): State {
    State(clock, map[0 := g])
  }

  /** Whether the step computes its successor within 64 bits. */
  ghost predicate NoOverflow(s: State, e: Event) {
    match e
    case Ticked(_, _) => s.clock + 1 < WORD
    case Swapped(id, _) => At(s, id).Loaded? && At(s, id).received + 1 < WORD && s.clock + 1 < WORD
    case _ => true
  }

  predicate Completes(e: Event) {
    e.Ticked? || e.Swapped?
  }

  ghost predicate Runs(states: seq<State>, events: seq<Event>) {
    && |states| == |events| + 1
    && states[0].clock < WORD
    && forall i :: 0 <= i < |events| ==>
         Step(states[i], events[i], states[i + 1]) && NoOverflow(states[i], events[i])
  }

  lemma {:induction false} ClockRises(states: seq<State>, events: seq<Event>, i: nat, j: nat)
    requires Runs(states, events) && i <= j <= |events|
    ensures states[i].clock <= states[j].clock < WORD
    ensures states[i].clock < states[j].clock <==> exists k :: i <= k < j && Completes(events[k])
    decreases j
  {
    if i == j {
      if j > 0 {
        ClockRises(states, events, i - 1, j - 1);
        assert Step(states[j - 1], events[j - 1], states[j - 1 + 1]) && NoOverflow(states[j - 1], events[j - 1]);
      }
    } else {
      ClockRises(states, events, i, j - 1);
      assert Step(states[j - 1], events[j - 1], states[j - 1 + 1]) && NoOverflow(states[j - 1], events[j - 1]);
    }
  }

  /** Completed operations return strictly increasing values, so no two goroutines ever get the same one. */
  lemma CompletionsAreOrdered(states: seq<State>, events: seq<Event>, i: nat, j: nat)
    requires Runs(states, events) && i < j < |events| && Completes(events[i]) && Completes(events[j])
    ensures events[i].value < events[j].value
  {
    assert Step(states[i], events[i], states[i + 1]) && Step(states[j], events[j], states[j + 1]);
    assert NoOverflow(states[j], events[j]);
    ClockRises(states, events, i + 1, j);
  }

  /** A goroutine between its reading and its swap: where it read, and that it has done nothing since. */
  lemma {:induction false} WhereRead(states: seq<State>, events: seq<Event>, j: nat, id: nat) returns (r: nat)
    requires Runs(states, events) && j <= |events| && At(states[j], id).Loaded? && states[0].goroutines == map[]
    ensures r < j && events[r] == Read(id, At(states[j], id).current) && states[r].clock == At(states[j], id).current
    ensures At(states[r], id) == Looping(At(states[j], id).received)
    ensures forall k :: r < k < j ==> events[k].id != id
  {
    assert Step(states[j - 1], events[j - 1], states[j - 1 + 1]);
    if events[j - 1].id == id {
      r := j - 1;
    } else {
      assert At(states[j - 1], id) == At(states[j], id);
      r := WhereRead(states, events, j - 1, id);
    }
  }

  /** What a swap returns is one past the clock it received or the clock it read, whichever is larger. */
  lemma SyncPassesReceived(states: seq<State>, events: seq<Event>, j: nat)
    requires Runs(states, events) && j < |events| && events[j].Swapped?
    ensures At(states[j], events[j].id).Loaded?
    ensures var received := At(states[j], events[j].id).received;
            events[j].value == 1 + if received > states[j].clock then received else states[j].clock
    ensures events[j].value == states[j + 1].clock
  {
    assert Step(states[j], events[j], states[j + 1]) && NoOverflow(states[j], events[j]);
    ClockRises(states, events, 0, j);
  }

  /** A failed swap means that another goroutine completed an operation since the reading: someone progressed. */
  lemma FailureMeansProgress(states: seq<State>, events: seq<Event>, j: nat) returns (r: nat, k: nat)
    requires Runs(states, events) && states[0].goroutines == map[] && j < |events| && events[j].SwapFailed?
    ensures r < k < j && events[r].Read? && events[r].id == events[j].id
    ensures Completes(events[k]) && events[k].id != events[j].id
  {
    assert Step(states[j], events[j], states[j + 1]);
    r := WhereRead(states, events, j, events[j].id);
    ClockRises(states, events, r, j);
    k :| r <= k < j && Completes(events[k]);
  }

  // ---------- the clock itself ----------

  /** What the k-th attempt reads, when every earlier one failed. */
  function Seen(first: nat, interference: seq<nat>, k: nat): nat
    requires k <= |interference|
  {
    if k == 0 then first else interference[k - 1]
  }

  class Clock {
    var value: nat

    ghost predicate Valid()
      reads this
    {
      value < WORD
    }

    constructor ()
      ensures Valid() && value == 0
    {
      value := 0;
    }

    /** Increases the clock, unless it is the largest word. */
    method Tick() returns (now: nat)
      requires Valid()
      modifies this
      ensures Valid() && now == value
      ensures Step(Alone(old(value), Outside), Ticked(0, now), Alone(value, Outside))
      ensures now == if old(value) == 0xFFFF_FFFF_FFFF_FFFF then 0 else old(value) + 1
    {
      IncrementedRises(value);
      value := Incremented(value);
      return value;
    }

    method Get() returns (now: nat)
      ensures now == value
    {
      return value;
    }

    /** The atomic compare-and-swap of a goroutine that read `current` and computed its successor. */
    method CompareAndSwap(current: nat, newClock: nat, ghost received: nat) returns (swapped: bool)
      requires Valid() && newClock == Next(current, received) < WORD
      modifies this
      ensures Valid() && (swapped <==> old(value) == current)
      ensures value == if swapped then newClock else old(value)
      ensures Step(Alone(old(value), Loaded(received, current)),
                   if swapped then Swapped(0, newClock) else SwapFailed(0),
                   Alone(value, if swapped then Outside else Looping(received)))
    {
      if value != current {
        return false;
      }
      value := newClock;
      return true;
    }

    /** `interference[k]` is what other goroutines leave in the clock between the k-th reading and the k-th swap. */
    method Sync(received: nat, interference: seq<nat>) returns (newClock: nat, failed: nat)
      requires Valid() && received < WORD
      requires forall k :: 0 <= k < |interference| ==> interference[k] < WORD
      modifies this
      ensures Valid() && newClock == value && failed <= |interference|
      ensures forall k :: 0 <= k < failed ==> interference[k] != Seen(old(value), interference, k)
      ensures var seen := Seen(old(value), interference, failed);
              && (failed < |interference| ==> interference[failed] == seen)
              && newClock == Next(seen, received)
              && var larger := if received > seen then received else seen;
                 newClock == if larger == 0xFFFF_FFFF_FFFF_FFFF then 0 else larger + 1
    {
      hide Incremented;
      failed := 0;
      while true
        invariant Valid() && failed <= |interference|
        invariant value == Seen(old(value), interference, failed)
        invariant forall k :: 0 <= k < failed ==> interference[k] != Seen(old(value), interference, k)
        decreases |interference| - failed
      {
        var current := value;
        var max := current;
        if received > max {
          max := received;
        }
        IncrementedRises(max);
        newClock := Incremented(max);
        if failed < |interference| {
          value := interference[failed];
        }
        var swapped := CompareAndSwap(current, newClock, received);
        if swapped {
          return;
        }
        failed := failed + 1;
      }
    }
  }
}
