/** Missions and the order in which they are served. */
module Missions {
  import opened Text

  datatype SensorData = SensorData(
    eventID: string, sensorID: string, sectorID: int, isRequisition: bool, isCritical: bool,
    internalClock: nat, nationID: string, signature: string)

  datatype Mission = Mission(payload: SensorData, lamportClock: nat)

  /** The event a mission answers: what every table and message is keyed by. */
  function Id(m: Mission): string {
    m.payload.eventID
  }

  function Is(e: string): Mission -> bool {
    (m: Mission) => Id(m) == e
  }

  function Times(events: seq<string>, e: string): nat {
    multiset(events)[e]
  }

  lemma TwiceIsTwo(s: seq<string>, i: nat, j: nat)
    requires i < j < |s| && s[i] == s[j]
    ensures Times(s, s[i]) >= 2
  {
    assert s == s[..j] + [s[j]] + s[j + 1..];
    assert s[..j][i] == s[i] && s[i] in s[..j];
  }

  function Ids(ms: seq<Mission>): (ids: seq<string>)
    ensures |ids| == |ms| && forall i :: 0 <= i < |ms| ==> ids[i] == Id(ms[i])
  {
    seq(|ms|, i requires 0 <= i < |ms| => Id(ms[i]))
  }

  lemma IdsMore(ms: seq<Mission>, m: Mission)
    ensures Ids(ms + [m]) == Ids(ms) + [Id(m)]
  {
  }

  /** Critical missions first, then the older Lamport clock, then the sensor's name. */
  predicate Less(a: Mission, b: Mission) {
    if a.payload.isCritical != b.payload.isCritical then a.payload.isCritical
    else if a.lamportClock != b.lamportClock then a.lamportClock < b.lamportClock
    else Before(a.payload.sensorID, b.payload.sensorID)
  }

  /** `Less` is a strict weak order: asymmetric, and its negation is transitive. */
  lemma LessIsWeakOrder(a: Mission, b: Mission, c: Mission)
    ensures !(Less(a, b) && Less(b, a)) && !Less(a, a)
    ensures !Less(b, a) && !Less(c, b) ==> !Less(c, a)
  {
    BeforeTrichotomy(a.payload.sensorID, b.payload.sensorID);
    BeforeTrichotomy(b.payload.sensorID, c.payload.sensorID);
    BeforeTrichotomy(a.payload.sensorID, c.payload.sensorID);
    if !Less(b, a) && !Less(c, b) && Less(c, a) {
      if a.payload.sensorID == b.payload.sensorID || b.payload.sensorID == c.payload.sensorID {
      } else if Before(a.payload.sensorID, b.payload.sensorID) && Before(b.payload.sensorID, c.payload.sensorID) {
        BeforeTransitive(a.payload.sensorID, b.payload.sensorID, c.payload.sensorID);
      }
    }
  }

  /** Missions tie exactly when they agree on criticality, clock and sensor, whatever else they carry. */
  lemma TiesAgreeOnKeys(a: Mission, b: Mission)
    ensures !Less(a, b) && !Less(b, a)
            <==> a.payload.isCritical == b.payload.isCritical && a.lamportClock == b.lamportClock
                 && a.payload.sensorID == b.payload.sensorID
  {
    BeforeTrichotomy(a.payload.sensorID, b.payload.sensorID);
  }

  /**
   * On the fields: a mission that the other does not precede is critical if the other is, among equals of that kind it
   * has the older clock, and among equals of the clock its sensor's name comes first or is the same.
   */
  lemma NotPrecededOnFields(x: Mission, m: Mission)
    ensures !Less(x, m) <==>
            && (x.payload.isCritical ==> m.payload.isCritical)
            && (x.payload.isCritical == m.payload.isCritical ==>
                  && m.lamportClock <= x.lamportClock
                  && (m.lamportClock == x.lamportClock ==>
                        var a, b := m.payload.sensorID, x.payload.sensorID;
                        a == b || exists k :: 0 <= k <= |a| && k < |b| && a[..k] == b[..k]
                                              && (k == |a| || a[k] < b[k])))
  {
    BeforeTrichotomy(x.payload.sensorID, m.payload.sensorID);
    BeforeIsLexicographic(m.payload.sensorID, x.payload.sensorID);
  }

  // ---------- aging ----------

  /** Whether the anti-starvation pass at this clock promotes the mission. */
  predicate IsForgotten(m: Mission, currentClock: nat, agingLimit: nat) {
    !m.payload.isCritical && currentClock > m.lamportClock && currentClock - m.lamportClock > agingLimit
  }

  function Promoted(m: Mission): Mission {
    m.(payload := m.payload.(isCritical := true))
  }

  function Aged(ms: seq<Mission>, currentClock: nat, agingLimit: nat): (aged: seq<Mission>)
    ensures |aged| == |ms|
    ensures forall i :: 0 <= i < |ms| ==>
              aged[i] == if !ms[i].payload.isCritical && currentClock > ms[i].lamportClock + agingLimit
                         then ms[i].(payload := ms[i].payload.(isCritical := true)) else ms[i]
  {
    seq(|ms|, i requires 0 <= i < |ms| =>
      if IsForgotten(ms[i], currentClock, agingLimit) then Promoted(ms[i]) else ms[i])
  }
}
