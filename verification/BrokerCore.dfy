/** What a broker remembers of each event, and how packets and verdicts of other brokers change it. */
module BrokerCore {
  import opened Missions

  /** The filter's events, the waiting room and the shadow buffer. */
  datatype Core = Core(known: set<string>, waiting: map<string, Mission>, shadow: map<string, Mission>)

  /** A packet of another broker's sector: kept waiting, unless the filter knows the event. */
  function OnPacket(c: Core, m: Mission): Core {
    var e := m.payload.eventID;
    if e in c.known then c else c.(known := c.known + {e}, waiting := c.waiting[e := m])
  }

  /** The owner's verdict on an event. */
  function OnVerdict(c: Core, action: string, eventID: string, m: Mission): Core {
    Core(c.known + {eventID},
         if action == "ACK" || action == "NACK" then c.waiting - {eventID} else c.waiting,
         if action == "ACK" then c.shadow[m.payload.eventID := m] else c.shadow)
  }

  /** A secondary ends the same whether the packet or the verdict comes first. */
  lemma PacketAndVerdictCommute(c: Core, packet: Mission, action: string, m: Mission)
    requires action == "ACK" || action == "NACK"
    ensures var e := packet.payload.eventID;
            && OnVerdict(OnPacket(c, packet), action, e, m) == OnPacket(OnVerdict(c, action, e, m), packet)
            && e !in OnVerdict(OnPacket(c, packet), action, e, m).waiting
  {
    var e := packet.payload.eventID;
    assert c.waiting[e := packet] - {e} == c.waiting - {e};
  }

  /** An action that is neither leaves the packet waiting in one order and never admits it in the other. */
  lemma UnknownActionsDoNot(c: Core, packet: Mission, action: string, m: Mission)
    requires action != "ACK" && action != "NACK"
    requires packet.payload.eventID !in c.known && packet.payload.eventID !in c.waiting
    ensures var e := packet.payload.eventID;
            && e in OnVerdict(OnPacket(c, packet), action, e, m).waiting
            && e !in OnPacket(OnVerdict(c, action, e, m), packet).waiting
  {
  }
}
