/** What the messages of a lease say: every run, in every interleaving, asks for what it was offered, renews what
    it holds with the server it has it from, declines what it found in use, and releases what it held. */
module Contents {
  import opened Net
  import opened Timing
  import opened LeaseParams
  import opened Machine
  import opened Discipline
  import Options
  import Sender
  import Wire

  // ---- the reading of a history ------------------------------------------------------------------

  /** What the last message accepted said. */
  function LastLearnt(h: History): Option<Params> {
    match h
    case Nothing => None
    case After(past, o) => if o.Accepted? then Some(o.params) else LastLearnt(past)
  }

  /** A message sent in a phase, after the history `h`, to `remembered` being the address given at the start. */
  predicate Says(h: History, ph: Phase, m: Sender.Outgoing, remembered: Addr) {
    var learnt := LastLearnt(h);
    match ph
    case Selecting => m.kind == 1
    case Requesting =>
      m.kind == 3 && learnt.Some? && m.requested == Some(learnt.value.ip) && m.serverId == Some(learnt.value.server)
    case Rebooting => m.kind == 3 && m.requested.Some? && m.requested.value == remembered
    case Renewing => m.kind == 3 && learnt.Some? && m.ciaddr == learnt.value.ip && m.dst == learnt.value.server
    case Rebinding => m.kind == 3 && learnt.Some? && m.ciaddr == learnt.value.ip
    case CheckingOffer | CheckingAck =>
      && m.kind == 4 && learnt.Some? && m.serverId == Some(learnt.value.server)
      && m.requested == Some(learnt.value.ip) && h.After? && h.last == Probed(learnt.value.ip, false)
    case _ => false
  }

  predicate AllSay(h: History, remembered: Addr) {
    match h
    case Nothing => true
    case After(past, o) =>
      && AllSay(past, remembered)
      && (o.Sent? ==> PhaseOf(past).Some? && Says(past, PhaseOf(past).value, o.msg, remembered))
  }

  // ---- the invariant -----------------------------------------------------------------------------

  /** Address and server are those of the last message accepted, once there is one in the acquisition. */
  predicate Informed(s: State, remembered: Addr) {
    && AllSay(s.history, remembered) && PhaseOf(s.history) == Some(s.phase)
    && (s.phase == Rebooting ==> s.p.ip == remembered)
    && (s.phase != Selecting && s.phase != Rebooting ==> Knows(s))
  }

  predicate Knows(s: State) {
    var learnt := LastLearnt(s.history);
    learnt.Some? && s.p.ip == learnt.value.ip && s.p.server == learnt.value.server
  }

  lemma Grows(h: History, o: Observation, remembered: Addr)
    ensures var g := After(h, o);
            && LastLearnt(g) == (if o.Accepted? then Some(o.params) else LastLearnt(h))
            && PhaseOf(g) == (if o.Entered? then Some(o.phase) else PhaseOf(h))
            && (AllSay(g, remembered)
                <==> && AllSay(h, remembered)
                     && (o.Sent? ==> PhaseOf(h).Some? && Says(h, PhaseOf(h).value, o.msg, remembered)))
  {
  }

  lemma BeginInformed(s: State, ph: Phase, m: Sender.Outgoing, remembered: Addr)
    requires AllSay(s.history, remembered) && Says(After(s.history, Entered(ph, s.xid, s.now)), ph, m, remembered)
    requires ph == Rebooting ==> s.p.ip == remembered
    requires ph != Selecting && ph != Rebooting ==> Knows(s)
    ensures Informed(Begin(s, ph, m), remembered)
  {
    var o := Entered(ph, s.xid, s.now);
    Grows(s.history, o, remembered);
    Grows(After(s.history, o), Sent(m, s.now), remembered);
  }

  lemma ResendInformed(s: State, m: Sender.Outgoing, remembered: Addr)
    requires Informed(s, remembered) && Says(s.history, s.phase, m, remembered)
    ensures Informed(RearmBackoff(Send(s, m)), remembered)
  {
    Grows(s.history, Sent(m, s.now), remembered);
  }

  lemma CommitInformed(s: State, renewal: bool, remembered: Addr)
    requires AllSay(s.history, remembered) && Knows(s)
    ensures Informed(Commit(s, renewal), remembered)
  {
    var h1 := After(s.history, Applied(s.p, renewal));
    var h2 := After(h1, Entered(Bound, s.xid, s.now));
    Grows(s.history, h1.last, remembered);
    Grows(h1, h2.last, remembered);
    Grows(h2, Notified(OnBound(renewal)), remembered);
  }

  lemma ConflictInformed(s: State, remembered: Addr)
    requires Informed(s, remembered) && (s.phase == CheckingOffer || s.phase == CheckingAck)
    requires s.history.last == Probed(s.p.ip, false)
    ensures Informed(HandleConflict(s), remembered)
  {
    var h1 := After(s.history, Sent(DeclineMessage(s), s.now));
    Grows(s.history, h1.last, remembered);
    Grows(h1, Entered(Declining, s.xid, s.now), remembered);
    Grows(h1, Entered(Failed, s.xid, s.now), remembered);
    Grows(After(h1, Entered(Failed, s.xid, s.now)), Notified(OnError), remembered);
  }

  lemma ActInformed(s: State, conflict: bool, remembered: Addr)
    requires Informed(s, remembered) && (s.phase == CheckingOffer || s.phase == CheckingAck)
    requires s.history.last == Probed(s.p.ip, !conflict)
    ensures Informed(ActOnProbe(s, conflict), remembered)
  {
    if conflict {
      ConflictInformed(s, remembered);
    } else if s.phase == CheckingOffer {
      Grows(s.history, Entered(Requesting, s.xid, s.now), remembered);
      BeginInformed(s, Requesting, SelectingRequest(s), remembered);
    } else {
      CommitInformed(s, false, remembered);
    }
  }

  lemma ProbeInformed(s: State, conflict: bool, took: nat, remembered: Addr)
    requires Informed(s, remembered) && (s.phase == CheckingOffer || s.phase == CheckingAck)
    ensures Informed(RunConflictProbe(s, conflict, took), remembered)
  {
    Grows(s.history, Probed(s.p.ip, !conflict), remembered);
    ActInformed(Probe(s, conflict, took), conflict, remembered);
  }

  lemma DiscoveryInformed(s: State, xid: u32, remembered: Addr)
    requires AllSay(s.history, remembered)
    ensures Informed(StartDiscovery(s, xid), remembered)
  {
    var s1 := s.(xid := xid, p := Forget(s.p));
    BeginInformed(s1, Selecting, DiscoverMessage(s1), remembered);
  }

  lemma HeldInformed(s: State, remembered: Addr)
    requires Informed(s, remembered) && Knows(s)
    ensures Informed(Begin(s, Renewing, RenewRequest(s)), remembered)
    ensures Informed(Begin(s, Rebinding, RebindRequest(s)), remembered)
  {
    Grows(s.history, Entered(Renewing, s.xid, s.now), remembered);
    Grows(s.history, Entered(Rebinding, s.xid, s.now), remembered);
    BeginInformed(s, Renewing, RenewRequest(s), remembered);
    BeginInformed(s, Rebinding, RebindRequest(s), remembered);
  }

  lemma RetransmitInformed(s: State, conflict: bool, took: nat, xid: u32, remembered: Addr)
    requires Informed(s, remembered)
    ensures Informed(RetransmitCallback(s, conflict, took, xid), remembered)
  {
    var s1 := s.(count := s.count + 1);
    match s.phase
    case Selecting => ResendInformed(s, DiscoverMessage(s), remembered);
    case Requesting =>
      ResendInformed(s1, SelectingRequest(s1), remembered);
      DiscoveryInformed(s1, xid, remembered);
    case Rebooting =>
      ResendInformed(s1, RebootRequest(s1), remembered);
      DiscoveryInformed(s1, xid, remembered);
    case Renewing => ResendInformed(s, RenewRequest(s), remembered);
    case Rebinding => ResendInformed(s, RebindRequest(s), remembered);
    case CheckingOffer => ProbeInformed(s, conflict, took, remembered);
    case CheckingAck => ProbeInformed(s, conflict, took, remembered);
    case Declining => DiscoveryInformed(s, xid, remembered);
    case _ =>
  }

  lemma AcceptInformed(s: State, ph: Phase, remembered: Addr)
    requires AllSay(s.history, remembered) && (ph == CheckingOffer || ph == CheckingAck)
    ensures Informed(ArmRetransmit(Enter(Note(s, Accepted(s.p)), ph), PROBE_HANDOFF_MS), remembered)
  {
    Grows(s.history, Accepted(s.p), remembered);
    Grows(After(s.history, Accepted(s.p)), Entered(ph, s.xid, s.now), remembered);
  }

  lemma DispatchInformed(s: State, kind: byte, learnt: Params, xid: u32, remembered: Addr)
    requires Informed(s, remembered)
    ensures Informed(Dispatch(s, kind, learnt, xid), remembered)
  {
    var s1 := s.(p := learnt);
    if kind == Sender.OFFER && s.phase == Selecting {
      AcceptInformed(s1, CheckingOffer, remembered);
    } else if kind == Sender.ACK && (s.phase == Requesting || s.phase == Rebooting) {
      AcceptInformed(s1, CheckingAck, remembered);
    } else if kind == Sender.NAK && (s.phase == Requesting || s.phase == Rebooting) {
      DiscoveryInformed(s, xid, remembered);
    } else if kind == Sender.ACK && (s.phase == Renewing || s.phase == Rebinding) {
      Grows(s.history, Accepted(learnt), remembered);
      CommitInformed(Note(s1, Accepted(learnt)), true, remembered);
    }
  }

  lemma LeaseInformed(s: State, xid: u32, remembered: Addr)
    requires Informed(s, remembered)
    ensures Informed(LeaseCallback(s, xid), remembered)
  {
    if s.phase == Bound || s.phase == Renewing {
      HeldInformed(s.(xid := xid), remembered);
    }
  }

  lemma LossInformed(s: State, remembered: Addr)
    requires Informed(s, remembered) && s.entering > 0
    ensures Informed(Step(s, LoseInterfaceStep), remembered)
  {
    Grows(s.history, Unapplied, remembered);
    Grows(Unapply(s).history, Notified(OnLost), remembered);
  }

  lemma StepInformed(s: State, e: Event, remembered: Addr)
    requires Informed(s, remembered) && Enabled(s, e)
    ensures Informed(Step(s, e), remembered)
  {
    match e
    case Tick(_) =>
    case RetransmitFire(due, conflict, took, xid) =>
      RetransmitInformed(if due then s.(retransmit := Idle) else s, conflict, took, xid, remembered);
    case LeaseFire(due, xid) => LeaseInformed(if due then s.(lease := Idle) else s, xid, remembered);
    case Datagram(payload, xid) =>
      match ReplyOf(payload) {
        case None =>
        case Some(r) => DispatchInformed(s, r.kind, Populate(s.p, r.yiaddr, r.options), xid, remembered);
      }
    case ForceRenew(xid) =>
      if s.phase == Bound {
        HeldInformed(s.(xid := xid), remembered);
      }
    case LoseInterfaceStep => LossInformed(s, remembered);
    case RestartStep(xid) => DiscoveryInformed(s, xid, remembered);
  }

  lemma StartInformed(iface: Iface, now: nat, requested: Addr, xid: u32)
    ensures Informed(Start(iface, now, requested, xid), requested)
    ensures Start(iface, now, requested, xid).phase == if requested.V4? then Rebooting else Selecting
  {
    var s := Created(iface, now);
    if requested.V4? {
      var s1 := s.(p := s.p.(ip := requested), xid := xid);
      BeginInformed(s1, Rebooting, RebootRequest(s1), requested);
    } else {
      DiscoveryInformed(s, xid, requested);
    }
  }

  /** The address that a start was given to remember. */
  ghost predicate StartedWith(r: Run, remembered: Addr) {
    Legal(r) && exists iface, now, xid :: Root(r) == Start(iface, now, remembered, xid)
  }

  /** In every run, whatever the interleaving, each request after an offer names the address and the server of the
      message last accepted, each request after a reboot the remembered address, each renewal and rebinding the
      address held, the renewal going to the server that gave it, and each DECLINE the address that has just been
      probed and found in use, with the server that offered it. */
  lemma {:induction false} MessagesSayWhatTheyShould(r: Run, remembered: Addr)
    requires StartedWith(r, remembered)
    ensures AllSay(End(r).history, remembered) && Informed(End(r), remembered)
  {
    match r
    case From(s) =>
      var iface, now, xid :| s == Start(iface, now, remembered, xid);
      StartInformed(iface, now, remembered, xid);
    case Then(b, e) =>
      MessagesSayWhatTheyShould(b, remembered);
      StepInformed(End(b), e, remembered);
  }

  // ---- transaction identifiers are drawn anew ----------------------------------------------------

  function PhasesEntered(h: History): nat {
    match h
    case Nothing => 0
    case After(past, o) => PhasesEntered(past) + if o.Entered? then 1 else 0
  }

  /** The random number that an event brings with it. */
  function Drawn(e: Event): Option<u32> {
    match e
    case Tick(_) => None
    case Datagram(_, xid) => Some(xid)
    case RetransmitFire(_, _, _, xid) => Some(xid)
    case LeaseFire(_, xid) => Some(xid)
    case ForceRenew(xid) => Some(xid)
    case LoseInterfaceStep => None
    case RestartStep(xid) => Some(xid)
  }

  lemma BeginEnters(s: State, ph: Phase, m: Sender.Outgoing)
    ensures PhasesEntered(Begin(s, ph, m).history) == PhasesEntered(s.history) + 1
  {
    var h1 := After(s.history, Entered(ph, s.xid, s.now));
    assert PhasesEntered(After(h1, Sent(m, s.now))) == PhasesEntered(h1);
  }

  lemma RetransmitDraws(s: State, conflict: bool, took: nat, xid: u32)
    ensures var t := RetransmitCallback(s, conflict, took, xid);
            Fresh(t.phase) ==> t.xid == xid || PhasesEntered(t.history) == PhasesEntered(s.history)
  {
    if s.phase == CheckingOffer || s.phase == CheckingAck {
      assert !Fresh(RunConflictProbe(s, conflict, took).phase);
    }
  }

  lemma DispatchDraws(s: State, kind: byte, learnt: Params, xid: u32)
    ensures var t := Dispatch(s, kind, learnt, xid);
            Fresh(t.phase) ==> t.xid == xid || PhasesEntered(t.history) == PhasesEntered(s.history)
  {
  }

  /** A discovery, reboot, renewal or rebinding begins with the random number drawn for it. */
  lemma FreshPhaseDrawsXid(s: State, e: Event)
    requires Enabled(s, e)
    ensures PhasesEntered(Step(s, e).history) > PhasesEntered(s.history) && Fresh(Step(s, e).phase) ==>
              Drawn(e) == Some(Step(s, e).xid)
  {
    match e
    case RetransmitFire(due, conflict, took, xid) =>
      RetransmitDraws(if due then s.(retransmit := Idle) else s, conflict, took, xid);
    case Datagram(payload, xid) =>
      match ReplyOf(payload) {
        case None =>
        case Some(r) => DispatchDraws(s, r.kind, Populate(s.p, r.yiaddr, r.options), xid);
      }
    case LoseInterfaceStep =>
      assert PhasesEntered(Unapply(s).history) == PhasesEntered(s.history);
    case _ =>
  }

  // ---- release and stop --------------------------------------------------------------------------

  /** A lease with an address and a server is released by exactly one message: a DHCPRELEASE from the address to
      the server, naming the server and asking for nothing, sent along the route and before the interface is
      cleared. Without either, as always when stopping, nothing is sent. */
  lemma ReleaseTellsServer(s: State)
    ensures var known := s.p.ip.V4? && s.p.server.V4?;
            var m := Sender.Outgoing(7, s.xid, s.p.ip, None, Some(s.p.server), s.p.server, false);
            var h := if known then After(s.history, Sent(m, s.now)) else s.history;
            Release(s).history == if s.configured then After(h, Unapplied) else h
    ensures Stop(s).history == if s.configured then After(s.history, Unapplied) else s.history
  {
  }

  /** What the server reads of it. */
  lemma ReleaseOnTheWire(s: State, mac: Sender.Mac, host: Option<seq<byte>>)
    requires s.p.ip.V4? && s.p.server.V4?
    ensures Release(s).history.After?
    ensures var h := if s.configured then Release(s).history.past else Release(s).history;
            && h.After? && h.last.Sent? && h.last.msg.dst == s.p.server
            && var b := Sender.Datagram(h.last.msg, mac, host);
               && |b| >= Wire.HEADER_LEN && Wire.Decode(b).Some?
               && Wire.Decode(b).value.ciaddr == s.p.ip && Wire.Decode(b).value.chaddr[..6] == mac
               && Options.Lookup(b[Wire.HEADER_LEN..], 53) == Options.Found([7])
               && Options.Lookup(b[Wire.HEADER_LEN..], 54) == Options.Found(s.p.server.bytes)
               && Options.Lookup(b[Wire.HEADER_LEN..], 50) == Options.Missing
  {
    var m := ReleaseMessage(s);
    Sender.DatagramReads(m, mac, host, Options.MSG_TYPE);
    Sender.DatagramReads(m, mac, host, Options.SERVER_ID);
    Sender.DatagramReads(m, mac, host, Options.REQUESTED_IP);
  }
}
