/** What every run keeps, whatever the interleaving: the transaction identifier, the shape and spacing of
    the messages of a phase, cleared fields while searching, and a timer that drives the phase on. */
module Discipline {
  import opened Net
  import opened Timing
  import opened LeaseParams
  import opened Machine
  import Options
  import Sender
  import Wire

  // ---- reading a history -------------------------------------------------------------------------

  function PhaseOf(h: History): Option<Phase> {
    match h
    case Nothing => None
    case After(past, o) => if o.Entered? then Some(o.phase) else PhaseOf(past)
  }

  /** The transaction identifier the current phase was entered with. */
  function PhaseXid(h: History): Option<u32> {
    match h
    case Nothing => None
    case After(past, o) => if o.Entered? then Some(o.xid) else PhaseXid(past)
  }

  /** Messages sent since the current phase was entered. */
  function Sends(h: History): nat {
    match h
    case Nothing => 0
    case After(past, o) => if o.Entered? then 0 else Sends(past) + if o.Sent? then 1 else 0
  }

  function LastSent(h: History): nat {
    match h
    case Nothing => 0
    case After(past, o) => if o.Sent? then o.when else LastSent(past)
  }

  /** The phases that draw a transaction identifier of their own. */
  predicate Fresh(ph: Phase) {
    ph == Selecting || ph == Rebooting || ph == Renewing || ph == Rebinding
  }

  /** Every message carries the identifier of the phase it was sent in, and a phase that draws none keeps
      that of the phase before it. */
  predicate OneXid(h: History) {
    match h
    case Nothing => true
    case After(past, o) =>
      && OneXid(past)
      && (o.Sent? ==> PhaseXid(past) == Some(o.msg.xid))
      && (o.Entered? && !Fresh(o.phase) ==> PhaseXid(past) == Some(o.xid))
  }

  predicate OnLink(m: Sender.Outgoing) {
    m.dst == V4([255, 255, 255, 255]) && m.viaIface
  }

  predicate HasV4(a: Option<LeaseAddr>) {
    a.Some? && a.value.V4?
  }

  /** The table of section 4.3.6 of RFC 2131, with DISCOVER and DECLINE added. */
  predicate Shape(ph: Phase, m: Sender.Outgoing) {
    match ph
    case Selecting =>
      m.kind == Sender.DISCOVER && OnLink(m) && m.ciaddr == Unset && m.requested == None && m.serverId == None
    case Requesting =>
      m.kind == Sender.REQUEST && OnLink(m) && m.ciaddr == Unset && HasV4(m.requested) && m.serverId.Some?
    case Rebooting =>
      m.kind == Sender.REQUEST && OnLink(m) && m.ciaddr == Unset && HasV4(m.requested) && m.serverId == None
    case Renewing =>
      m.kind == Sender.REQUEST && !m.viaIface && m.ciaddr.V4? && m.requested == None && m.serverId == None
    case Rebinding =>
      m.kind == Sender.REQUEST && OnLink(m) && m.ciaddr.V4? && m.requested == None && m.serverId == None
    case CheckingOffer | CheckingAck =>
      m.kind == Sender.DECLINE && OnLink(m) && m.ciaddr == Unset && HasV4(m.requested) && m.serverId.Some?
    case _ => false
  }

  predicate Shaped(h: History) {
    match h
    case Nothing => true
    case After(past, o) => Shaped(past) && (o.Sent? ==> PhaseOf(past).Some? && Shape(PhaseOf(past).value, o.msg))
  }

  // ---- the invariant -----------------------------------------------------------------------------

  /** The phases that resend with backoff. */
  predicate Resends(ph: Phase) {
    ph == Selecting || ph == Requesting || ph == Rebooting || ph == Renewing || ph == Rebinding
  }

  predicate AllV4(list: seq<LeaseAddr>) {
    forall i | 0 <= i < |list| :: list[i].V4?
  }

  /** The interval is the backoff of the latest resend of the phase. */
  predicate Backed(s: State) {
    Resends(s.phase) ==> Sends(s.history) >= 1 && s.interval == Backoff(Sends(s.history) - 1)
  }

  /** The retransmit timer runs from the last message, for that interval. */
  predicate Spaced(s: State) {
    Resends(s.phase) ==> s.retransmit == Armed(LastSent(s.history) + s.interval)
  }

  /** A held lease is driven on by its lease timer, or by a thread already handling its loss. */
  predicate LeaseDriven(s: State) {
    Held(s.phase) ==> s.lease.Armed? || (s.phase == Rebinding && s.entering + s.inside > 0)
  }

  predicate RetransmitDriven(s: State) {
    s.phase != Bound && s.phase != Failed ==> s.retransmit.Armed?
  }

  /** The history knows where the lease is, and its messages are in order. */
  predicate Recorded(s: State) {
    && PhaseOf(s.history) == Some(s.phase) && PhaseXid(s.history) == Some(s.xid)
    && OneXid(s.history) && Shaped(s.history)
  }

  /** No address and no server is left. */
  predicate Forgotten(p: Params) {
    p.ip == Unset && p.mask == Unset && p.gateway == Unset && p.server == Unset && p.dns == [] && p.ntp == []
  }

  predicate Fielded(s: State) {
    && s.phase != Init && s.phase != InitReboot
    && (s.phase == Selecting ==> Forgotten(s.p))
    && (s.phase != Selecting ==> s.p.ip.V4?)
    && AllV4(s.p.dns) && AllV4(s.p.ntp)
  }

  predicate Counted(s: State) {
    s.phase == Requesting || s.phase == Rebooting ==> s.count == Sends(s.history) - 1 <= MAX_REQUEST_RETRANSMITS
  }

  predicate Disciplined(s: State) {
    Recorded(s) && Fielded(s) && Counted(s) && Backed(s) && Spaced(s) && LeaseDriven(s) && RetransmitDriven(s)
  }

  // ---- steps -------------------------------------------------------------------------------------

  /** Observations that neither enter a phase nor send a message change nothing here. */
  lemma Noted(h: History, o: Observation)
    ensures !o.Entered? && !o.Sent? ==>
              var g := After(h, o);
              && PhaseOf(g) == PhaseOf(h) && PhaseXid(g) == PhaseXid(h) && Sends(g) == Sends(h)
              && LastSent(g) == LastSent(h) && OneXid(g) == OneXid(h) && Shaped(g) == Shaped(h)
  {
  }

  lemma BeginDisciplined(s: State, ph: Phase, m: Sender.Outgoing)
    requires OneXid(s.history) && Shaped(s.history)
    requires Resends(ph) && (ph != Selecting ==> s.p.ip.V4?) && (ph == Selecting ==> Forgotten(s.p))
    requires Fresh(ph) || PhaseXid(s.history) == Some(s.xid)
    requires m.xid == s.xid && Shape(ph, m)
    requires AllV4(s.p.dns) && AllV4(s.p.ntp)
    requires Held(ph) ==> s.lease.Armed?
    ensures Disciplined(Begin(s, ph, m))
  {
    assert Backoff(0) == RETRANSMIT_INITIAL_MS;
  }

  lemma ResendDisciplined(s: State, m: Sender.Outgoing)
    requires Recorded(s) && Fielded(s) && Backed(s) && LeaseDriven(s)
    requires Resends(s.phase) && m.xid == s.xid && Shape(s.phase, m)
    requires s.phase == Requesting || s.phase == Rebooting ==> s.count == Sends(s.history) <= MAX_REQUEST_RETRANSMITS
    ensures Disciplined(RearmBackoff(Send(s, m)))
  {
    BackoffDoubles(Sends(s.history) - 1);
    var g := After(s.history, Sent(m, s.now));
    assert PhaseOf(g) == Some(s.phase) && PhaseXid(g) == Some(s.xid) && OneXid(g) && Shaped(g);
    assert Sends(g) == Sends(s.history) + 1 && LastSent(g) == s.now;
  }

  lemma ConflictDisciplined(s: State)
    requires Recorded(s) && Fielded(s) && (s.phase == CheckingOffer || s.phase == CheckingAck)
    ensures Disciplined(HandleConflict(s))
  {
    var h1 := After(s.history, Sent(DeclineMessage(s), s.now));
    assert OneXid(h1) && Shaped(h1) && PhaseXid(h1) == Some(s.xid);
  }

  lemma CommitDisciplined(s: State, renewal: bool)
    requires OneXid(s.history) && Shaped(s.history) && PhaseXid(s.history) == Some(s.xid)
    requires s.p.ip.V4? && AllV4(s.p.dns) && AllV4(s.p.ntp)
    ensures Disciplined(Commit(s, renewal))
  {
    var h1 := After(s.history, Applied(s.p, renewal));
    Noted(s.history, Applied(s.p, renewal));
    var h2 := After(h1, Entered(Bound, s.xid, s.now));
    assert OneXid(h2) && Shaped(h2) && PhaseOf(h2) == Some(Bound) && PhaseXid(h2) == Some(s.xid);
    Noted(h2, Notified(OnBound(renewal)));
  }

  lemma AcceptDisciplined(s: State, ph: Phase)
    requires OneXid(s.history) && Shaped(s.history) && PhaseXid(s.history) == Some(s.xid)
    requires ph == CheckingOffer || ph == CheckingAck
    requires s.p.ip.V4? && AllV4(s.p.dns) && AllV4(s.p.ntp)
    ensures Disciplined(ArmRetransmit(Enter(Note(s, Accepted(s.p)), ph), PROBE_HANDOFF_MS))
  {
    Noted(s.history, Accepted(s.p));
  }

  lemma NotedProbe(s: State, conflict: bool, took: nat)
    requires Recorded(s) && Fielded(s) && (s.phase == CheckingOffer || s.phase == CheckingAck)
    ensures Recorded(Probe(s, conflict, took)) && Fielded(Probe(s, conflict, took))
  {
    Noted(s.history, Probed(s.p.ip, !conflict));
  }

  lemma ActDisciplined(s: State, conflict: bool)
    requires Recorded(s) && Fielded(s) && (s.phase == CheckingOffer || s.phase == CheckingAck)
    ensures Disciplined(ActOnProbe(s, conflict))
  {
    if conflict {
      ConflictDisciplined(s);
    } else if s.phase == CheckingOffer {
      BeginDisciplined(s, Requesting, SelectingRequest(s));
    } else {
      CommitDisciplined(s, false);
    }
  }

  lemma ProbeDisciplined(s: State, conflict: bool, took: nat)
    requires Recorded(s) && Fielded(s) && (s.phase == CheckingOffer || s.phase == CheckingAck)
    ensures Disciplined(RunConflictProbe(s, conflict, took))
  {
    NotedProbe(s, conflict, took);
    ActDisciplined(Probe(s, conflict, took), conflict);
  }

  lemma DiscoveryDisciplined(s: State, xid: u32)
    requires OneXid(s.history) && Shaped(s.history)
    ensures Disciplined(StartDiscovery(s, xid))
  {
    var s1 := s.(xid := xid, p := Forget(s.p));
    BeginDisciplined(s1, Selecting, DiscoverMessage(s1));
  }

  lemma RequestTimeoutDisciplined(s: State, conflict: bool, took: nat, xid: u32)
    requires Recorded(s) && Fielded(s) && Counted(s) && Backed(s)
    requires s.phase == Requesting || s.phase == Rebooting
    ensures Disciplined(RetransmitCallback(s, conflict, took, xid))
  {
    var s1 := s.(count := s.count + 1);
    if s1.count > MAX_REQUEST_RETRANSMITS {
      DiscoveryDisciplined(s1, xid);
    } else {
      var m := if s.phase == Requesting then SelectingRequest(s1) else RebootRequest(s1);
      ResendDisciplined(s1, m);
      assert RetransmitCallback(s, conflict, took, xid) == RearmBackoff(Send(s1, m));
    }
  }

  lemma RetransmitDisciplined(s: State, conflict: bool, took: nat, xid: u32)
    requires Recorded(s) && Fielded(s) && Counted(s) && Backed(s) && LeaseDriven(s)
    requires s.phase != Bound && s.phase != Failed
    ensures Disciplined(RetransmitCallback(s, conflict, took, xid))
  {
    match s.phase
    case Selecting => ResendDisciplined(s, DiscoverMessage(s));
    case Requesting => RequestTimeoutDisciplined(s, conflict, took, xid);
    case Rebooting => RequestTimeoutDisciplined(s, conflict, took, xid);
    case Renewing => ResendDisciplined(s, RenewRequest(s));
    case Rebinding => ResendDisciplined(s, RebindRequest(s));
    case CheckingOffer => ProbeDisciplined(s, conflict, took);
    case CheckingAck => ProbeDisciplined(s, conflict, took);
    case Declining => DiscoveryDisciplined(s, xid);
    case _ =>
  }

  /** A phase of a held lease, begun together with its lease timer. */
  lemma HeldPhaseDisciplined(s: State, ph: Phase, m: Sender.Outgoing, ms: nat)
    requires OneXid(s.history) && Shaped(s.history)
    requires (ph == Renewing || ph == Rebinding) && s.p.ip.V4? && AllV4(s.p.dns) && AllV4(s.p.ntp)
    requires m.xid == s.xid && Shape(ph, m)
    ensures Disciplined(ArmLease(Begin(s, ph, m), ms))
  {
    assert Backoff(0) == RETRANSMIT_INITIAL_MS;
  }

  lemma LeaseDisciplined(s: State, xid: u32)
    requires Recorded(s) && Fielded(s) && Backed(s) && Spaced(s) && Held(s.phase)
    ensures Disciplined(LeaseCallback(s, xid))
  {
    var s1 := s.(xid := xid);
    match s.phase
    case Bound => HeldPhaseDisciplined(s1, Renewing, RenewRequest(s1), T2Period(s.p.t1, s.p.t2));
    case Renewing => HeldPhaseDisciplined(s1, Rebinding, RebindRequest(s1), ExpiryPeriod(s.p.t2, s.p.leaseTime));
    case _ =>
  }

  lemma RenewalDisciplined(s: State, learnt: Params)
    requires Disciplined(s) && learnt.ip.V4? && AllV4(learnt.dns) && AllV4(learnt.ntp)
    ensures Disciplined(Commit(Note(s.(p := learnt), Accepted(learnt)), true))
  {
    Noted(s.history, Accepted(learnt));
    CommitDisciplined(Note(s.(p := learnt), Accepted(learnt)), true);
  }

  lemma DispatchDisciplined(s: State, kind: byte, learnt: Params, xid: u32)
    requires Disciplined(s) && learnt.ip.V4? && AllV4(learnt.dns) && AllV4(learnt.ntp)
    ensures Disciplined(Dispatch(s, kind, learnt, xid))
  {
    var s1 := s.(p := learnt);
    if kind == Sender.OFFER && s.phase == Selecting {
      AcceptDisciplined(s1, CheckingOffer);
    } else if kind == Sender.ACK && (s.phase == Requesting || s.phase == Rebooting) {
      AcceptDisciplined(s1, CheckingAck);
    } else if kind == Sender.NAK && (s.phase == Requesting || s.phase == Rebooting) {
      DiscoveryDisciplined(s, xid);
    } else if kind == Sender.ACK && (s.phase == Renewing || s.phase == Rebinding) {
      RenewalDisciplined(s, learnt);
    }
  }

  lemma LossDisciplined(s: State)
    requires Disciplined(s) && s.entering > 0
    ensures Disciplined(Step(s, LoseInterfaceStep))
  {
    Noted(s.history, Unapplied);
    var s1 := Unapply(s);
    Noted(s1.history, Notified(OnLost));
  }

  lemma RetransmitFireDisciplined(s: State, e: Event)
    requires Disciplined(s) && Enabled(s, e) && e.RetransmitFire?
    ensures Disciplined(Step(s, e))
  {
    if s.phase != Bound && s.phase != Failed {
      RetransmitDisciplined(if e.due then s.(retransmit := Idle) else s, e.conflict, e.took, e.xid);
    }
  }

  lemma LeaseFireDisciplined(s: State, e: Event)
    requires Disciplined(s) && Enabled(s, e) && e.LeaseFire?
    ensures Disciplined(Step(s, e))
  {
    if Held(s.phase) {
      LeaseDisciplined(if e.due then s.(lease := Idle) else s, e.xid);
    }
  }

  lemma DatagramDisciplined(s: State, e: Event)
    requires Disciplined(s) && Enabled(s, e) && e.Datagram?
    ensures Disciplined(Step(s, e))
  {
    match ReplyOf(e.payload)
    case None =>
    case Some(r) => DispatchDisciplined(s, r.kind, Populate(s.p, r.yiaddr, r.options), e.xid);
  }

  lemma RenewDisciplined(s: State, xid: u32)
    requires Disciplined(s)
    ensures Disciplined(Renew(s, xid))
  {
    if s.phase == Bound {
      var s1 := s.(xid := xid);
      BeginDisciplined(s1, Renewing, RenewRequest(s1));
    }
  }

  lemma RestartDisciplined(s: State, xid: u32)
    requires Disciplined(s) && s.inside > 0
    ensures Disciplined(Step(s, RestartStep(xid)))
  {
    DiscoveryDisciplined(s, xid);
  }

  lemma StepDisciplined(s: State, e: Event)
    requires Disciplined(s) && Enabled(s, e)
    ensures Disciplined(Step(s, e))
  {
    match e
    case Tick(_) =>
    case RetransmitFire(_, _, _, _) => RetransmitFireDisciplined(s, e);
    case LeaseFire(_, _) => LeaseFireDisciplined(s, e);
    case Datagram(_, _) => DatagramDisciplined(s, e);
    case ForceRenew(xid) => RenewDisciplined(s, xid);
    case LoseInterfaceStep => LossDisciplined(s);
    case RestartStep(xid) => RestartDisciplined(s, xid);
  }

  lemma StartDisciplined(iface: Iface, now: nat, requested: Addr, xid: u32)
    ensures Disciplined(Start(iface, now, requested, xid))
  {
    var s := Created(iface, now);
    if requested.V4? {
      var s1 := s.(p := s.p.(ip := requested), xid := xid);
      BeginDisciplined(s1, Rebooting, RebootRequest(s1));
    } else {
      DiscoveryDisciplined(s, xid);
    }
  }

  lemma {:induction false} RunDisciplined(r: Run)
    requires Started(r)
    ensures Disciplined(End(r))
  {
    match r
    case From(s) =>
      var iface, now, requested, xid :| s == Start(iface, now, requested, xid);
      StartDisciplined(iface, now, requested, xid);
    case Then(b, e) =>
      RunDisciplined(b);
      StepDisciplined(End(b), e);
  }

  // ---- what follows ------------------------------------------------------------------------------

  /** No started lease is ever stuck: outside FAILED a timer that moves it on is armed, whatever renewals,
      refusals, conflicts and stray callbacks went before, and in every interleaving. */
  lemma NoStuckState(r: Run)
    requires Started(r)
    ensures var s := End(r);
            && (Held(s.phase) ==> s.lease.Armed? || (s.phase == Rebinding && s.entering + s.inside > 0))
            && (!Held(s.phase) && s.phase != Failed ==> s.retransmit.Armed?)
            && (s.phase == Renewing || s.phase == Rebinding ==> s.retransmit.Armed?)
  {
    RunDisciplined(r);
  }

  /** The transaction identifier changes only where a discovery, reboot, renewal or rebinding begins, with
      the first message of that phase. */
  lemma XidChangesWithPhase(s: State, e: Event)
    requires Enabled(s, e) && Step(s, e).xid != s.xid
    ensures Fresh(Step(s, e).phase) && Sends(Step(s, e).history) == 1
    ensures e.Datagram? || e.RetransmitFire? || e.LeaseFire? || e.ForceRenew? || e.RestartStep?
  {
    match e
    case Datagram(payload, xid) =>
      match ReplyOf(payload) {
        case None =>
        case Some(r) => DispatchXid(s, r.kind, Populate(s.p, r.yiaddr, r.options), xid);
      }
    case RetransmitFire(due, conflict, took, xid) =>
      RetransmitXid(if due then s.(retransmit := Idle) else s, conflict, took, xid);
    case RestartStep(xid) => BeginSendsOnce(s.(xid := xid, p := Forget(s.p)), Selecting);
    case LeaseFire(_, xid) =>
      BeginSendsOnce(s.(xid := xid), Renewing);
      BeginSendsOnce(s.(xid := xid), Rebinding);
    case ForceRenew(xid) => BeginSendsOnce(s.(xid := xid), Renewing);
    case _ =>
  }

  lemma BeginSendsOnce(s: State, ph: Phase)
    ensures forall m :: Sends(Begin(s, ph, m).history) == 1
  {
  }

  lemma DispatchXid(s: State, kind: byte, learnt: Params, xid: u32)
    ensures var t := Dispatch(s, kind, learnt, xid);
            t.xid != s.xid ==> t.phase == Selecting && Sends(t.history) == 1
  {
  }

  lemma RetransmitXid(s: State, conflict: bool, took: nat, xid: u32)
    ensures var t := RetransmitCallback(s, conflict, took, xid);
            t.xid != s.xid ==> t.phase == Selecting && Sends(t.history) == 1
  {
    if s.phase == CheckingOffer || s.phase == CheckingAck {
      assert RunConflictProbe(s, conflict, took).xid == s.xid;
    }
  }

  /** What a server reads of a message: the header's client address and the two address options follow the
      table of section 4.3.6 of RFC 2131, byte for byte. */
  lemma ShapeOnTheWire(ph: Phase, m: Sender.Outgoing, mac: Sender.Mac, host: Option<seq<byte>>)
    requires Shape(ph, m)
    ensures var b := Sender.Datagram(m, mac, host);
            && |b| >= Wire.HEADER_LEN
            && Wire.Decode(b).Some? && Wire.Decode(b).value.xid == m.xid
            && (Wire.Decode(b).value.ciaddr == if ph == Renewing || ph == Rebinding then m.ciaddr else V4(ZERO))
            && Options.Lookup(b[Wire.HEADER_LEN..], Options.MSG_TYPE) == Options.Found([m.kind])
            && (Options.Lookup(b[Wire.HEADER_LEN..], Options.REQUESTED_IP).Found?
                <==> ph == Requesting || ph == Rebooting || m.kind == Sender.DECLINE)
            && (Options.Lookup(b[Wire.HEADER_LEN..], Options.SERVER_ID).Found?
                <==> ph == Requesting || m.kind == Sender.DECLINE)
  {
    Sender.DatagramReads(m, mac, host, Options.MSG_TYPE);
    Sender.DatagramReads(m, mac, host, Options.REQUESTED_IP);
    Sender.DatagramReads(m, mac, host, Options.SERVER_ID);
  }
}
