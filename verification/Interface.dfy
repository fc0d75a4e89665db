/** What every run keeps of the interface, whatever the interleaving: the lease last applied is what it shows
    or it has been cleared, every DECLINE is counted, and no address is put to first use unless it was
    acknowledged and then probed clean. */
module Interface {
  import opened Net
  import opened Timing
  import opened LeaseParams
  import opened Machine
  import Sender

  /** DECLINE messages since the start or since BOUND was last entered. */
  function Declines(h: History): nat {
    match h
    case Nothing => 0
    case After(past, o) =>
      if o.Entered? && o.phase == Bound then 0
      else Declines(past) + if o.Sent? && o.msg.kind == Sender.DECLINE then 1 else 0
  }

  /** The address of the lease last written to the interface, if any ever was. */
  function LastApplied(h: History): Option<Addr> {
    match h
    case Nothing => None
    case After(past, o) => if o.Applied? then Some(o.lease.ip) else LastApplied(past)
  }

  /** `p` is what was acknowledged, but that its NTP servers may have been forgotten. */
  predicate AsAcknowledged(p: Params, acked: Params) {
    p == acked || p == acked.(ntp := [])
  }

  /** The history ends with the acceptance of an ACK for `p` and the entry into the check of it. After that
      nothing but the end of an earlier loss was observed. */
  predicate Acknowledged(h: History, p: Params) {
    match h
    case Nothing => false
    case After(past, o) =>
      if o.Unapplied? || o == Notified(OnLost) then
        Acknowledged(past, p)
      else
        && o.Entered? && o.phase == CheckingAck
        && past.After? && past.last.Accepted? && AsAcknowledged(p, past.last.params)
  }

  /** Each lease first put to use had been acknowledged, and its address was then probed clean. */
  predicate FirstUseChecked(h: History) {
    match h
    case Nothing => true
    case After(past, o) =>
      FirstUseChecked(past) && (o.Applied? && !o.renewal ==> JustChecked(past, o.lease))
  }

  predicate JustChecked(h: History, p: Params) {
    h.After? && h.last == Probed(p.ip, true) && Acknowledged(h.past, p)
  }

  // ---- the invariant -----------------------------------------------------------------------------

  predicate Booked(h: History, declines: nat) {
    declines == Declines(h) && FirstUseChecked(h)
  }

  /** A configured interface has the address last applied; any other is as a teardown leaves it, or as it was
      found. */
  predicate Traced(s: State, initial: Iface) {
    if s.configured then
      LastApplied(s.history) == Some(s.iface.ip)
    else
      s.route == None && s.iface == if LastApplied(s.history).Some? then DECONFIGURED else initial
  }

  predicate Kept(s: State, initial: Iface) {
    && Booked(s.history, s.declines) && Traced(s, initial)
    && (s.phase == CheckingAck ==> Acknowledged(s.history, s.p))
  }

  // ---- steps -------------------------------------------------------------------------------------

  /** Entering a phase other than BOUND, sending a message other than a DECLINE, and what is only noted. */
  predicate Plain(o: Observation) {
    match o
    case Entered(ph, _, _) => ph != Bound
    case Sent(m, _) => m.kind != Sender.DECLINE
    case Applied(_, _) => false
    case _ => true
  }

  lemma PlainKept(h: History, o: Observation)
    requires Plain(o)
    ensures var g := After(h, o);
            && Declines(g) == Declines(h) && LastApplied(g) == LastApplied(h)
            && FirstUseChecked(g) == FirstUseChecked(h)
  {
  }

  lemma BeginKept(s: State, ph: Phase, m: Sender.Outgoing, initial: Iface)
    requires ph != CheckingAck && ph != Bound && m.kind != Sender.DECLINE
    requires Booked(s.history, s.declines) && Traced(s, initial)
    ensures Kept(Begin(s, ph, m), initial)
  {
    var o := Entered(ph, s.xid, s.now);
    PlainKept(s.history, o);
    PlainKept(After(s.history, o), Sent(m, s.now));
  }

  lemma CommitKept(s: State, renewal: bool, initial: Iface)
    requires FirstUseChecked(s.history) && (renewal || JustChecked(s.history, s.p))
    ensures Kept(Commit(s, renewal), initial)
  {
    var h1 := After(s.history, Applied(s.p, renewal));
    var h2 := After(h1, Entered(Bound, s.xid, s.now));
    assert FirstUseChecked(h1) && LastApplied(h1) == Some(s.p.ip);
    assert FirstUseChecked(h2) && LastApplied(h2) == Some(s.p.ip) && Declines(h2) == 0;
    PlainKept(h2, Notified(OnBound(renewal)));
  }

  lemma ConflictKept(s: State, initial: Iface)
    requires Booked(s.history, s.declines) && Traced(s, initial)
    ensures Kept(HandleConflict(s), initial)
  {
    var h1 := After(s.history, Sent(DeclineMessage(s), s.now));
    assert Declines(h1) == s.declines + 1 && LastApplied(h1) == LastApplied(s.history) && FirstUseChecked(h1);
    PlainKept(h1, Entered(Declining, s.xid, s.now));
    PlainKept(h1, Entered(Failed, s.xid, s.now));
    PlainKept(After(h1, Entered(Failed, s.xid, s.now)), Notified(OnError));
  }

  lemma ProbeKept(s: State, conflict: bool, took: nat, initial: Iface)
    requires Kept(s, initial) && (s.phase == CheckingOffer || s.phase == CheckingAck)
    ensures Kept(RunConflictProbe(s, conflict, took), initial)
  {
    PlainKept(s.history, Probed(s.p.ip, !conflict));
    var s1 := Probe(s, conflict, took);
    if conflict {
      ConflictKept(s1, initial);
    } else if s.phase == CheckingOffer {
      BeginKept(s1, Requesting, SelectingRequest(s1), initial);
    } else {
      CommitKept(s1, false, initial);
    }
  }

  lemma DiscoveryKept(s: State, xid: u32, initial: Iface)
    requires Booked(s.history, s.declines) && Traced(s, initial)
    ensures Kept(StartDiscovery(s, xid), initial)
  {
    var s1 := s.(xid := xid, p := Forget(s.p));
    BeginKept(s1, Selecting, DiscoverMessage(s1), initial);
  }

  lemma ResendKept(s: State, m: Sender.Outgoing, initial: Iface)
    requires Kept(s, initial) && s.phase != CheckingAck && m.kind != Sender.DECLINE
    ensures Kept(RearmBackoff(Send(s, m)), initial)
  {
    PlainKept(s.history, Sent(m, s.now));
  }

  lemma RetransmitKept(s: State, conflict: bool, took: nat, xid: u32, initial: Iface)
    requires Kept(s, initial)
    ensures Kept(RetransmitCallback(s, conflict, took, xid), initial)
  {
    var s1 := s.(count := s.count + 1);
    match s.phase
    case Selecting => ResendKept(s, DiscoverMessage(s), initial);
    case Requesting =>
      ResendKept(s1, SelectingRequest(s1), initial);
      DiscoveryKept(s1, xid, initial);
    case Rebooting =>
      ResendKept(s1, RebootRequest(s1), initial);
      DiscoveryKept(s1, xid, initial);
    case Renewing => ResendKept(s, RenewRequest(s), initial);
    case Rebinding => ResendKept(s, RebindRequest(s), initial);
    case CheckingOffer => ProbeKept(s, conflict, took, initial);
    case CheckingAck => ProbeKept(s, conflict, took, initial);
    case Declining => DiscoveryKept(s, xid, initial);
    case _ =>
  }

  lemma LeaseKept(s: State, xid: u32, initial: Iface)
    requires Kept(s, initial)
    ensures Kept(LeaseCallback(s, xid), initial)
  {
    var s1 := s.(xid := xid);
    match s.phase
    case Bound => BeginKept(s1, Renewing, RenewRequest(s1), initial);
    case Renewing => BeginKept(s1, Rebinding, RebindRequest(s1), initial);
    case _ =>
  }

  lemma AcceptKept(s: State, ph: Phase, initial: Iface)
    requires Booked(s.history, s.declines) && Traced(s, initial) && ph != Bound
    ensures Kept(ArmRetransmit(Enter(Note(s, Accepted(s.p)), ph), PROBE_HANDOFF_MS), initial)
  {
    PlainKept(s.history, Accepted(s.p));
    PlainKept(After(s.history, Accepted(s.p)), Entered(ph, s.xid, s.now));
  }

  lemma DispatchKept(s: State, kind: byte, learnt: Params, xid: u32, initial: Iface)
    requires Kept(s, initial)
    ensures Kept(Dispatch(s, kind, learnt, xid), initial)
  {
    var s1 := s.(p := learnt);
    if kind == Sender.OFFER && s.phase == Selecting {
      AcceptKept(s1, CheckingOffer, initial);
    } else if kind == Sender.ACK && (s.phase == Requesting || s.phase == Rebooting) {
      AcceptKept(s1, CheckingAck, initial);
    } else if kind == Sender.NAK && (s.phase == Requesting || s.phase == Rebooting) {
      DiscoveryKept(s, xid, initial);
    } else if kind == Sender.ACK && (s.phase == Renewing || s.phase == Rebinding) {
      PlainKept(s.history, Accepted(learnt));
      CommitKept(Note(s1, Accepted(learnt)), true, initial);
    }
  }

  lemma UnapplyKept(s: State, initial: Iface)
    requires Kept(s, initial)
    ensures Kept(Unapply(s), initial) && !Unapply(s).configured
    ensures LastApplied(Unapply(s).history) == LastApplied(s.history)
  {
    PlainKept(s.history, Unapplied);
  }

  lemma LossKept(s: State, initial: Iface)
    requires Kept(s, initial) && s.entering > 0
    ensures Kept(Step(s, LoseInterfaceStep), initial)
  {
    var s1 := Unapply(s);
    UnapplyKept(s, initial);
    PlainKept(s1.history, Notified(OnLost));
    if s.phase == CheckingAck {
      ForgetfulCheck(s1.history, s1.p);
    }
  }

  lemma {:induction false} ForgetfulCheck(h: History, p: Params)
    requires Acknowledged(h, p)
    ensures Acknowledged(h, p.(ntp := []))
  {
    if h.last.Unapplied? || h.last == Notified(OnLost) {
      ForgetfulCheck(h.past, p);
    }
  }

  /** Every event keeps it, also one between the critical sections of a loss. */
  lemma StepKept(s: State, e: Event, initial: Iface)
    requires Kept(s, initial) && Enabled(s, e)
    ensures Kept(Step(s, e), initial)
  {
    match e
    case Tick(_) =>
    case RetransmitFire(due, conflict, took, xid) =>
      RetransmitKept(if due then s.(retransmit := Idle) else s, conflict, took, xid, initial);
    case LeaseFire(due, xid) => LeaseKept(if due then s.(lease := Idle) else s, xid, initial);
    case Datagram(payload, xid) =>
      match ReplyOf(payload) {
        case None =>
        case Some(r) => DispatchKept(s, r.kind, Populate(s.p, r.yiaddr, r.options), xid, initial);
      }
    case ForceRenew(xid) =>
      if s.phase == Bound {
        var s1 := s.(xid := xid);
        BeginKept(s1, Renewing, RenewRequest(s1), initial);
      }
    case LoseInterfaceStep => LossKept(s, initial);
    case RestartStep(xid) => DiscoveryKept(s, xid, initial);
  }

  lemma StartKept(iface: Iface, now: nat, requested: Addr, xid: u32)
    ensures Kept(Start(iface, now, requested, xid), iface)
  {
    var s := Created(iface, now);
    if requested.V4? {
      var s1 := s.(p := s.p.(ip := requested), xid := xid);
      BeginKept(s1, Rebooting, RebootRequest(s1), iface);
    } else {
      DiscoveryKept(s, xid, iface);
    }
  }

  /** Over every run of a started lease, in every interleaving. */
  lemma {:induction false} RunKept(r: Run)
    requires Started(r)
    ensures Kept(End(r), Root(r).iface)
  {
    match r
    case From(s) =>
      var iface, now, requested, xid :| s == Start(iface, now, requested, xid);
      StartKept(iface, now, requested, xid);
    case Then(b, e) =>
      RunKept(b);
      StepKept(End(b), e, Root(r).iface);
  }
}
