/** What every quiet run keeps: the interface shows exactly the held lease, callbacks come in order,
    conflicts are bounded, and nothing comes between an ACK, the probe of its address and its first use. */
module Agreement {
  import opened Net
  import opened Timing
  import opened LeaseParams
  import opened Machine
  import Sender

  // ---- the callback language ---------------------------------------------------------------------

  /** The state of an application that listens to the callbacks. */
  datatype Listener = Free | Leased | Over | Confused

  function Hear(l: Listener, cb: Callback): Listener {
    match (l, cb)
    case (Free, OnBound(false)) => Leased
    case (Leased, OnBound(true)) => Leased
    case (Leased, OnLost) => Free
    case (Free, OnError) => Over
    case _ => Confused
  }

  function Heard(h: History): Listener {
    match h
    case Nothing => Free
    case After(past, o) => if o.Notified? then Hear(Heard(past), o.cb) else Heard(past)
  }

  // ---- first use ---------------------------------------------------------------------------------

  /** The history ends with the acceptance of a message for `p` and the entry into the check of it. */
  predicate Checking(h: History, p: Params) {
    && h.After? && h.last.Entered? && h.last.phase == CheckingAck
    && h.past.After? && h.past.last == Accepted(p)
  }

  /** Each lease first put to use was accepted, then probed clean, with nothing in between. */
  predicate FirstUseProbed(h: History) {
    match h
    case Nothing => true
    case After(past, o) =>
      FirstUseProbed(past) && (o.Applied? && !o.renewal ==> JustProbed(past, o.lease))
  }

  predicate JustProbed(h: History, p: Params) {
    h.After? && h.last == Probed(p.ip, true) && Checking(h.past, p)
  }

  // ---- the invariant -----------------------------------------------------------------------------

  function ListenerOf(s: State): Listener {
    if s.phase == Failed then Over else if Held(s.phase) && s.inside == 0 then Leased else Free
  }

  predicate Heeded(s: State) {
    && Heard(s.history) == ListenerOf(s)
    && FirstUseProbed(s.history)
    && (s.phase == CheckingAck ==> Checking(s.history, s.p))
  }

  predicate Bounded(s: State) {
    if s.phase == Failed then s.declines == MAX_DECLINE_RETRIES + 1 else s.declines <= MAX_DECLINE_RETRIES
  }

  /** The interface and the default route are those of the lease's parameters. */
  predicate Shows(s: State) {
    && s.iface.ip == s.p.ip && s.iface.mask == s.p.mask
    && (s.p.mask.V4? ==> s.iface.broadcast == V4(Broadcast(Raw(s.p.ip), Raw(s.p.mask))))
    && s.route == if s.p.gateway.V4? then Some(s.p.gateway) else None
  }

  predicate Agrees(s: State) {
    && s.entering + s.inside <= 1
    && (s.entering + s.inside > 0 ==> s.phase == Renewing || s.phase == Rebinding)
    && (s.configured <==> Held(s.phase) && s.inside == 0)
    && (s.configured ==> Shows(s))
    && (s.inside > 0 ==> s.p.ntp == [])
  }

  predicate InStep(s: State) {
    Heeded(s) && Bounded(s) && Agrees(s)
  }

  // ---- steps -------------------------------------------------------------------------------------

  lemma Unroll(h: History, o: Observation)
    ensures var g := After(h, o);
            && Heard(g) == (if o.Notified? then Hear(Heard(h), o.cb) else Heard(h))
            && (FirstUseProbed(g) <==> FirstUseProbed(h) && (o.Applied? && !o.renewal ==> JustProbed(h, o.lease)))
  {
  }

  /** Beginning a phase of the same standing. */
  lemma BeginInStep(s: State, ph: Phase, m: Sender.Outgoing)
    requires ph != CheckingAck && ph != Bound && ph != Failed
    requires Heard(s.history) == ListenerOf(s.(phase := ph))
    requires FirstUseProbed(s.history) && Agrees(s.(phase := ph)) && s.declines <= MAX_DECLINE_RETRIES
    ensures InStep(Begin(s, ph, m))
  {
    var o := Entered(ph, s.xid, s.now);
    Unroll(s.history, o);
    Unroll(After(s.history, o), Sent(m, s.now));
  }

  lemma CommitInStep(s: State, renewal: bool)
    requires Heard(s.history) == (if renewal then Leased else Free)
    requires FirstUseProbed(s.history) && s.entering + s.inside == 0
    requires renewal || JustProbed(s.history, s.p)
    ensures InStep(Commit(s, renewal))
  {
    var h1 := After(s.history, Applied(s.p, renewal));
    var h2 := After(h1, Entered(Bound, s.xid, s.now));
    Unroll(s.history, Applied(s.p, renewal));
    Unroll(h1, Entered(Bound, s.xid, s.now));
    Unroll(h2, Notified(OnBound(renewal)));
  }

  lemma ConflictInStep(s: State)
    requires Heard(s.history) == Free && s.declines <= MAX_DECLINE_RETRIES
    requires FirstUseProbed(s.history) && Agrees(s) && !Held(s.phase)
    ensures InStep(HandleConflict(s))
  {
    var h1 := After(s.history, Sent(DeclineMessage(s), s.now));
    Unroll(s.history, Sent(DeclineMessage(s), s.now));
    Unroll(h1, Entered(Declining, s.xid, s.now));
    Unroll(h1, Entered(Failed, s.xid, s.now));
    Unroll(After(h1, Entered(Failed, s.xid, s.now)), Notified(OnError));
  }

  lemma ProbeInStep(s: State, conflict: bool, took: nat)
    requires InStep(s) && (s.phase == CheckingOffer || s.phase == CheckingAck)
    ensures InStep(RunConflictProbe(s, conflict, took))
  {
    Unroll(s.history, Probed(s.p.ip, !conflict));
    ActInStep(Probe(s, conflict, took), conflict);
  }

  lemma ActInStep(s: State, conflict: bool)
    requires Heard(s.history) == Free && FirstUseProbed(s.history) && s.declines <= MAX_DECLINE_RETRIES && Agrees(s)
    requires s.phase == CheckingOffer || s.phase == CheckingAck
    requires s.phase == CheckingAck && !conflict ==> JustProbed(s.history, s.p)
    ensures InStep(ActOnProbe(s, conflict))
  {
    if conflict {
      ConflictInStep(s);
    } else if s.phase == CheckingOffer {
      BeginInStep(s, Requesting, SelectingRequest(s));
    } else {
      CommitInStep(s, false);
    }
  }

  lemma DiscoveryInStep(s: State, xid: u32)
    requires Heard(s.history) == Free && s.declines <= MAX_DECLINE_RETRIES
    requires FirstUseProbed(s.history) && Agrees(s.(phase := Selecting))
    ensures InStep(StartDiscovery(s, xid))
  {
    var s1 := s.(xid := xid, p := Forget(s.p));
    BeginInStep(s1, Selecting, DiscoverMessage(s1));
  }

  lemma ResendInStep(s: State, m: Sender.Outgoing)
    requires InStep(s) && s.phase != CheckingAck
    ensures InStep(RearmBackoff(Send(s, m)))
  {
    Unroll(s.history, Sent(m, s.now));
  }

  lemma RetransmitInStep(s: State, conflict: bool, took: nat, xid: u32)
    requires InStep(s)
    ensures InStep(RetransmitCallback(s, conflict, took, xid))
  {
    match s.phase
    case Selecting => ResendInStep(s, DiscoverMessage(s));
    case Requesting =>
      var s1 := s.(count := s.count + 1);
      ResendInStep(s1, SelectingRequest(s1));
      DiscoveryInStep(s1, xid);
    case Rebooting =>
      var s1 := s.(count := s.count + 1);
      ResendInStep(s1, RebootRequest(s1));
      DiscoveryInStep(s1, xid);
    case Renewing => ResendInStep(s, RenewRequest(s));
    case Rebinding => ResendInStep(s, RebindRequest(s));
    case CheckingOffer => ProbeInStep(s, conflict, took);
    case CheckingAck => ProbeInStep(s, conflict, took);
    case Declining => DiscoveryInStep(s, xid);
    case _ =>
  }

  lemma LeaseInStep(s: State, xid: u32)
    requires InStep(s) && (s.phase == Rebinding ==> s.entering + s.inside == 0)
    ensures InStep(LeaseCallback(s, xid))
  {
    var s1 := s.(xid := xid);
    match s.phase
    case Bound => BeginInStep(s1, Renewing, RenewRequest(s1));
    case Renewing => BeginInStep(s1, Rebinding, RebindRequest(s1));
    case _ =>
  }

  lemma AcceptInStep(s: State, ph: Phase)
    requires Heard(s.history) == Free && s.declines <= MAX_DECLINE_RETRIES
    requires FirstUseProbed(s.history) && Agrees(s.(phase := ph))
    requires ph == CheckingOffer || ph == CheckingAck
    ensures InStep(ArmRetransmit(Enter(Note(s, Accepted(s.p)), ph), PROBE_HANDOFF_MS))
  {
    Unroll(s.history, Accepted(s.p));
    Unroll(After(s.history, Accepted(s.p)), Entered(ph, s.xid, s.now));
  }

  lemma DispatchInStep(s: State, kind: byte, learnt: Params, xid: u32)
    requires InStep(s) && (kind == Sender.ACK || kind == Sender.NAK ==> s.entering + s.inside == 0)
    ensures InStep(Dispatch(s, kind, learnt, xid))
  {
    var s1 := s.(p := learnt);
    if kind == Sender.OFFER && s.phase == Selecting {
      AcceptInStep(s1, CheckingOffer);
    } else if kind == Sender.ACK && (s.phase == Requesting || s.phase == Rebooting) {
      AcceptInStep(s1, CheckingAck);
    } else if kind == Sender.NAK && (s.phase == Requesting || s.phase == Rebooting) {
      DiscoveryInStep(s, xid);
    } else if kind == Sender.ACK && (s.phase == Renewing || s.phase == Rebinding) {
      Unroll(s.history, Accepted(learnt));
      CommitInStep(Note(s1, Accepted(learnt)), true);
    }
  }

  lemma LossInStep(s: State)
    requires InStep(s) && s.entering > 0
    ensures InStep(Step(s, LoseInterfaceStep))
  {
    Unroll(s.history, Unapplied);
    Unroll(Unapply(s).history, Notified(OnLost));
  }

  lemma RestartInStep(s: State, xid: u32)
    requires InStep(s) && s.inside > 0
    ensures InStep(Step(s, RestartStep(xid)))
  {
    DiscoveryInStep(s.(inside := s.inside - 1), xid);
    assert Step(s, RestartStep(xid)) == StartDiscovery(s.(inside := s.inside - 1), xid);
  }

  lemma HarmlessInStep(s: State, e: Event)
    requires InStep(s) && Enabled(s, e) && !Harmful(s, e)
    ensures InStep(Step(s, e))
  {
    match e
    case Tick(_) =>
    case RetransmitFire(due, conflict, took, xid) =>
      RetransmitInStep(if due then s.(retransmit := Idle) else s, conflict, took, xid);
    case LeaseFire(due, xid) => LeaseInStep(if due then s.(lease := Idle) else s, xid);
    case Datagram(payload, xid) =>
      match ReplyOf(payload) {
        case None =>
        case Some(r) => DispatchInStep(s, r.kind, Populate(s.p, r.yiaddr, r.options), xid);
      }
    case ForceRenew(xid) =>
      if s.phase == Bound {
        var s1 := s.(xid := xid);
        BeginInStep(s1, Renewing, RenewRequest(s1));
      }
    case LoseInterfaceStep => LossInStep(s);
    case RestartStep(xid) => RestartInStep(s, xid);
  }

  lemma HarmBreaksStep(s: State, e: Event)
    requires InStep(s) && Enabled(s, e) && Harmful(s, e)
    ensures !Agrees(Step(s, e))
  {
    if e.Datagram? {
      var r := ReplyOf(e.payload).value;
      HarmfulDispatch(s, r.kind, Populate(s.p, r.yiaddr, r.options), e.xid);
    }
  }

  lemma HarmfulDispatch(s: State, kind: byte, learnt: Params, xid: u32)
    requires InStep(s) && s.entering + s.inside > 0 && (kind == Sender.ACK || kind == Sender.NAK)
    ensures var t := Dispatch(s, kind, learnt, xid); t.entering + t.inside > 1 || t.phase == Bound
    ensures var t := Dispatch(s, kind, learnt, xid); t.entering + t.inside >= s.entering + s.inside
  {
    if kind == Sender.ACK {
      assert Dispatch(s, kind, learnt, xid) == Commit(Note(s.(p := learnt), Accepted(learnt)), true);
    }
  }

  /** An event keeps the agreement if and only if it is harmless. */
  lemma StepInStep(s: State, e: Event)
    requires InStep(s) && Enabled(s, e)
    ensures InStep(Step(s, e)) <==> !Harmful(s, e)
  {
    if Harmful(s, e) {
      HarmBreaksStep(s, e);
    } else {
      HarmlessInStep(s, e);
    }
  }

  lemma StartInStep(iface: Iface, now: nat, requested: Addr, xid: u32)
    ensures InStep(Start(iface, now, requested, xid))
  {
    var s := Created(iface, now);
    if requested.V4? {
      var s1 := s.(p := s.p.(ip := requested), xid := xid);
      BeginInStep(s1, Rebooting, RebootRequest(s1));
    } else {
      DiscoveryInStep(s, xid);
    }
  }

  /** Over every quiet run of a started lease, with stray timer callbacks and forced renewals anywhere. */
  lemma {:induction false} RunInStep(r: Run)
    requires Started(r) && Quiet(r)
    ensures InStep(End(r))
  {
    match r
    case From(s) =>
      var iface, now, requested, xid :| s == Start(iface, now, requested, xid);
      StartInStep(iface, now, requested, xid);
    case Then(b, e) =>
      RunInStep(b);
      StepInStep(End(b), e);
  }
}
