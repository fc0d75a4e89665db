/** The state diagram of the client: every run walks along it, and every edge of it is walked. */
module Diagram {
  import opened Net
  import opened Timing
  import opened LeaseParams
  import opened Machine
  import opened Agreement
  import opened Discipline
  import opened Reachability
  import Sender

  /** The edges drawn in the documentation's diagram. A search begins in `init` and a reboot in `init_reboot`,
      which are left at once. */
  predicate Drawn(from: Phase, to: Phase) {
    match from
    case Selecting => to == CheckingOffer
    case CheckingOffer => to == Requesting || to == Declining || to == Failed
    case Requesting => to == CheckingAck
    case CheckingAck => to == Bound || to == Declining || to == Failed
    case Bound => to == Renewing
    case Renewing => to == Bound || to == Rebinding
    case Rebinding => to == Bound || to == Selecting
    case Rebooting => to == CheckingAck || to == Selecting
    case Declining => to == Selecting
    case Init | InitReboot | Failed => false
  }

  /** Those that only the notes below it mention: a request that is refused or not answered, and a renewal that
      is refused. */
  predicate InNotes(from: Phase, to: Phase) {
    to == Selecting && (from == Requesting || from == Renewing)
  }

  predicate Edge(from: Phase, to: Phase) {
    Drawn(from, to) || InNotes(from, to)
  }

  /** A search can also begin anew from anywhere, if a thread that was handling a loss comes late. */
  predicate MayFollow(from: Option<Phase>, to: Phase, late: bool) {
    match from
    case None => to == Selecting || to == Rebooting
    case Some(ph) => Edge(ph, to) || (late && to == Selecting)
  }

  /** The phases entered in the course of a history form a path of the diagram. */
  predicate Path(h: History, late: bool) {
    match h
    case Nothing => true
    case After(past, o) => Path(past, late) && (o.Entered? ==> MayFollow(PhaseOf(past), o.phase, late))
  }

  // ---- every run walks along the diagram ---------------------------------------------------------

  lemma PathGrows(h: History, o: Observation, late: bool)
    ensures Path(After(h, o), late) <==> Path(h, late) && (o.Entered? ==> MayFollow(PhaseOf(h), o.phase, late))
    ensures PhaseOf(After(h, o)) == if o.Entered? then Some(o.phase) else PhaseOf(h)
  {
  }

  lemma {:induction false} LatePath(h: History)
    requires Path(h, false)
    ensures Path(h, true)
  {
    match h
    case Nothing =>
    case After(past, _) => LatePath(past);
  }

  lemma BeginWalks(s: State, ph: Phase, m: Sender.Outgoing, late: bool)
    requires Path(s.history, late) && MayFollow(PhaseOf(s.history), ph, late)
    ensures Path(Begin(s, ph, m).history, late)
  {
    PathGrows(s.history, Entered(ph, s.xid, s.now), late);
    PathGrows(After(s.history, Entered(ph, s.xid, s.now)), Sent(m, s.now), late);
  }

  lemma CommitWalks(s: State, renewal: bool, late: bool)
    requires Path(s.history, late) && MayFollow(PhaseOf(s.history), Bound, late)
    ensures Path(Commit(s, renewal).history, late)
  {
    var h1 := After(s.history, Applied(s.p, renewal));
    var h2 := After(h1, Entered(Bound, s.xid, s.now));
    PathGrows(s.history, h1.last, late);
    PathGrows(h1, h2.last, late);
    PathGrows(h2, Notified(OnBound(renewal)), late);
  }

  lemma ConflictWalks(s: State, late: bool)
    requires Path(s.history, late)
    requires MayFollow(PhaseOf(s.history), Declining, late) && MayFollow(PhaseOf(s.history), Failed, late)
    ensures Path(HandleConflict(s).history, late)
  {
    var h1 := After(s.history, Sent(DeclineMessage(s), s.now));
    PathGrows(s.history, h1.last, late);
    PathGrows(h1, Entered(Declining, s.xid, s.now), late);
    PathGrows(h1, Entered(Failed, s.xid, s.now), late);
    PathGrows(After(h1, Entered(Failed, s.xid, s.now)), Notified(OnError), late);
  }

  lemma ProbeWalks(s: State, conflict: bool, took: nat, late: bool)
    requires Path(s.history, late) && PhaseOf(s.history) == Some(s.phase)
    requires s.phase == CheckingOffer || s.phase == CheckingAck
    ensures Path(RunConflictProbe(s, conflict, took).history, late)
  {
    var s1 := Probe(s, conflict, took);
    PathGrows(s.history, s1.history.last, late);
    if conflict {
      ConflictWalks(s1, late);
    } else if s.phase == CheckingOffer {
      BeginWalks(s1, Requesting, SelectingRequest(s1), late);
    } else {
      CommitWalks(s1, false, late);
    }
  }

  lemma DiscoveryWalks(s: State, xid: u32, late: bool)
    requires Path(s.history, late) && MayFollow(PhaseOf(s.history), Selecting, late)
    ensures Path(StartDiscovery(s, xid).history, late)
  {
    var s1 := s.(xid := xid, p := Forget(s.p));
    BeginWalks(s1, Selecting, DiscoverMessage(s1), late);
  }

  lemma RetransmitWalks(s: State, conflict: bool, took: nat, xid: u32, late: bool)
    requires Path(s.history, late) && PhaseOf(s.history) == Some(s.phase)
    ensures Path(RetransmitCallback(s, conflict, took, xid).history, late)
  {
    var s1 := s.(count := s.count + 1);
    match s.phase
    case Selecting => PathGrows(s.history, Sent(DiscoverMessage(s), s.now), late);
    case Requesting =>
      PathGrows(s.history, Sent(SelectingRequest(s1), s.now), late);
      DiscoveryWalks(s1, xid, late);
    case Rebooting =>
      PathGrows(s.history, Sent(RebootRequest(s1), s.now), late);
      DiscoveryWalks(s1, xid, late);
    case Renewing => PathGrows(s.history, Sent(RenewRequest(s), s.now), late);
    case Rebinding => PathGrows(s.history, Sent(RebindRequest(s), s.now), late);
    case CheckingOffer => ProbeWalks(s, conflict, took, late);
    case CheckingAck => ProbeWalks(s, conflict, took, late);
    case Declining => DiscoveryWalks(s, xid, late);
    case _ =>
  }

  lemma DispatchWalks(s: State, kind: byte, learnt: Params, xid: u32, late: bool)
    requires Path(s.history, late) && PhaseOf(s.history) == Some(s.phase)
    ensures Path(Dispatch(s, kind, learnt, xid).history, late)
  {
    var h1 := After(s.history, Accepted(learnt));
    PathGrows(s.history, h1.last, late);
    if kind == Sender.OFFER && s.phase == Selecting {
      PathGrows(h1, Entered(CheckingOffer, s.xid, s.now), late);
    } else if kind == Sender.ACK && (s.phase == Requesting || s.phase == Rebooting) {
      PathGrows(h1, Entered(CheckingAck, s.xid, s.now), late);
    } else if kind == Sender.NAK && (s.phase == Requesting || s.phase == Rebooting) {
      DiscoveryWalks(s, xid, late);
    } else if kind == Sender.ACK && (s.phase == Renewing || s.phase == Rebinding) {
      CommitWalks(Note(s.(p := learnt), Accepted(learnt)), true, late);
    }
  }

  lemma StepWalks(s: State, e: Event, late: bool)
    requires Path(s.history, late) && PhaseOf(s.history) == Some(s.phase) && Enabled(s, e)
    requires e.RestartStep? && !late ==> s.phase == Renewing || s.phase == Rebinding
    ensures Path(Step(s, e).history, late)
  {
    match e
    case Tick(_) =>
    case RetransmitFire(due, conflict, took, xid) =>
      RetransmitWalks(if due then s.(retransmit := Idle) else s, conflict, took, xid, late);
    case LeaseFire(_, xid) =>
      TimerWalks(s.(xid := xid), late);
    case Datagram(payload, xid) =>
      match ReplyOf(payload) {
        case None =>
        case Some(r) => DispatchWalks(s, r.kind, Populate(s.p, r.yiaddr, r.options), xid, late);
      }
    case ForceRenew(xid) =>
      TimerWalks(s.(xid := xid), late);
    case LoseInterfaceStep =>
      PathGrows(s.history, Unapplied, late);
      PathGrows(Unapply(s).history, Notified(OnLost), late);
    case RestartStep(xid) => DiscoveryWalks(s, xid, late);
  }

  /** The two phases begun by the lease timer. */
  lemma TimerWalks(s: State, late: bool)
    requires Path(s.history, late) && PhaseOf(s.history) == Some(s.phase)
    ensures s.phase == Bound ==> Path(Begin(s, Renewing, RenewRequest(s)).history, late)
    ensures s.phase == Renewing ==> Path(Begin(s, Rebinding, RebindRequest(s)).history, late)
  {
    if s.phase == Bound {
      BeginWalks(s, Renewing, RenewRequest(s), late);
    } else if s.phase == Renewing {
      BeginWalks(s, Rebinding, RebindRequest(s), late);
    }
  }

  /** In every quiet run the phases entered form a path of the diagram; in every other run the only further
      edges are those back to a search. */
  lemma {:induction false} RunWalks(r: Run)
    requires Started(r)
    ensures Path(End(r).history, !Quiet(r))
  {
    match r
    case From(s) =>
      var iface, now, requested, xid :| s == Start(iface, now, requested, xid);
      StartWalks(iface, now, requested, xid);
    case Then(b, e) =>
      RunWalks(b);
      RunDisciplined(b);
      if Quiet(b) {
        RunInStep(b);
        if !Quiet(r) {
          LatePath(End(b).history);
        }
      }
      StepWalks(End(b), e, !Quiet(r));
  }

  lemma StartWalks(iface: Iface, now: nat, requested: Addr, xid: u32)
    ensures Path(Start(iface, now, requested, xid).history, false)
  {
    var s := Created(iface, now).(xid := xid);
    if requested.V4? {
      var s1 := s.(p := s.p.(ip := requested));
      BeginWalks(s1, Rebooting, RebootRequest(s1), false);
    } else {
      DiscoveryWalks(s, xid, false);
    }
  }

  // ---- every edge is walked ----------------------------------------------------------------------

  /** Some quiet run goes from one phase to the other in its last step. */
  ghost predicate Walked(from: Phase, to: Phase) {
    exists r, e :: EndsWith(r, e, from, to)
  }

  ghost predicate EndsWith(r: Run, e: Event, from: Phase, to: Phase) {
    Started(Then(r, e)) && Quiet(Then(r, e)) && End(r).phase == from && End(Then(r, e)).phase == to
  }

  lemma AcquisitionWalked(from: Phase, to: Phase, iface: Iface, ip: Quad)
    requires Edge(from, to) && to != Declining && to != Failed && to != Selecting
    requires !Held(from)
    ensures Walked(from, to)
  {
    var r, e;
    match from {
      case Selecting =>
        r := Searching(iface);
        e := Offered(r, ip, 0);
      case CheckingOffer =>
        r := ToCheckingOffer(iface, ip, 0);
        e := Probing(r, false, 0);
      case Requesting =>
        r := ToRequesting(iface, ip, 0);
        e := Acked(r, ip, 0);
      case CheckingAck =>
        r := ToCheckingAck(iface, ip, 0);
        e := Probing(r, false, 0);
      case Rebooting =>
        r := Remembering(iface, ip);
        e := Acked(r, ip, 0);
    }
    assert EndsWith(r, e, from, to);
  }

  lemma ConflictsWalked(from: Phase, to: Phase, iface: Iface, ip: Quad)
    requires (from == CheckingOffer || from == CheckingAck) && (to == Declining || to == Failed)
    ensures Walked(from, to)
  {
    var n := if to == Failed then MAX_DECLINE_RETRIES else 0;
    var r;
    if from == CheckingOffer {
      r := ToCheckingOffer(iface, ip, n);
    } else {
      r := ToCheckingAck(iface, ip, n);
    }
    var e := Probing(r, true, n);
    assert EndsWith(r, e, from, to);
  }

  lemma RestartsWalked(from: Phase, iface: Iface, ip: Quad)
    requires from == Declining || from == Requesting || from == Rebooting
    ensures Walked(from, Selecting)
  {
    var r, e;
    match from {
      case Declining =>
        r := ToCheckingOffer(iface, ip, 0);
        e := Probing(r, true, 0);
        r := Then(r, e);
        e := PauseOver(r, 1);
      case Requesting =>
        r := ToRequesting(iface, ip, 0);
        e := Refused(r, ip, 0);
      case Rebooting =>
        r := Remembering(iface, ip);
        e := Refused(r, ip, 0);
    }
    assert EndsWith(r, e, from, Selecting);
  }

  lemma LossesWalked(from: Phase, iface: Iface, ip: Quad)
    requires from == Renewing || from == Rebinding
    ensures Walked(from, Selecting)
  {
    var r;
    if from == Renewing {
      r := ToRenewing(iface, ip);
    } else {
      r := ToRebinding(iface, ip);
    }
    r := Losing(r, ip, 0);
    var e := Restarting(r, from, 0);
    assert EndsWith(r, e, from, Selecting);
  }

  lemma RenewalsWalked(from: Phase, to: Phase, iface: Iface, ip: Quad)
    requires Edge(from, to) && Held(from) && Held(to)
    ensures Walked(from, to)
  {
    var r, e;
    if from == Bound {
      r := ToBound(iface, ip);
      e := TimerExpires(r, 0);
    } else if from == Rebinding {
      r := ToRebinding(iface, ip);
      e := Renewed(r, ip, 0);
    } else {
      r := ToRenewing(iface, ip);
      if to == Bound {
        e := Renewed(r, ip, 0);
      } else {
        e := TimerExpires(r, 0);
      }
    }
    assert EndsWith(r, e, from, to);
  }

  lemma EdgeIsWalked(from: Phase, to: Phase)
    requires Edge(from, to)
    ensures Walked(from, to)
  {
    if to == Selecting && Held(from) {
      LossesWalked(from, DECONFIGURED, ZERO);
    } else if to == Selecting {
      RestartsWalked(from, DECONFIGURED, ZERO);
    } else if to == Declining || to == Failed {
      ConflictsWalked(from, to, DECONFIGURED, ZERO);
    } else if Held(from) {
      RenewalsWalked(from, to, DECONFIGURED, ZERO);
    } else {
      AcquisitionWalked(from, to, DECONFIGURED, ZERO);
    }
  }

  // ---- the diagram is exact ----------------------------------------------------------------------

  lemma ProbeEdge(s: State, conflict: bool, took: nat)
    requires s.phase == CheckingOffer || s.phase == CheckingAck
    ensures Edge(s.phase, RunConflictProbe(s, conflict, took).phase)
  {
  }

  lemma RetransmitEdge(s: State, conflict: bool, took: nat, xid: u32)
    ensures var t := RetransmitCallback(s, conflict, took, xid); t.phase == s.phase || Edge(s.phase, t.phase)
  {
    if s.phase == CheckingOffer || s.phase == CheckingAck {
      ProbeEdge(s, conflict, took);
    }
  }

  lemma DispatchEdge(s: State, kind: byte, learnt: Params, xid: u32)
    ensures var t := Dispatch(s, kind, learnt, xid); t.phase == s.phase || Edge(s.phase, t.phase)
  {
  }

  lemma StepEdge(s: State, e: Event)
    requires InStep(s) && Enabled(s, e)
    ensures Step(s, e).phase == s.phase || Edge(s.phase, Step(s, e).phase)
  {
    match e
    case RetransmitFire(due, conflict, took, xid) =>
      RetransmitEdge(if due then s.(retransmit := Idle) else s, conflict, took, xid);
    case Datagram(payload, xid) =>
      match ReplyOf(payload) {
        case None =>
        case Some(r) => DispatchEdge(s, r.kind, Populate(s.p, r.yiaddr, r.options), xid);
      }
    case _ =>
  }

  lemma WalkedIsEdge(from: Phase, to: Phase)
    requires from != to && Walked(from, to)
    ensures Edge(from, to)
  {
    var r, e :| EndsWith(r, e, from, to);
    RunInStep(r);
    StepEdge(End(r), e);
  }

  /** Quiet runs go from one phase to another exactly along the edges: none is missing, none is idle. */
  lemma DiagramIsExact(from: Phase, to: Phase)
    requires from != to
    ensures Walked(from, to) <==> Edge(from, to)
  {
    if Walked(from, to) {
      WalkedIsEdge(from, to);
    }
    if Edge(from, to) {
      EdgeIsWalked(from, to);
    }
  }
}
