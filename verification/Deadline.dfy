/** Timing: how long a lease stays on the interface, when exactly it is renewed, rebound and lost, and how long
    the client pauses after a conflict. */
module Deadline {
  import opened Net
  import opened Timing
  import opened LeaseParams
  import opened Machine
  import opened Agreement
  import Sender

  // ---- the lease deadline ------------------------------------------------------------------------

  /** The part of timeliness that the lease depends on: time does not pass the deadline of the lease timer
      before its callback has run, nor between a callback that finds the lease lost and the first critical
      section of the loss. The retransmit timer may be late, and an ARP probe may take any time. */
  predicate LeaseTimelyEvent(s: State, e: Event) {
    e.Tick? && e.ms > 0 ==> NotPast(s.lease, s.now + e.ms) && s.entering == 0
  }

  predicate LeaseTimely(r: Run)
    requires Legal(r)
  {
    match r
    case From(_) => true
    case Then(b, e) => LeaseTimely(b) && LeaseTimelyEvent(End(b), e)
  }

  lemma {:induction false} TimelyIsLeaseTimely(r: Run)
    requires Legal(r) && Timely(r)
    ensures LeaseTimely(r)
  {
    if r.Then? {
      TimelyIsLeaseTimely(r.before);
    }
  }

  /** When BOUND was last entered. */
  function BoundAt(h: History): nat {
    match h
    case Nothing => 0
    case After(past, o) => if o.Entered? && o.phase == Bound then o.at else BoundAt(past)
  }

  /** How long after BOUND was entered the lease timer stands. A forced renewal leaves it where it was, so that
      the wait for T2 is never made. */
  function Standing(ph: Phase, forced: bool, p: Params): nat {
    T1Period(p.t1)
    + (if ph == Bound || forced then 0 else T2Period(p.t1, p.t2))
    + (if ph == Rebinding then ExpiryPeriod(p.t2, p.leaseTime) else 0)
  }

  /** The latest that the lease timer of a held lease can stand. */
  function Latest(s: State): nat {
    BoundAt(s.history) + Standing(s.phase, false, s.p)
  }

  /** The lease timer of a held lease is ahead and stands in time; once it has run out for good, the loss is about
      to clear the interface, or has. */
  predicate OnTime(s: State) {
    Held(s.phase) ==>
      if s.lease.Armed? then s.now <= s.lease.at <= Latest(s)
      else s.phase == Rebinding && (s.configured ==> s.entering > 0 && s.now <= Latest(s))
  }

  lemma BoundAtUnroll(h: History, o: Observation)
    ensures BoundAt(After(h, o)) == if o.Entered? && o.phase == Bound then o.at else BoundAt(h)
  {
  }

  lemma BeginOnTime(s: State, ph: Phase, m: Sender.Outgoing)
    requires ph != Bound
    ensures BoundAt(Begin(s, ph, m).history) == BoundAt(s.history)
  {
    BoundAtUnroll(s.history, Entered(ph, s.xid, s.now));
    BoundAtUnroll(After(s.history, Entered(ph, s.xid, s.now)), Sent(m, s.now));
  }

  lemma CommitOnTime(s: State, renewal: bool)
    ensures OnTime(Commit(s, renewal))
  {
    var h1 := After(s.history, Applied(s.p, renewal));
    BoundAtUnroll(h1, Entered(Bound, s.xid, s.now));
    BoundAtUnroll(After(h1, Entered(Bound, s.xid, s.now)), Notified(OnBound(renewal)));
  }

  lemma ProbeOnTime(s: State, conflict: bool, took: nat)
    requires s.phase == CheckingOffer || s.phase == CheckingAck
    ensures OnTime(RunConflictProbe(s, conflict, took))
  {
    if !conflict && s.phase == CheckingAck {
      CommitOnTime(Probe(s, conflict, took), false);
    } else {
      assert !Held(RunConflictProbe(s, conflict, took).phase);
    }
  }

  lemma RetransmitOnTime(s: State, conflict: bool, took: nat, xid: u32)
    requires OnTime(s)
    ensures OnTime(RetransmitCallback(s, conflict, took, xid))
  {
    match s.phase
    case Renewing => BoundAtUnroll(s.history, Sent(RenewRequest(s), s.now));
    case Rebinding => BoundAtUnroll(s.history, Sent(RebindRequest(s), s.now));
    case CheckingOffer => ProbeOnTime(s, conflict, took);
    case CheckingAck => ProbeOnTime(s, conflict, took);
    case _ =>
  }

  lemma LeaseOnTime(s: State, xid: u32)
    requires Held(s.phase) && s.lease.Armed? ==> s.now <= s.lease.at <= Latest(s)
    requires Held(s.phase) && (s.configured || s.phase != Rebinding) ==> s.now <= Latest(s)
    ensures OnTime(LeaseCallback(s, xid))
  {
    var s1 := s.(xid := xid);
    match s.phase
    case Bound => BeginOnTime(s1, Renewing, RenewRequest(s1));
    case Renewing => BeginOnTime(s1, Rebinding, RebindRequest(s1));
    case _ =>
  }

  lemma DispatchOnTime(s: State, kind: byte, learnt: Params, xid: u32)
    requires OnTime(s)
    ensures OnTime(Dispatch(s, kind, learnt, xid))
  {
    if kind == Sender.ACK && (s.phase == Renewing || s.phase == Rebinding) {
      CommitOnTime(Note(s.(p := learnt), Accepted(learnt)), true);
    }
  }

  lemma StepOnTime(s: State, e: Event)
    requires OnTime(s) && Enabled(s, e) && LeaseTimelyEvent(s, e)
    ensures OnTime(Step(s, e))
  {
    match e
    case Tick(_) =>
    case RetransmitFire(due, conflict, took, xid) =>
      RetransmitOnTime(if due then s.(retransmit := Idle) else s, conflict, took, xid);
    case LeaseFire(due, xid) => LeaseOnTime(if due then s.(lease := Idle) else s, xid);
    case Datagram(payload, xid) =>
      match ReplyOf(payload) {
        case None =>
        case Some(r) => DispatchOnTime(s, r.kind, Populate(s.p, r.yiaddr, r.options), xid);
      }
    case ForceRenew(xid) =>
      if s.phase == Bound {
        var s1 := s.(xid := xid);
        BeginOnTime(s1, Renewing, RenewRequest(s1));
      }
    case LoseInterfaceStep =>
      BoundAtUnroll(s.history, Unapplied);
      BoundAtUnroll(Unapply(s).history, Notified(OnLost));
    case RestartStep(_) =>
  }

  lemma {:induction false} RunOnTime(r: Run)
    requires Started(r) && LeaseTimely(r)
    ensures OnTime(End(r))
  {
    match r
    case From(_) =>
    case Then(b, e) =>
      RunOnTime(b);
      StepOnTime(End(b), e);
  }

  /** Whatever the interleaving, with early and stray callbacks and forced renewals anywhere, the interface is
      never configured for a held lease beyond the three wrapped periods after BOUND was last entered. With
      ordered times, or the default T1 and T2 and a lease of at least three seconds, that is never beyond the
      lease. In a quiet run the interface is never configured for anything but a held lease. */
  lemma ConfiguredOnlyWithinLease(r: Run)
    requires Started(r) && LeaseTimely(r) && End(r).configured
    ensures Quiet(r) ==> Held(End(r).phase)
    ensures var s := End(r);
            Held(s.phase) ==>
              && s.now <= BoundAt(s.history) + Budget(s.p.t1, s.p.t2, s.p.leaseTime)
              && (Ordered(s.p) || DefaultTimes(s.p) ==> s.now <= BoundAt(s.history) + 1000 * s.p.leaseTime)
  {
    RunOnTime(r);
    if Quiet(r) {
      RunInStep(r);
    }
    var p := End(r).p;
    DefaultBudgetNeverOverruns(p.leaseTime);
    if Ordered(p) {
      OrderedBudget(p.t1, p.t2, p.leaseTime);
    }
  }

  predicate Ordered(p: Params) {
    1 <= p.t1 < p.t2 < p.leaseTime
  }

  predicate DefaultTimes(p: Params) {
    p.t1 == DefaultT1(p.leaseTime) && p.t2 == DefaultT2(p.leaseTime) && p.leaseTime >= 3
  }

  // ---- the exact schedule ------------------------------------------------------------------------

  /** No lease-timer callback comes early. */
  predicate NoEarlyLeaseFire(r: Run) {
    match r
    case From(_) => true
    case Then(b, e) => NoEarlyLeaseFire(b) && (e.LeaseFire? ==> e.due)
  }

  /** The renewal under way was forced: `dmdhcp_renew` was called in BOUND since BOUND was last entered. */
  predicate Forced(r: Run)
    requires Legal(r)
  {
    match r
    case From(_) => false
    case Then(b, e) => End(r).phase != Bound && (Forced(b) || (e.ForceRenew? && End(b).phase == Bound))
  }

  predicate Punctual(s: State, forced: bool) {
    && (Held(s.phase) && s.lease.Armed? ==> s.lease.at == BoundAt(s.history) + Standing(s.phase, forced, s.p))
    && (s.phase == Bound ==> !forced)
  }

  lemma CommitPunctual(s: State, renewal: bool)
    ensures Punctual(Commit(s, renewal), false)
  {
    var h1 := After(s.history, Applied(s.p, renewal));
    BoundAtUnroll(h1, Entered(Bound, s.xid, s.now));
    BoundAtUnroll(After(h1, Entered(Bound, s.xid, s.now)), Notified(OnBound(renewal)));
  }

  lemma ProbePunctual(s: State, conflict: bool, took: nat, forced: bool)
    requires s.phase == CheckingOffer || s.phase == CheckingAck
    ensures var t := RunConflictProbe(s, conflict, took); Punctual(t, t.phase != Bound && forced)
  {
    if !conflict && s.phase == CheckingAck {
      CommitPunctual(Probe(s, conflict, took), false);
    } else {
      assert !Held(RunConflictProbe(s, conflict, took).phase);
    }
  }

  lemma RetransmitPunctual(s: State, conflict: bool, took: nat, xid: u32, forced: bool)
    requires Punctual(s, forced)
    ensures var t := RetransmitCallback(s, conflict, took, xid); Punctual(t, t.phase != Bound && forced)
  {
    match s.phase
    case Renewing => BoundAtUnroll(s.history, Sent(RenewRequest(s), s.now));
    case Rebinding => BoundAtUnroll(s.history, Sent(RebindRequest(s), s.now));
    case CheckingOffer => ProbePunctual(s, conflict, took, forced);
    case CheckingAck => ProbePunctual(s, conflict, took, forced);
    case _ =>
  }

  lemma LeasePunctual(s: State, xid: u32, forced: bool)
    requires s.lease == Idle && (Held(s.phase) ==> s.now == BoundAt(s.history) + Standing(s.phase, forced, s.p))
    requires s.phase == Bound ==> !forced
    ensures Punctual(LeaseCallback(s, xid), forced)
  {
    var s1 := s.(xid := xid);
    match s.phase
    case Bound => BeginOnTime(s1, Renewing, RenewRequest(s1));
    case Renewing => BeginOnTime(s1, Rebinding, RebindRequest(s1));
    case _ =>
  }

  lemma DispatchPunctual(s: State, kind: byte, learnt: Params, xid: u32, forced: bool)
    requires Punctual(s, forced)
    ensures var t := Dispatch(s, kind, learnt, xid); Punctual(t, t.phase != Bound && forced)
  {
    if kind == Sender.ACK && (s.phase == Renewing || s.phase == Rebinding) {
      CommitPunctual(Note(s.(p := learnt), Accepted(learnt)), true);
    }
  }

  lemma StepPunctual(s: State, e: Event, forced: bool)
    requires OnTime(s) && Punctual(s, forced) && Enabled(s, e) && (e.LeaseFire? ==> e.due)
    ensures var t := Step(s, e); Punctual(t, t.phase != Bound && (forced || (e.ForceRenew? && s.phase == Bound)))
  {
    match e
    case Tick(_) =>
    case RetransmitFire(due, conflict, took, xid) =>
      RetransmitPunctual(if due then s.(retransmit := Idle) else s, conflict, took, xid, forced);
    case LeaseFire(due, xid) => LeasePunctual(s.(lease := Idle), xid, forced);
    case Datagram(payload, xid) =>
      match ReplyOf(payload) {
        case None =>
        case Some(r) => DispatchPunctual(s, r.kind, Populate(s.p, r.yiaddr, r.options), xid, forced);
      }
    case ForceRenew(xid) =>
      if s.phase == Bound {
        var s1 := s.(xid := xid);
        BeginOnTime(s1, Renewing, RenewRequest(s1));
      }
    case LoseInterfaceStep =>
      BoundAtUnroll(s.history, Unapplied);
      BoundAtUnroll(Unapply(s).history, Notified(OnLost));
    case RestartStep(_) =>
  }

  /** In every interleaving in which no lease-timer callback is early or late, with renewals forced anywhere, the
      lease timer stands where `Standing` says. */
  lemma {:induction false} RunPunctual(r: Run)
    requires Started(r) && LeaseTimely(r) && NoEarlyLeaseFire(r)
    ensures Punctual(End(r), Forced(r))
  {
    match r
    case From(_) =>
    case Then(b, e) =>
      RunPunctual(b);
      RunOnTime(b);
      StepPunctual(End(b), e, Forced(b));
  }

  /** The times of a lease are in order and no product wraps. */
  predicate Regular(p: Params) {
    && Ordered(p)
    && Unwrapped(p.t1) && Unwrapped(p.t2 - p.t1) && Unwrapped(p.leaseTime - p.t2)
  }

  lemma StandingExact(ph: Phase, forced: bool, p: Params)
    requires Held(ph) && Regular(p) && (ph == Bound ==> !forced)
    ensures Standing(ph, forced, p)
         == 1000 * ((if ph == Bound then p.t1 else if ph == Renewing then p.t2 else p.leaseTime)
                    - if forced then p.t2 - p.t1 else 0)
  {
    WrapShrinks(p.t1 * 1000);
    WrapShrinks((p.t2 - p.t1) * 1000);
    WrapShrinks((p.leaseTime - p.t2) * 1000);
  }

  /** The schedule of a lease (section 4.4.5 of RFC 2131): with regular times, renewing begins exactly T1,
      rebinding exactly T2, and the loss exactly the lease time after BOUND was entered, unless the renewal was
      forced; then rebinding and the loss both come exactly T2 - T1 early. */
  lemma LeaseSchedule(r: Run, xid: u32)
    requires Started(r) && LeaseTimely(r) && NoEarlyLeaseFire(r) && Held(End(r).phase)
    requires Enabled(End(r), LeaseFire(true, xid)) && Regular(End(r).p)
    ensures var s, t := End(r), Step(End(r), LeaseFire(true, xid));
            var since := s.now - BoundAt(s.history);
            var skipped := if Forced(r) then s.p.t2 - s.p.t1 else 0;
            match s.phase
            case Bound => t.phase == Renewing && since == 1000 * s.p.t1
            case Renewing => t.phase == Rebinding && since == 1000 * (s.p.t2 - skipped)
            case _ => t.entering == s.entering + 1 && since == 1000 * (s.p.leaseTime - skipped)
  {
    RunPunctual(r);
    RunOnTime(r);
    StandingExact(End(r).phase, Forced(r), End(r).p);
  }

  /** Rebinding begins at T2, and an unanswered lease lasts its full time, if and only if the renewal was not
      forced. */
  lemma FullLeaseUnlessForced(r: Run, xid: u32)
    requires Started(r) && LeaseTimely(r) && NoEarlyLeaseFire(r)
    requires End(r).phase == Renewing || End(r).phase == Rebinding
    requires Enabled(End(r), LeaseFire(true, xid)) && Regular(End(r).p)
    ensures var s := End(r);
            !Forced(r)
            <==> s.now == BoundAt(s.history) + 1000 * if s.phase == Renewing then s.p.t2 else s.p.leaseTime
  {
    LeaseSchedule(r, xid);
  }

  /** An unanswered lease is kept for exactly the three periods, whatever its times. It outlives what the server
      granted exactly when the times are out of order (short of the wrapping range). */
  lemma KeptForThreePeriods(r: Run, xid: u32)
    requires Started(r) && LeaseTimely(r) && NoEarlyLeaseFire(r) && !Forced(r)
    requires End(r).phase == Rebinding && Enabled(End(r), LeaseFire(true, xid))
    ensures Quiet(r) && End(r).inside == 0 ==> End(r).configured
    ensures var s := End(r);
            && s.now == BoundAt(s.history) + Budget(s.p.t1, s.p.t2, s.p.leaseTime)
            && (Unwrapped(s.p.t1) && Unwrapped(s.p.t2) && Unwrapped(s.p.leaseTime) ==>
                  (s.now <= BoundAt(s.history) + 1000 * s.p.leaseTime <==> Ordered(s.p)))
  {
    RunPunctual(r);
    RunOnTime(r);
    if Quiet(r) {
      RunInStep(r);
    }
    var p := End(r).p;
    if Unwrapped(p.t1) && Unwrapped(p.t2) && Unwrapped(p.leaseTime) {
      BudgetFitsExactlyWhenOrdered(p.t1, p.t2, p.leaseTime);
    }
  }

  // ---- the pause after a conflict ----------------------------------------------------------------

  /** When the current phase was entered. */
  function EnteredAt(h: History): nat {
    match h
    case Nothing => 0
    case After(past, o) => if o.Entered? then o.at else EnteredAt(past)
  }

  /** In DECLINING the retransmit timer stands for the full pause after the entry. */
  predicate Pausing(s: State) {
    s.phase == Declining ==> s.retransmit == Armed(EnteredAt(s.history) + DECLINE_PAUSE_MS)
  }

  lemma ConflictPausing(s: State)
    ensures Pausing(HandleConflict(s))
  {
  }

  lemma RetransmitPausing(s: State, conflict: bool, took: nat, xid: u32)
    ensures Pausing(RetransmitCallback(s, conflict, took, xid))
  {
    var t := RetransmitCallback(s, conflict, took, xid);
    if t.phase == Declining {
      ConflictPausing(Probe(s, conflict, took));
    }
  }

  lemma DispatchPausing(s: State, kind: byte, learnt: Params, xid: u32)
    ensures s.phase == Declining || Dispatch(s, kind, learnt, xid).phase == Declining ==>
              Dispatch(s, kind, learnt, xid) == s
  {
  }

  lemma LossPausing(s: State)
    requires Pausing(s) && s.entering > 0
    ensures Pausing(Step(s, LoseInterfaceStep))
  {
    assert EnteredAt(Unapply(s).history) == EnteredAt(s.history);
  }

  lemma StepPausing(s: State, e: Event)
    requires Pausing(s) && Enabled(s, e)
    ensures Pausing(Step(s, e))
    ensures s.phase == Declining && Step(s, e).phase != Declining ==> e.RetransmitFire? || e.RestartStep?
  {
    match e
    case Tick(_) =>
    case RetransmitFire(due, conflict, took, xid) =>
      RetransmitPausing(if due then s.(retransmit := Idle) else s, conflict, took, xid);
    case Datagram(payload, xid) =>
      match ReplyOf(payload) {
        case None =>
        case Some(r) => DispatchPausing(s, r.kind, Populate(s.p, r.yiaddr, r.options), xid);
      }
    case LoseInterfaceStep => LossPausing(s);
    case _ =>
  }

  lemma {:induction false} RunPausing(r: Run)
    requires Started(r)
    ensures Pausing(End(r))
  {
    match r
    case From(_) =>
    case Then(b, e) =>
      RunPausing(b);
      StepPausing(End(b), e);
  }

  /** After a DECLINE the client waits out the pause: in every interleaving the only step that leaves DECLINING
      is a retransmit callback, and it is due exactly from ten seconds after the entry on. A stray callback cuts
      the pause short, and so does, outside quiet runs, the end of an earlier loss. */
  lemma PauseAfterDecline(r: Run, e: Event)
    requires Started(Then(r, e))
    requires End(r).phase == Declining && End(Then(r, e)).phase != Declining
    ensures e.RetransmitFire? || (e.RestartStep? && !Quiet(r))
    ensures Due(End(r).retransmit, End(r).now) <==> End(r).now >= EnteredAt(End(r).history) + 10000
    ensures e.RetransmitFire? && e.due ==> End(r).now >= EnteredAt(End(r).history) + 10000
  {
    RunPausing(r);
    StepPausing(End(r), e);
    if Quiet(r) {
      RunInStep(r);
    }
  }
}
