/** Runs that show where the client falls short of what one might expect of it. Each is a run of a started
    lease with messages given as bytes, on any interface and for any address. */
module Counterexamples {
  import opened Net
  import opened Timing
  import opened LeaseParams
  import opened Machine
  import opened Agreement
  import opened Reachability
  import opened AddressSafety
  import Callbacks
  import Deadline
  import Sender
  import Teardown

  // ---- a lease of three seconds, on time ---------------------------------------------------------

  /** A quiet and timely run without stray callbacks of the lease timer, which is one second away. */
  ghost predicate OnSchedule(r: Run, ph: Phase) {
    Started(r) && Quiet(r) && Timely(r) && Deadline.NoEarlyLeaseFire(r) && Waiting(End(r), ph)
  }

  predicate Waiting(s: State, ph: Phase) {
    && s.phase == ph && s.entering == s.inside == 0
    && s.p.t1 == 1 && s.p.t2 == 2 && s.p.leaseTime == 3
    && s.lease == Armed(s.now + 1000) && NotPast(s.retransmit, s.now + 1000)
  }

  /** An acknowledged reboot waits for its probe. */
  predicate AwaitingProbe(s: State, ip: Quad) {
    && s.phase == CheckingAck && s.entering == s.inside == 0 && Short(s.p, ip)
    && s.retransmit == Armed(s.now + PROBE_HANDOFF_MS) && s.lease == Idle
  }

  lemma AckStep(s: State, learnt: Params, ip: Quad)
    requires s.phase == Rebooting && s.entering == s.inside == 0 && s.lease == Idle && Short(learnt, ip)
    ensures AwaitingProbe(Dispatch(s, Sender.ACK, learnt, s.xid), ip)
  {
  }

  lemma TimedAck(iface: Iface, ip: Quad) returns (r: Run)
    ensures Started(r) && Quiet(r) && Timely(r) && Deadline.NoEarlyLeaseFire(r) && AwaitingProbe(End(r), ip)
  {
    r := Remembering(iface, ip);
    var e, learnt := Answered(r, Sender.ACK, ip);
    AckStep(End(r), learnt, ip);
    r := Then(r, e);
  }

  lemma CleanStep(s: State)
    requires s.phase == CheckingAck && s.entering == s.inside == 0 && Due(s.retransmit, s.now)
    requires s.p.t1 == 1 && s.p.t2 == 2 && s.p.leaseTime == 3
    ensures Waiting(Step(s, RetransmitFire(true, false, 0, 0)), Bound)
  {
    assert Step(s, RetransmitFire(true, false, 0, 0)) == Commit(Probe(s.(retransmit := Idle), false, 0), false);
  }

  lemma TimedBound(iface: Iface, ip: Quad) returns (r: Run)
    ensures OnSchedule(r, Bound)
  {
    r := TimedAck(iface, ip);
    Onward(r, Tick(PROBE_HANDOFF_MS));
    r := Then(r, Tick(PROBE_HANDOFF_MS));
    Onward(r, RetransmitFire(true, false, 0, 0));
    CleanStep(End(r));
    r := Then(r, RetransmitFire(true, false, 0, 0));
  }

  /** The same lease a second later. */
  predicate Expiring(s: State, ph: Phase) {
    && s.phase == ph && s.entering == s.inside == 0
    && s.p.t1 == 1 && s.p.t2 == 2 && s.p.leaseTime == 3
    && s.lease == Armed(s.now) && NotPast(s.retransmit, s.now)
  }

  ghost predicate DueNow(r: Run, ph: Phase) {
    Started(r) && Quiet(r) && Timely(r) && Deadline.NoEarlyLeaseFire(r) && Expiring(End(r), ph)
  }

  lemma TimedTick(r: Run, ph: Phase) returns (q: Run)
    requires OnSchedule(r, ph)
    ensures DueNow(q, ph) && (Deadline.Forced(q) <==> ph != Bound && Deadline.Forced(r))
  {
    Onward(r, Tick(1000));
    q := Then(r, Tick(1000));
  }

  lemma FireStep(s: State, ph: Phase)
    requires (ph == Bound || ph == Renewing) && Expiring(s, ph)
    ensures Waiting(Step(s, LeaseFire(true, 0)), if ph == Bound then Renewing else Rebinding)
  {
  }

  /** The lease timer runs out. */
  lemma TimedFire(r: Run, ph: Phase) returns (q: Run)
    requires (ph == Bound || ph == Renewing) && DueNow(r, ph)
    ensures OnSchedule(q, if ph == Bound then Renewing else Rebinding)
    ensures Deadline.Forced(q) == Deadline.Forced(r)
  {
    FireStep(End(r), ph);
    Onward(r, LeaseFire(true, 0));
    q := Then(r, LeaseFire(true, 0));
  }

  /** A second after rebinding began the lease is lost, and the thread that handles it waits for the lock. */
  lemma TimedLoss(r: Run) returns (q: Run)
    requires OnSchedule(r, Rebinding)
    ensures Started(q) && Quiet(q) && Timely(q) && End(q).entering == 0 && End(q).inside == 1
  {
    q := TimedTick(r, Rebinding);
    Onward(q, LeaseFire(true, 0));
    q := Then(q, LeaseFire(true, 0));
    LossStep(End(q));
    Onward(q, LoseInterfaceStep);
    q := Then(q, LoseInterfaceStep);
  }

  lemma TimedWindow(iface: Iface, ip: Quad) returns (r: Run)
    ensures Started(r) && Quiet(r) && Timely(r) && End(r).entering == 0 && End(r).inside == 1
  {
    r := TimedBound(iface, ip);
    r := TimedTick(r, Bound);
    r := TimedFire(r, Bound);
    r := TimedTick(r, Renewing);
    r := TimedFire(r, Renewing);
    r := TimedLoss(r);
  }

  // ---- the window inside a loss ------------------------------------------------------------------

  /** A lease of three seconds that runs out on time while the server's late ACK arrives: the client searches
      for a server with the address still on the interface. */
  lemma AddressLeftBehind(iface: Iface, ip: Quad) returns (r: Run)
    ensures Started(r) && Timely(r) && !Quiet(r)
    ensures var s := End(r);
            s.phase == Selecting && s.configured && s.iface.ip == V4(ip) && s.entering == s.inside == 0
  {
    r := TimedWindow(iface, ip);
    RunInStep(r);
    var e, learnt := Answered(r, Sender.ACK, ip);
    DispatchMoves(End(r), Sender.ACK, learnt, End(r).xid);
    Teardown.DispatchDuringLoss(End(r), Sender.ACK, learnt, End(r).xid, 0);
    r := Then(r, e);
    Onward(r, RestartStep(0));
    r := Then(r, RestartStep(0));
  }

  /** The same with a NAK: the application is told of one loss twice. */
  lemma LossToldTwice(iface: Iface, ip: Quad) returns (r: Run)
    ensures Started(r) && Timely(r) && !Quiet(r) && Heard(End(r).history) == Confused
  {
    r := TimedWindow(iface, ip);
    RunInStep(r);
    var e := Lost(r, ip);
    r := Then(r, e);
    Onward(r, LoseInterfaceStep);
    Callbacks.LossTells(End(r));
    r := Then(r, LoseInterfaceStep);
  }

  /** A search with `n` conflicts so far while another thread is still handling a loss. */
  predicate LateSearch(s: State, n: nat) {
    s.phase == Selecting && s.declines == n && s.entering == 0 && s.inside == 1
  }

  /** An expiry, handled by the worker of the lease timer, and a NAK, handled by the thread that receives it, are
      two losses. */
  lemma ExpiryAndNak(iface: Iface, ip: Quad) returns (r: Run)
    ensures Started(r) && End(r).phase == Rebinding && End(r).declines == 0
    ensures End(r).entering == 2 && End(r).inside == 0
  {
    r := ToRebinding(iface, ip);
    Onward(r, LeaseFire(false, 0));
    r := Then(r, LeaseFire(false, 0));
    var e := Lost(r, ip);
    r := Then(r, e);
  }

  lemma TwoLosses(iface: Iface, ip: Quad) returns (r: Run)
    ensures Started(r) && LateSearch(End(r), 0)
  {
    r := ExpiryAndNak(iface, ip);
    Onward(r, LoseInterfaceStep);
    LossStep(End(r));
    r := Then(r, LoseInterfaceStep);
    Onward(r, LoseInterfaceStep);
    LossStep(End(r));
    r := Then(r, LoseInterfaceStep);
    Onward(r, RestartStep(0));
    r := Then(r, RestartStep(0));
  }

  /** An OFFER and a conflict. */
  lemma LateConflict(r: Run, ip: Quad, n: nat) returns (q: Run)
    requires Started(r) && LateSearch(End(r), n)
    ensures Started(q) && End(q).entering == 0 && End(q).inside == 1 && End(q).declines == n + 1
    ensures End(q).phase == if n < MAX_DECLINE_RETRIES then Declining else Failed
  {
    var e, learnt := Answered(r, Sender.OFFER, ip);
    DispatchMoves(End(r), Sender.OFFER, learnt, End(r).xid);
    q := Then(r, e);
    e := RetransmitFire(false, true, 0, 0);
    Onward(q, e);
    ProbeStep(End(q), true);
    q := Then(q, e);
  }

  lemma {:induction false} LateConflicts(iface: Iface, ip: Quad, n: nat) returns (r: Run)
    requires n <= MAX_DECLINE_RETRIES
    ensures Started(r) && LateSearch(End(r), n)
  {
    if n == 0 {
      r := TwoLosses(iface, ip);
    } else {
      r := LateConflicts(iface, ip, n - 1);
      r := LateConflict(r, ip, n - 1);
      PauseStep(End(r));
      r := Then(r, RetransmitFire(false, false, 0, 0));
    }
  }

  /** A failure is undone by a thread that was late in handling a loss. */
  lemma FailureUndone(iface: Iface, ip: Quad) returns (r: Run, e: Event)
    ensures Started(Then(r, e)) && End(r).phase == Failed && End(Then(r, e)).phase == Selecting
  {
    r := LateConflicts(iface, ip, MAX_DECLINE_RETRIES);
    r := LateConflict(r, ip, MAX_DECLINE_RETRIES);
    e := RestartStep(0);
  }

  // ---- quiet runs --------------------------------------------------------------------------------

  /** A stray callback ends the pause after a conflict at once. */
  lemma PauseCutShort(iface: Iface, ip: Quad) returns (r: Run, e: Event)
    ensures Started(Then(r, e)) && Quiet(Then(r, e)) && e.RetransmitFire? && !e.due
    ensures End(r).phase == Declining && End(Then(r, e)).phase == Selecting
    ensures End(Then(r, e)).now == Deadline.EnteredAt(End(r).history)
  {
    r := ToCheckingOffer(iface, ip, 0);
    e := RetransmitFire(false, true, 0, 0);
    Onward(r, e);
    ProbeStep(End(r), true);
    r := Then(r, e);
    Deadline.RunPausing(r);
    e := RetransmitFire(false, false, 0, 0);
    Onward(r, e);
    PauseStep(End(r));
  }

  lemma ForcedRenewing(iface: Iface, ip: Quad) returns (r: Run)
    ensures OnSchedule(r, Renewing) && Deadline.Forced(r)
  {
    r := TimedBound(iface, ip);
    Onward(r, ForceRenew(0));
    r := Then(r, ForceRenew(0));
  }

  /** A forced renewal costs a second of three: with nobody answering, the lease is given up after two. */
  lemma LeaseCutShort(iface: Iface, ip: Quad) returns (r: Run)
    ensures Started(r) && Quiet(r) && Timely(r) && Deadline.NoEarlyLeaseFire(r)
    ensures var s := End(r);
            && s.phase == Rebinding && s.entering == 0 && s.p.leaseTime == 3 && Due(s.lease, s.now)
            && s.now == Deadline.BoundAt(s.history) + 2000 && Step(s, LeaseFire(true, 0)).entering == 1
  {
    r := ForcedRenewing(iface, ip);
    r := TimedTick(r, Renewing);
    r := TimedFire(r, Renewing);
    r := TimedTick(r, Rebinding);
    Deadline.TimelyIsLeaseTimely(r);
    Deadline.LeaseSchedule(r, 0);
  }

  predicate Unprobed(s: State, b: Quad) {
    !ProbedClean(s.history, V4(b))
  }

  lemma StartUnprobed(iface: Iface, a: Quad, b: Quad)
    ensures Unprobed(Start(iface, 0, V4(a), 0), b)
  {
    var h1 := After(Nothing, Entered(Rebooting, 0, 0));
    NothingProbed(Nothing, h1.last, V4(b));
    NothingProbed(h1, Start(iface, 0, V4(a), 0).history.last, V4(b));
  }

  lemma AcceptUnprobed(s: State, learnt: Params, b: Quad)
    requires s.phase == Rebooting && Unprobed(s, b)
    ensures var t := Dispatch(s, Sender.ACK, learnt, s.xid); Unprobed(t, b) && t.p == learnt
  {
    var h1 := After(s.history, Accepted(learnt));
    NothingProbed(s.history, h1.last, V4(b));
    NothingProbed(h1, Entered(CheckingAck, s.xid, s.now), V4(b));
  }

  lemma ToCheckUnprobed(iface: Iface, a: Quad, b: Quad) returns (r: Run)
    ensures At(r, CheckingAck, 0) && Unprobed(End(r), b) && End(r).p.ip == V4(a)
  {
    r := Remembering(iface, a);
    StartUnprobed(iface, a, b);
    var e, learnt := Answered(r, Sender.ACK, a);
    AcceptUnprobed(End(r), learnt, b);
    DispatchMoves(End(r), Sender.ACK, learnt, End(r).xid);
    r := Then(r, e);
  }

  lemma CommitUnprobed(s: State, a: Quad, b: Quad)
    requires s.phase == CheckingAck && Unprobed(s, b) && s.p.ip == V4(a) && a != b
    ensures Unprobed(Step(s, RetransmitFire(false, false, 0, 0)), b)
  {
    var s1 := Probe(s, false, 0);
    assert Unprobed(s1, b);
    var h1 := After(s1.history, Applied(s.p, false));
    var h2 := After(h1, Entered(Bound, s.xid, s1.now));
    NothingProbed(s1.history, h1.last, V4(b));
    NothingProbed(h1, h2.last, V4(b));
    NothingProbed(h2, Notified(OnBound(false)), V4(b));
    assert Step(s, RetransmitFire(false, false, 0, 0)) == Commit(s1, false);
  }

  lemma RenewUnprobed(s: State, b: Quad)
    requires s.phase == Bound && Unprobed(s, b)
    ensures Unprobed(Step(s, ForceRenew(0)), b)
  {
    var h1 := After(s.history, Entered(Renewing, 0, s.now));
    NothingProbed(s.history, h1.last, V4(b));
    NothingProbed(h1, Sent(RenewRequest(s.(xid := 0)), s.now), V4(b));
  }

  lemma ToRenewUnprobed(iface: Iface, a: Quad, b: Quad) returns (r: Run)
    requires a != b
    ensures At(r, Renewing, 0) && Unprobed(End(r), b)
  {
    r := ToCheckUnprobed(iface, a, b);
    var e := RetransmitFire(false, false, 0, 0);
    Onward(r, e);
    CommitUnprobed(End(r), a, b);
    ProbeStep(End(r), false);
    r := Then(r, e);
    e := ForceRenew(0);
    Onward(r, e);
    RenewUnprobed(End(r), b);
    r := Then(r, e);
  }

  /** A lease acquired for one address and renewed for another: the second is on the interface, and nothing
      ever probed it. */
  lemma UnprobedAddressInUse(iface: Iface, a: Quad, b: Quad) returns (r: Run)
    requires a != b
    ensures At(r, Bound, 0) && End(r).configured && End(r).iface.ip == V4(b)
    ensures !ProbedClean(End(r).history, V4(b)) && !AllProbed(End(r).history)
  {
    r := ToRenewUnprobed(iface, a, b);
    var e, learnt := Answered(r, Sender.ACK, b);
    DispatchMoves(End(r), Sender.ACK, learnt, End(r).xid);
    RenewalIsNotProbed(End(r), learnt, End(r).xid);
    r := Then(r, e);
  }
}
