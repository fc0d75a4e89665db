/** What a caller sees of a lease: its information, its end, and its failure; and the one place where the
    two critical sections of a loss let the interface and the lease drift apart. */
module Teardown {
  import opened Net
  import opened LeaseParams
  import opened Machine
  import opened Interface
  import opened Agreement
  import opened Silence
  import opened Reachability
  import Sender

  // ---- lease information -------------------------------------------------------------------------

  /** `dmdhcp_get_lease_info`; `None` is -EINVAL. */
  function LeaseInfo(s: State): Option<Params> {
    if Held(s.phase) then Some(s.p) else None
  }

  /** Outside the handling of a loss, a caller is told of a lease exactly while the interface shows one,
      and it is the same one. */
  lemma InfoMatchesInterface(r: Run)
    requires Started(r) && Quiet(r) && End(r).inside == 0
    ensures var s := End(r);
            && (LeaseInfo(s).Some? <==> s.configured)
            && (s.configured ==>
                  && s.iface.ip == LeaseInfo(s).value.ip && s.iface.mask == LeaseInfo(s).value.mask
                  && (s.iface.mask.V4? ==> s.iface.broadcast == V4(Broadcast(Raw(s.iface.ip), Raw(s.iface.mask)))))
  {
    RunInStep(r);
  }

  /** Whenever `stop` or `release` is called, in every interleaving, the interface ends up de-configured, or as
      it was found if no lease was ever applied. */
  lemma TeardownDeconfigures(r: Run)
    requires Started(r)
    ensures var s := End(r);
            var left := if LastApplied(s.history).Some? then DECONFIGURED else Root(r).iface;
            && Stop(s).iface == left && !Stop(s).configured && Stop(s).route == None
            && Release(s).iface == left && !Release(s).configured && Release(s).route == None
  {
    RunKept(r);
  }

  // ---- failure -----------------------------------------------------------------------------------

  /** In every interleaving the conflict counter counts the DECLINE messages since the start or since BOUND was
      last entered. In a quiet run it is at most three until the fourth one, which is the failure. */
  lemma ConflictsAreBounded(r: Run)
    requires Started(r)
    ensures var s := End(r);
            && s.declines == Declines(s.history)
            && (Quiet(r) ==> s.declines <= 4 && (s.declines == 4 <==> s.phase == Failed))
  {
    RunKept(r);
    if Quiet(r) {
      RunInStep(r);
    }
  }

  /** All but the clock and the timers. */
  predicate SameLease(s: State, t: State) {
    t == s.(now := t.now, retransmit := t.retransmit, lease := t.lease)
  }

  /** FAILED is left only by a thread that was handling a loss when the lease failed. Without one, only the
      clock and spent timers change. */
  lemma FailedIsFinal(s: State, e: Event)
    requires s.phase == Failed && Enabled(s, e)
    ensures Step(s, e).phase == Failed <==> !e.RestartStep?
    ensures !e.RestartStep? && !e.LoseInterfaceStep? ==> SameLease(s, Step(s, e))
  {
    if e.Datagram? {
      FailedIsDeaf(s, e.payload, e.xid);
    }
  }

  lemma FailedIsDeaf(s: State, payload: seq<byte>, xid: u32)
    requires s.phase == Failed
    ensures Deliver(s, payload, xid) == s
  {
    match ReplyOf(payload)
    case None =>
    case Some(r) => FailedIgnores(s, r.kind, Populate(s.p, r.yiaddr, r.options), xid);
  }

  lemma FailedIgnores(s: State, kind: byte, learnt: Params, xid: u32)
    requires s.phase == Failed
    ensures Dispatch(s, kind, learnt, xid) == s
  {
  }

  /** Once a lease has failed and no loss is being handled, no continuation at all changes its phase, its
      interface or its history. */
  lemma {:induction false} FailedForGood(r: Run)
    requires Legal(r) && Root(r).phase == Failed && Root(r).entering == Root(r).inside == 0
    ensures SameLease(Root(r), End(r))
  {
    match r
    case From(_) =>
    case Then(b, e) =>
      FailedForGood(b);
      FailedIsFinal(End(b), e);
  }

  // ---- the window inside a loss ------------------------------------------------------------------

  lemma DispatchDuringLoss(s: State, kind: byte, learnt: Params, x: u32, y: u32)
    requires InStep(s) && s.inside == 1
    ensures var t := StartDiscovery(Dispatch(s, kind, learnt, x), y);
            && t.phase == Selecting && (t.configured <==> kind == Sender.ACK)
            && (kind == Sender.ACK ==> t.iface.ip == learnt.ip)
  {
    if kind == Sender.ACK {
      assert Dispatch(s, kind, learnt, x) == Commit(Note(s.(p := learnt), Accepted(learnt)), true);
    }
  }

  /** A message that arrives between the two critical sections of a loss: if it is an ACK, discovery then
      starts with the interface configured for its address, and this is the only message that has this
      effect. */
  lemma MessageDuringLoss(s: State, payload: seq<byte>, x: u32, y: u32)
    requires InStep(s) && s.inside == 1 && ReplyOf(payload).Some?
    ensures Deliver(s, payload, x).inside == 1
    ensures var t, reply := Step(Deliver(s, payload, x), RestartStep(y)), ReplyOf(payload).value;
            && t.phase == Selecting && (t.configured <==> reply.kind == Sender.ACK)
            && (reply.kind == Sender.ACK ==> t.iface.ip == reply.yiaddr)
  {
    var r := ReplyOf(payload).value;
    DispatchDuringLoss(s, r.kind, Populate(s.p, r.yiaddr, r.options), x, y);
  }

  /** A rebinding lease whose timer callback runs is inside a loss two steps later. */
  lemma LossOpensWindow(r: Run)
    requires Started(r) && Quiet(r) && End(r).phase == Rebinding && End(r).entering == End(r).inside == 0
    ensures var w := Then(Then(r, LeaseFire(false, 0)), LoseInterfaceStep);
            Started(w) && Quiet(w) && End(w).inside == 1
  {
    Onward(r, LeaseFire(false, 0));
    Onward(Then(r, LeaseFire(false, 0)), LoseInterfaceStep);
  }

  /** The window is within reach of every quiet run that is rebinding: an ACK there leaves the run searching
      for a server with the old address still on the interface. */
  lemma InterfaceCanOutliveLease(r: Run, payload: seq<byte>)
    requires Started(r) && Quiet(r) && End(r).phase == Rebinding && End(r).entering == End(r).inside == 0
    requires ReplyOf(payload).Some? && ReplyOf(payload).value.kind == Sender.ACK
    ensures var w := Then(Then(r, LeaseFire(false, 0)), LoseInterfaceStep);
            var t := Then(Then(w, Datagram(payload, 0)), RestartStep(0));
            Started(t) && End(t).phase == Selecting && End(t).configured
  {
    LossOpensWindow(r);
    AckInWindow(Then(Then(r, LeaseFire(false, 0)), LoseInterfaceStep), payload);
  }

  lemma AckInWindow(w: Run, payload: seq<byte>)
    requires Started(w) && Quiet(w) && End(w).inside == 1
    requires ReplyOf(payload).Some? && ReplyOf(payload).value.kind == Sender.ACK
    ensures var t := Then(Then(w, Datagram(payload, 0)), RestartStep(0));
            Started(t) && End(t).phase == Selecting && End(t).configured
  {
    RunInStep(w);
    MessageDuringLoss(End(w), payload, 0, 0);
    Onward(w, Datagram(payload, 0));
    Onward(Then(w, Datagram(payload, 0)), RestartStep(0));
  }

  /** And there it stays: as long as the network is silent nothing takes the address off the interface again. */
  lemma {:induction false} OrphanStays(r: Run)
    requires Legal(r) && Silent(r)
    requires Root(r).phase == Selecting && Root(r).configured && Root(r).entering == Root(r).inside == 0
    ensures var s := End(r);
            s.phase == Selecting && s.configured && s.iface == Root(r).iface && s.entering == s.inside == 0
  {
    if r.Then? {
      OrphanStays(r.before);
    }
  }
}
