/** A silent network: no message arrives and no call is made, so that only the clock and due timers act. */
module Silence {
  import opened Net
  import opened Timing
  import opened Machine
  import Sender

  predicate SilentEvent(e: Event) {
    match e
    case Tick(_) => true
    case RetransmitFire(due, _, _, _) => due
    case LeaseFire(due, _) => due
    case LoseInterfaceStep => true
    case RestartStep(_) => true
    case _ => false
  }

  /** The application's callback about a loss returns at once. */
  predicate PromptEvent(s: State, e: Event) {
    e.Tick? && e.ms > 0 ==> s.inside == 0
  }

  /** A timely run in silence, with a prompt application. */
  predicate Silent(r: Run)
    requires Legal(r)
  {
    match r
    case From(_) => true
    case Then(b, e) =>
      Silent(b) && SilentEvent(e) && TimelyEvent(End(b), e) && PromptEvent(End(b), e)
  }

  // ---- an unanswered request ---------------------------------------------------------------------

  /** When, after the first request, the `k`-th resend is due. */
  function Offset(k: nat): nat {
    RETRANSMIT_INITIAL_MS * (Pow2(k) - 1)
  }

  lemma OffsetStep(k: nat)
    requires k <= 4
    ensures Offset(k + 1) == Offset(k) + RETRANSMIT_INITIAL_MS * Pow2(k)
    ensures RETRANSMIT_INITIAL_MS * Pow2(k) <= RETRANSMIT_MAX_MS
    ensures k < 4 ==> NextBackoff(RETRANSMIT_INITIAL_MS * Pow2(k)) == RETRANSMIT_INITIAL_MS * Pow2(k + 1)
    ensures Offset(5) == 124000
  {
    assert Pow2(0) == 1 && Pow2(1) == 2 && Pow2(2) == 4 && Pow2(3) == 8;
    assert Pow2(4) == 16;
    assert Pow2(5) == 32;
  }

  /** A history followed by `k` resends of `m`, each when it is due. */
  function Resent(h: History, m: Sender.Outgoing, start: nat, k: nat): History {
    if k == 0 then h else After(Resent(h, m, start, k - 1), Sent(m, start + Offset(k)))
  }

  predicate Extends(h: History, g: History) {
    h == g || (h.After? && Extends(h.past, g))
  }

  /** A lease that has just sent its first request. */
  predicate JustRequested(s: State) {
    && (s.phase == Requesting || s.phase == Rebooting)
    && s.count == 0 && s.interval == RETRANSMIT_INITIAL_MS
    && s.retransmit == Armed(s.now + RETRANSMIT_INITIAL_MS)
    && s.history.After? && s.history.last == Sent(RequestOf(s), s.now)
    && s.entering == 0 && s.inside == 0
  }

  function RequestOf(s: State): Sender.Outgoing {
    if s.phase == Requesting then SelectingRequest(s) else RebootRequest(s)
  }

  /** So does every request phase begin: after a clean probe of an offer, and on a start with a remembered
      address. */
  lemma RequestPhasesBegin(s: State, took: nat, iface: Iface, now: nat, requested: Addr, xid: u32)
    requires s.phase == CheckingOffer && s.entering == 0 && s.inside == 0 && requested.V4?
    ensures JustRequested(RunConflictProbe(s, false, took)) && JustRequested(Start(iface, now, requested, xid))
  {
  }

  predicate StillAsking(s: State, s0: State) {
    && s.phase == s0.phase && s.xid == s0.xid && s.p == s0.p && s.entering == 0 && s.inside == 0
    && s.count <= 4 && s.interval == RETRANSMIT_INITIAL_MS * Pow2(s.count)
    && s.history == Resent(s0.history, RequestOf(s0), s0.now, s.count)
    && s.retransmit == Armed(s0.now + Offset(s.count + 1))
    && s0.now + Offset(s.count) <= s.now <= s0.now + Offset(s.count + 1)
  }

  /** Four resends, then the entry into a new search. */
  function Abandoned(s0: State, xid: u32): History {
    After(Resent(s0.history, RequestOf(s0), s0.now, 4), Entered(Selecting, xid, s0.now + 124000))
  }

  ghost predicate GaveUp(s: State, s0: State) {
    && s.phase == Selecting && s.entering == 0 && s.inside == 0 && s.now >= s0.now + 124000
    && exists xid :: Extends(s.history, Abandoned(s0, xid))
  }

  lemma ResendStep(s: State, s0: State, e: Event)
    requires JustRequested(s0) && StillAsking(s, s0) && s.count < 4
    requires Enabled(s, e) && SilentEvent(e) && e.RetransmitFire?
    ensures StillAsking(Step(s, e), s0)
  {
    var s1 := s.(retransmit := Idle, count := s.count + 1);
    assert Step(s, e) == RearmBackoff(Send(s1, RequestOf(s1)));
    ResendAsks(s, s0);
  }

  lemma ResendAsks(s: State, s0: State)
    requires StillAsking(s, s0) && s.count < 4 && Due(s.retransmit, s.now)
    requires s0.phase == Requesting || s0.phase == Rebooting
    ensures var s1 := s.(retransmit := Idle, count := s.count + 1);
            StillAsking(RearmBackoff(Send(s1, RequestOf(s1))), s0)
  {
    OffsetStep(s.count);
    OffsetStep(s.count + 1);
    var s1 := s.(retransmit := Idle, count := s.count + 1);
    assert RequestOf(s1) == RequestOf(s0) && s.now == s0.now + Offset(s.count + 1);
    assert NextBackoff(s.interval) == RETRANSMIT_INITIAL_MS * Pow2(s.count + 1);
    assert Send(s1, RequestOf(s1)).history == Resent(s0.history, RequestOf(s0), s0.now, s.count + 1);
  }

  lemma LastTimeoutStep(s: State, s0: State, e: Event)
    requires JustRequested(s0) && StillAsking(s, s0) && s.count == 4
    requires Enabled(s, e) && SilentEvent(e) && e.RetransmitFire?
    ensures GaveUp(Step(s, e), s0)
  {
    OffsetStep(4);
    var t := Step(s, e);
    assert t.history.past == Abandoned(s0, e.xid);
    assert Extends(t.history.past, Abandoned(s0, e.xid));
  }

  lemma AskingStep(s: State, s0: State, e: Event)
    requires JustRequested(s0) && StillAsking(s, s0)
    requires Enabled(s, e) && SilentEvent(e) && TimelyEvent(s, e)
    ensures StillAsking(Step(s, e), s0) || GaveUp(Step(s, e), s0)
  {
    if e.RetransmitFire? {
      if s.count == 4 {
        LastTimeoutStep(s, s0, e);
      } else {
        ResendStep(s, s0, e);
      }
    }
  }

  lemma GaveUpStep(s: State, s0: State, e: Event)
    requires GaveUp(s, s0) && Enabled(s, e) && SilentEvent(e)
    ensures GaveUp(Step(s, e), s0)
  {
  }

  lemma {:induction false} AskingRun(r: Run)
    requires Legal(r) && Silent(r) && JustRequested(Root(r))
    ensures StillAsking(End(r), Root(r)) || GaveUp(End(r), Root(r))
  {
    match r
    case From(s) => assert Pow2(0) == 1 && Pow2(1) == 2;
    case Then(b, e) =>
      AskingRun(b);
      if StillAsking(End(b), Root(r)) {
        AskingStep(End(b), Root(r), e);
      } else {
        GaveUpStep(End(b), Root(r), e);
      }
  }

  lemma OffsetGrows(k: nat)
    requires k <= 5
    ensures Offset(k) <= 124000
  {
    OffsetStep(0);
    OffsetStep(1);
    OffsetStep(2);
    OffsetStep(3);
    OffsetStep(4);
  }

  lemma AskingEnds(s: State, s0: State)
    requires StillAsking(s, s0) || GaveUp(s, s0)
    ensures s.now < s0.now + 124000 ==> StillAsking(s, s0)
    ensures s.now > s0.now + 124000 ==> GaveUp(s, s0)
  {
    if StillAsking(s, s0) {
      OffsetGrows(s.count + 1);
    }
  }

  /** An unanswered request is sent five times under one transaction identifier, at 0, 4, 12, 28 and 60
      seconds, and given up for a new search at exactly 124 seconds. */
  lemma UnansweredRequest(r: Run)
    requires Legal(r) && Silent(r) && JustRequested(Root(r))
    ensures var s, s0 := End(r), Root(r);
            && (s.now < s0.now + 124000 ==>
                  && s.phase == s0.phase && s.xid == s0.xid && s.count <= 4
                  && s.history == Resent(s0.history, RequestOf(s0), s0.now, s.count)
                  && s0.now + Offset(s.count) <= s.now <= s0.now + Offset(s.count + 1))
            && (s.now > s0.now + 124000 ==> GaveUp(s, s0))
  {
    AskingRun(r);
    AskingEnds(End(r), Root(r));
  }
}
