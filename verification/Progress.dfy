/** Progress in silence: whatever the state of a lease, if the network stays silent the lease comes to
    search for a server or to fail, after a bounded number of callbacks and within a bounded time. */
module Progress {
  import opened Net
  import opened Timing
  import opened LeaseParams
  import opened Machine
  import opened Discipline
  import opened Silence
  import Sender

  predicate Settled(s: State) {
    s.phase == Selecting || s.phase == Failed
  }

  // ---- deadlines are near ------------------------------------------------------------------------

  /** Armed for no longer than `within`, and not past if `timely`. */
  predicate Near(t: Timer, now: nat, within: nat, timely: bool) {
    t.Armed? && t.at <= now + within && (timely ==> now <= t.at)
  }

  /** The timers that drive the phase are armed. */
  predicate Clocked(s: State, timely: bool) {
    && (Held(s.phase) && s.entering + s.inside == 0 ==> Near(s.lease, s.now, U32_RANGE, timely))
    && (s.phase != Bound && s.phase != Failed ==> Near(s.retransmit, s.now, RETRANSMIT_MAX_MS, timely))
    && (s.lease.Armed? ==> s.lease.at <= s.now + U32_RANGE)
  }

  lemma CommitClocked(s: State, renewal: bool, timely: bool)
    ensures Clocked(Commit(s, renewal), timely)
  {
    var s1 := Enter(Apply(s, renewal), Bound).(declines := 0);
    assert Commit(s, renewal).lease == Armed(s1.now + T1Period(s.p.t1));
  }

  lemma ActClocked(s: State, conflict: bool, timely: bool)
    requires s.phase == CheckingOffer || s.phase == CheckingAck
    requires s.lease.Armed? ==> s.lease.at <= s.now + U32_RANGE
    ensures Clocked(ActOnProbe(s, conflict), timely)
  {
    if !conflict && s.phase == CheckingAck {
      CommitClocked(s, false, timely);
    }
  }

  lemma RetransmitClocked(s: State, conflict: bool, took: nat, xid: u32, timely: bool)
    requires s.phase != Bound && s.phase != Failed && s.phase != Init && s.phase != InitReboot
    requires Held(s.phase) && s.entering + s.inside == 0 ==> Near(s.lease, s.now, U32_RANGE, timely)
    requires s.lease.Armed? ==> s.lease.at <= s.now + U32_RANGE
    ensures Clocked(RetransmitCallback(s, conflict, took, xid), timely)
  {
    if s.phase == CheckingOffer || s.phase == CheckingAck {
      ActClocked(Probe(s, conflict, took), conflict, timely);
    }
  }

  lemma LeaseClocked(s: State, xid: u32, timely: bool)
    requires Held(s.phase) && (s.lease.Armed? ==> s.lease.at <= s.now + U32_RANGE)
    requires s.phase != Bound ==> Near(s.retransmit, s.now, RETRANSMIT_MAX_MS, timely)
    ensures Clocked(LeaseCallback(s, xid), timely)
  {
  }

  lemma DiscoveryClocked(s: State, xid: u32, timely: bool)
    requires s.lease.Armed? ==> s.lease.at <= s.now + U32_RANGE
    ensures Clocked(StartDiscovery(s, xid), timely)
  {
  }

  lemma DispatchClocked(s: State, kind: byte, learnt: Params, xid: u32, timely: bool)
    requires Clocked(s, timely)
    ensures Clocked(Dispatch(s, kind, learnt, xid), timely)
  {
    if kind == Sender.ACK && (s.phase == Renewing || s.phase == Rebinding) {
      CommitClocked(Note(s.(p := learnt), Accepted(learnt)), true, timely);
    } else if kind == Sender.NAK && (s.phase == Requesting || s.phase == Rebooting) {
      DiscoveryClocked(s, xid, timely);
    }
  }

  lemma RetransmitFireClocked(s: State, e: Event, timely: bool)
    requires Clocked(s, timely) && Disciplined(s) && Enabled(s, e) && e.RetransmitFire?
    ensures Clocked(Step(s, e), timely)
  {
    if s.phase != Bound && s.phase != Failed {
      RetransmitClocked(if e.due then s.(retransmit := Idle) else s, e.conflict, e.took, e.xid, timely);
    }
  }

  lemma LeaseFireClocked(s: State, e: Event, timely: bool)
    requires Clocked(s, timely) && Enabled(s, e) && e.LeaseFire?
    ensures Clocked(Step(s, e), timely)
  {
    if Held(s.phase) {
      LeaseClocked(if e.due then s.(lease := Idle) else s, e.xid, timely);
    }
  }

  lemma StepClocked(s: State, e: Event, timely: bool)
    requires Clocked(s, timely) && Disciplined(s) && Enabled(s, e) && (timely ==> TimelyEvent(s, e))
    ensures Clocked(Step(s, e), timely)
  {
    match e
    case Tick(_) =>
    case RetransmitFire(_, _, _, _) => RetransmitFireClocked(s, e, timely);
    case LeaseFire(_, _) => LeaseFireClocked(s, e, timely);
    case Datagram(payload, xid) =>
      match ReplyOf(payload) {
        case None =>
        case Some(r) => DispatchClocked(s, r.kind, Populate(s.p, r.yiaddr, r.options), xid, timely);
      }
    case ForceRenew(_) =>
    case LoseInterfaceStep =>
    case RestartStep(xid) => DiscoveryClocked(s, xid, timely);
  }

  /** Every run of a started lease keeps the deadlines that drive it within a period, and a timely run keeps
      them ahead. */
  lemma {:induction false} RunClocked(r: Run, timely: bool)
    requires Started(r) && (timely ==> Timely(r))
    ensures Clocked(End(r), timely)
  {
    match r
    case From(_) =>
    case Then(b, e) =>
      RunClocked(b, timely);
      RunDisciplined(b);
      StepClocked(End(b), e, timely);
  }

  // ---- the ranking -------------------------------------------------------------------------------

  /** How many steps the phase itself is from a search. */
  function PhaseStage(s: State): nat
    requires Counted(s)
  {
    match s.phase
    case CheckingAck => 6
    case Bound => 5
    case Renewing => 4
    case Rebinding => if s.lease.Armed? then 3 else 0
    case CheckingOffer => 6
    case Requesting | Rebooting => 5 - s.count
    case _ => 0
  }

  /** Each thread that handles a loss adds a step for each of its critical sections still to come. */
  function Stage(s: State): nat
    requires Counted(s)
  {
    2 * s.entering + s.inside + PhaseStage(s)
  }

  function Later(a: nat, b: nat): nat {
    if a < b then b else a
  }

  /** How much the timers can still do without changing the stage. */
  function Slack(s: State): nat {
    if s.phase == Renewing || s.phase == Rebinding then
      (if !s.retransmit.Armed? then 0
       else if s.lease.Armed? && s.lease.at >= Later(s.retransmit.at, s.now)
       then s.lease.at - Later(s.retransmit.at, s.now) + 2
       else if Due(s.retransmit, s.now) then 1 else 0)
    else if s.phase == Bound then
      (if s.retransmit.Armed? then 1 else 0)
    else
      (if s.lease.Armed? then 1 else 0)
  }

  /** The slack never outweighs a stage. */
  function Rank(s: State): nat
    requires Counted(s)
  {
    Stage(s) * 0x2_0000_0000 + Slack(s)
  }

  /** What every state of every started lease satisfies. */
  predicate Sane(s: State) {
    Disciplined(s) && Clocked(s, false)
  }

  lemma SlackSmall(s: State)
    requires Clocked(s, false)
    ensures Slack(s) <= U32_RANGE + 2
  {
  }

  lemma RankByStage(s: State, t: State)
    requires Counted(s) && Counted(t) && Clocked(t, false) && Stage(t) < Stage(s)
    ensures Rank(t) < Rank(s)
  {
    SlackSmall(t);
  }

  /** A resend while a lease is held moves the retransmit deadline towards the lease deadline, or past it. */
  lemma ResendLowersSlack(s: State, e: Event)
    requires Backed(s) && (s.phase == Renewing || s.phase == Rebinding)
    requires e.RetransmitFire? && e.due && Enabled(s, e)
    ensures Stage(Step(s, e)) == Stage(s) && Slack(Step(s, e)) < Slack(s)
  {
    BackoffDoubles(Sends(s.history) - 1);
  }

  /** A callback before a lease is held moves the phase on. */
  lemma CallbackLowersStage(s: State, e: Event)
    requires Counted(s) && !Settled(s) && !Held(s.phase) && s.phase != Init && s.phase != InitReboot
    requires e.RetransmitFire? && e.due && Enabled(s, e) && Counted(Step(s, e))
    ensures Settled(Step(s, e)) || Stage(Step(s, e)) < Stage(s)
  {
    var s1 := s.(retransmit := Idle);
    if s.phase == CheckingOffer || s.phase == CheckingAck {
      assert Step(s, e) == ActOnProbe(Probe(s1, e.conflict, e.took), e.conflict);
    }
  }

  lemma RetransmitDescends(s: State, e: Event)
    requires Sane(s) && !Settled(s) && e.RetransmitFire? && e.due && Enabled(s, e)
    requires Sane(Step(s, e))
    ensures Settled(Step(s, e)) || Rank(Step(s, e)) < Rank(s)
  {
    if s.phase == Renewing || s.phase == Rebinding {
      ResendLowersSlack(s, e);
    } else if s.phase != Bound {
      CallbackLowersStage(s, e);
      if !Settled(Step(s, e)) {
        RankByStage(s, Step(s, e));
      }
    }
  }

  /** The lease timer moves a held lease on, and is spent on any other. */
  lemma LeaseLowersStage(s: State, e: Event)
    requires Counted(s) && Held(s.phase) && e.LeaseFire? && e.due && Enabled(s, e) && Counted(Step(s, e))
    ensures Stage(Step(s, e)) < Stage(s)
  {
  }

  lemma LeaseDescends(s: State, e: Event)
    requires Sane(s) && Enabled(s, e) && e.LeaseFire? && e.due
    requires Sane(Step(s, e)) && !Settled(s)
    ensures Rank(Step(s, e)) < Rank(s)
  {
    if Held(s.phase) {
      LeaseLowersStage(s, e);
      RankByStage(s, Step(s, e));
    }
  }

  lemma LossDescends(s: State)
    requires Sane(s) && s.entering > 0 && Sane(Step(s, LoseInterfaceStep))
    ensures Stage(Step(s, LoseInterfaceStep)) < Stage(s) && Rank(Step(s, LoseInterfaceStep)) < Rank(s)
  {
    RankByStage(s, Step(s, LoseInterfaceStep));
  }

  lemma TickDescends(s: State, ms: nat)
    requires Sane(s) && !Settled(s) && TimelyEvent(s, Tick(ms)) && PromptEvent(s, Tick(ms))
    ensures Counted(Step(s, Tick(ms))) && Rank(Step(s, Tick(ms))) == Rank(s)
  {
  }

  /** Every event of a silent run other than the passing of time settles the lease or lowers its rank, and
      time leaves the rank alone. */
  lemma EventDescends(s: State, e: Event)
    requires Sane(s) && !Settled(s)
    requires Enabled(s, e) && SilentEvent(e) && TimelyEvent(s, e) && PromptEvent(s, e)
    ensures Sane(Step(s, e))
    ensures Settled(Step(s, e)) || (if e.Tick? then Rank(Step(s, e)) == Rank(s) else Rank(Step(s, e)) < Rank(s))
  {
    StepDisciplined(s, e);
    StepClocked(s, e, false);
    match e
    case RetransmitFire(_, _, _, _) => RetransmitDescends(s, e);
    case LeaseFire(_, _) => LeaseDescends(s, e);
    case LoseInterfaceStep => LossDescends(s);
    case RestartStep(_) =>
    case Tick(ms) => TickDescends(s, ms);
    case _ =>
  }

  // ---- the theorem -------------------------------------------------------------------------------

  /** The run has not settled at any point. */
  predicate Unsettled(r: Run)
    requires Legal(r)
  {
    !Settled(End(r)) && (r.Then? ==> Unsettled(r.before))
  }

  function Callbacks(r: Run): nat {
    match r
    case From(_) => 0
    case Then(b, e) => Callbacks(b) + if e.Tick? then 0 else 1
  }

  /** By when something must happen. */
  function Limit(s: State): nat {
    if s.entering + s.inside > 0 then s.now
    else if Held(s.phase) then (if s.lease.Armed? then Later(s.lease.at, s.now) else s.now)
    else (if s.retransmit.Armed? then Later(s.retransmit.at, s.now) else s.now)
  }

  /** The time that `n` stages can take: the longest timer period and a probe each. */
  function Waits(n: nat): nat {
    if n == 0 then 0 else Waits(n - 1) + U32_RANGE + ARP_PROBE_TIMEOUT_MS
  }

  lemma {:induction false} WaitsGrow(m: nat, n: nat)
    requires m < n
    ensures Waits(m) + U32_RANGE + ARP_PROBE_TIMEOUT_MS <= Waits(n)
  {
    if m < n - 1 {
      WaitsGrow(m, n - 1);
    }
  }

  lemma LimitNear(s: State)
    requires Sane(s) && !Settled(s)
    ensures s.now <= Limit(s) <= s.now + U32_RANGE
  {
  }

  lemma OnlyProbesTakeTime(s: State, e: Event)
    requires Enabled(s, e) && TimelyEvent(s, e) && SilentEvent(e) && !e.Tick?
    ensures Step(s, e).now <= s.now + ARP_PROBE_TIMEOUT_MS
  {
  }

  /** What a callback does not move on it leaves to the same limit; resends in particular. */
  lemma RetransmitKeepsLimit(s: State, e: Event)
    requires Sane(s) && !Settled(s) && e.RetransmitFire? && e.due && Enabled(s, e)
    requires Sane(Step(s, e)) && !Settled(Step(s, e))
    ensures Stage(Step(s, e)) < Stage(s) || (Stage(Step(s, e)) == Stage(s) && Limit(Step(s, e)) == Limit(s))
  {
    if s.phase == Renewing || s.phase == Rebinding {
      ResendLowersSlack(s, e);
    } else if s.phase != Bound {
      CallbackLowersStage(s, e);
    }
  }

  lemma EventKeepsLimit(s: State, e: Event)
    requires Sane(s) && !Settled(s)
    requires Enabled(s, e) && SilentEvent(e) && TimelyEvent(s, e) && PromptEvent(s, e)
    requires Sane(Step(s, e)) && !Settled(Step(s, e))
    ensures Stage(Step(s, e)) < Stage(s) || (Stage(Step(s, e)) == Stage(s) && Limit(Step(s, e)) == Limit(s))
  {
    match e
    case RetransmitFire(_, _, _, _) => RetransmitKeepsLimit(s, e);
    case LeaseFire(_, _) =>
      if Held(s.phase) {
        LeaseLowersStage(s, e);
      }
    case LoseInterfaceStep => LossDescends(s);
    case _ =>
  }

  /** The limit moves by one wait for each stage gone down. */
  lemma LimitMoves(s: State, e: Event)
    requires Sane(s) && !Settled(s)
    requires Enabled(s, e) && SilentEvent(e) && TimelyEvent(s, e) && PromptEvent(s, e)
    requires Sane(Step(s, e)) && !Settled(Step(s, e))
    ensures Limit(Step(s, e)) + Waits(Stage(Step(s, e))) <= Limit(s) + Waits(Stage(s))
  {
    EventKeepsLimit(s, e);
    var t := Step(s, e);
    if !e.Tick? && Stage(t) < Stage(s) {
      LimitNear(s);
      LimitNear(t);
      OnlyProbesTakeTime(s, e);
      WaitsGrow(Stage(t), Stage(s));
    }
  }

  lemma {:induction false} CallbacksBounded(r: Run)
    requires Legal(r) && Silent(r) && Unsettled(r) && Sane(Root(r))
    ensures Sane(End(r))
    ensures Callbacks(r) + Rank(End(r)) <= Rank(Root(r))
  {
    match r
    case From(s) =>
    case Then(b, e) =>
      CallbacksBounded(b);
      EventDescends(End(b), e);
  }

  lemma {:induction false} TimeBounded(r: Run)
    requires Legal(r) && Silent(r) && Unsettled(r) && Sane(Root(r))
    ensures Sane(End(r)) && End(r).now <= Limit(End(r))
    ensures Limit(End(r)) + Waits(Stage(End(r))) <= Root(r).now + U32_RANGE + Waits(Stage(Root(r)))
    ensures End(r).now <= Root(r).now + U32_RANGE + Waits(Stage(Root(r)))
  {
    match r
    case From(s) => LimitNear(s);
    case Then(b, e) =>
      TimeBounded(b);
      EventDescends(End(b), e);
      LimitMoves(End(b), e);
      LimitNear(End(r));
  }

  lemma StartedIsSane(r: Run)
    requires Started(r)
    ensures Sane(End(r))
  {
    RunDisciplined(r);
    RunClocked(r, false);
  }

  lemma StageSmall(s: State)
    requires Counted(s)
    ensures Stage(s) <= 6 + 2 * s.entering + s.inside
  {
  }

  /** From any state that a started lease can be in, after whatever interleaving and however late its timers
      were, a silent network brings it to SELECTING or FAILED: a silent run that has not been there has seen at
      most `Rank` callbacks, and has lasted at most a 32-bit period and, for each stage it had to go down, another
      one with a probe. Stages are six at most, and one for each critical section of a loss still to come. */
  lemma SilenceSettles(before: Run, r: Run)
    requires Started(before)
    requires Legal(r) && Silent(r) && Root(r) == End(before) && Unsettled(r)
    ensures Counted(Root(r)) && Callbacks(r) <= Rank(Root(r))
    ensures Stage(Root(r)) <= 6 + 2 * Root(r).entering + Root(r).inside
    ensures End(r).now <= Root(r).now + U32_RANGE + Waits(Stage(Root(r)))
  {
    StartedIsSane(before);
    StageSmall(Root(r));
    CallbacksBounded(r);
    TimeBounded(r);
  }

  /** And a run that has not settled can always go on: time can pass, without missing a deadline, until some
      callback is due. */
  lemma SilenceContinues(s: State) returns (ms: nat, e: Event)
    requires Sane(s) && !Settled(s)
    ensures TimelyEvent(s, Tick(ms)) && PromptEvent(s, Tick(ms)) && !e.Tick? && SilentEvent(e)
    ensures Enabled(Step(s, Tick(ms)), e) && TimelyEvent(Step(s, Tick(ms)), e)
  {
    ms := 0;
    if s.inside > 0 {
      e := RestartStep(0);
    } else if s.entering > 0 {
      e := LoseInterfaceStep;
    } else if s.lease.Armed? && (s.retransmit.Armed? ==> s.lease.at <= s.retransmit.at) {
      ms := Later(s.lease.at, s.now) - s.now;
      e := LeaseFire(true, 0);
    } else {
      ms := Later(s.retransmit.at, s.now) - s.now;
      e := RetransmitFire(true, false, 0, 0);
    }
  }
}
