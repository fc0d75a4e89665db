/** The language of callback traces: sessions of one first acquisition, any number of renewals and a loss,
    one after the other, then at most an unfinished session or a single final error. */
module Callbacks {
  import opened Net
  import opened Timing
  import opened LeaseParams
  import opened Machine
  import opened Agreement
  import Sender

  function Trace(h: History): seq<Callback> {
    match h
    case Nothing => []
    case After(past, o) => if o.Notified? then Trace(past) + [o.cb] else Trace(past)
  }

  function Renewals(n: nat): seq<Callback> {
    if n == 0 then [] else Renewals(n - 1) + [OnBound(true)]
  }

  function Session(renewals: nat): seq<Callback> {
    [OnBound(false)] + Renewals(renewals) + [OnLost]
  }

  function Sessions(ns: seq<nat>): seq<Callback> {
    if ns == [] then [] else Sessions(ns[..|ns| - 1]) + Session(ns[|ns| - 1])
  }

  /** How a trace ends after its complete sessions. */
  datatype Ending = Closed | MidLease(renewals: nat) | Errored

  function EndingWord(e: Ending): seq<Callback> {
    match e
    case Closed => []
    case MidLease(n) => [OnBound(false)] + Renewals(n)
    case Errored => [OnError]
  }

  function ListenerAfter(e: Ending): Listener {
    match e
    case Closed => Free
    case MidLease(_) => Leased
    case Errored => Over
  }

  lemma Snoc(a: seq<Callback>, b: seq<Callback>, cb: Callback)
    ensures a + (b + [cb]) == a + b + [cb]
  {
  }

  lemma SessionCloses(ns: seq<nat>, n: nat)
    ensures Sessions(ns + [n]) == Sessions(ns) + (EndingWord(MidLease(n)) + [OnLost])
  {
    assert (ns + [n])[..|ns|] == ns;
  }

  /** One more callback that makes sense extends a word to a word. */
  lemma HearExtends(ns: seq<nat>, e: Ending, cb: Callback) returns (ms: seq<nat>, f: Ending)
    requires Hear(ListenerAfter(e), cb) != Confused
    ensures Sessions(ms) + EndingWord(f) == Sessions(ns) + EndingWord(e) + [cb]
    ensures ListenerAfter(f) == Hear(ListenerAfter(e), cb)
  {
    Snoc(Sessions(ns), EndingWord(e), cb);
    match cb
    case OnBound(_) =>
      ms, f := ns, MidLease(if e.MidLease? then e.renewals + 1 else 0);
      assert EndingWord(f) == EndingWord(e) + [cb];
    case OnError =>
      ms, f := ns, Errored;
      assert EndingWord(f) == EndingWord(e) + [cb];
    case OnLost =>
      ms, f := ns + [e.renewals], Closed;
      SessionCloses(ns, e.renewals);
  }

  /** A listener that is not confused has heard a word of the language, and knows which ending it is in. */
  lemma {:induction false} HeardIsWord(h: History) returns (ns: seq<nat>, e: Ending)
    requires Heard(h) != Confused
    ensures Trace(h) == Sessions(ns) + EndingWord(e) && Heard(h) == ListenerAfter(e)
  {
    match h
    case Nothing =>
      ns, e := [], Closed;
    case After(past, o) =>
      ns, e := HeardIsWord(past);
      if o.Notified? {
        ns, e := HearExtends(ns, e, o.cb);
      }
  }

  ghost predicate IsWord(t: seq<Callback>, e: Ending) {
    exists ns: seq<nat> :: t == Sessions(ns) + EndingWord(e)
  }

  lemma HeardEnding(h: History) returns (e: Ending)
    requires Heard(h) != Confused
    ensures IsWord(Trace(h), e) && Heard(h) == ListenerAfter(e)
  {
    var ns;
    ns, e := HeardIsWord(h);
  }

  /** In every quiet run the callbacks form a word of the language: an unfinished session exactly while a
      lease is held, a final error exactly in FAILED, and otherwise complete sessions only. */
  lemma TraceLanguage(r: Run)
    requires Started(r) && Quiet(r)
    ensures var s, t := End(r), Trace(End(r).history);
            if s.phase == Failed then IsWord(t, Errored)
            else if Held(s.phase) && s.inside == 0 then exists n: nat :: IsWord(t, MidLease(n))
            else IsWord(t, Closed)
  {
    RunInStep(r);
    AgreedTrace(End(r));
  }

  lemma AgreedTrace(s: State)
    requires Heard(s.history) == ListenerOf(s)
    ensures var t := Trace(s.history);
            if s.phase == Failed then IsWord(t, Errored)
            else if Held(s.phase) && s.inside == 0 then exists n: nat :: IsWord(t, MidLease(n))
            else IsWord(t, Closed)
  {
    var e := HeardEnding(s.history);
  }

  // ---- only words leave a listener unconfused ----------------------------------------------------

  function HearAll(l: Listener, t: seq<Callback>): Listener {
    if t == [] then l else Hear(HearAll(l, t[..|t| - 1]), t[|t| - 1])
  }

  lemma {:induction false} HeardIsTrace(h: History)
    ensures Heard(h) == HearAll(Free, Trace(h))
  {
    match h
    case Nothing =>
    case After(past, o) =>
      HeardIsTrace(past);
      if o.Notified? {
        assert Trace(h)[..|Trace(past)|] == Trace(past);
      }
  }

  lemma {:induction false} HearSum(l: Listener, a: seq<Callback>, b: seq<Callback>)
    ensures HearAll(l, a + b) == HearAll(HearAll(l, a), b)
  {
    if b == [] {
      assert a + b == a;
    } else {
      var n := |b| - 1;
      HearSum(l, a, b[..n]);
      assert (a + b)[..|a| + n] == a + b[..n];
    }
  }

  lemma HearOne(l: Listener, cb: Callback)
    ensures HearAll(l, [cb]) == Hear(l, cb)
  {
    assert [cb][..0] == [];
  }

  lemma {:induction false} HearRenewals(n: nat)
    ensures HearAll(Leased, Renewals(n)) == Leased
  {
    if n > 0 {
      HearRenewals(n - 1);
      HearSum(Leased, Renewals(n - 1), [OnBound(true)]);
      HearOne(Leased, OnBound(true));
    }
  }

  lemma HearEnding(e: Ending)
    ensures HearAll(Free, EndingWord(e)) == ListenerAfter(e)
  {
    match e
    case Closed =>
    case MidLease(n) =>
      HearOne(Free, OnBound(false));
      HearSum(Free, [OnBound(false)], Renewals(n));
      HearRenewals(n);
    case Errored => HearOne(Free, OnError);
  }

  lemma {:induction false} HearSessions(ns: seq<nat>)
    ensures HearAll(Free, Sessions(ns)) == Free
  {
    if ns != [] {
      var k := |ns| - 1;
      HearSessions(ns[..k]);
      HearSum(Free, Sessions(ns[..k]), Session(ns[k]));
      HearEnding(MidLease(ns[k]));
      HearSum(Free, EndingWord(MidLease(ns[k])), [OnLost]);
      HearOne(Leased, OnLost);
    }
  }

  /** A trace is a word of the language if and only if it leaves its listener unconfused. */
  lemma WordIffUnconfused(h: History)
    ensures (exists e :: IsWord(Trace(h), e)) <==> Heard(h) != Confused
  {
    if Heard(h) != Confused {
      var e := HeardEnding(h);
    }
    if e :| IsWord(Trace(h), e) {
      var ns: seq<nat> :| Trace(h) == Sessions(ns) + EndingWord(e);
      HeardIsTrace(h);
      HearSum(Free, Sessions(ns), EndingWord(e));
      HearSessions(ns);
      HearEnding(e);
    }
  }

  // ---- which runs have such a trace --------------------------------------------------------------

  /** The callback that an event leads to. */
  function CallbackOf(s: State, e: Event): Option<Callback> {
    match e
    case LoseInterfaceStep => Some(OnLost)
    case Datagram(payload, _) =>
      (match ReplyOf(payload)
       case Some(r) =>
         if r.kind == Sender.ACK && (s.phase == Renewing || s.phase == Rebinding) then Some(OnBound(true)) else None
       case None => None)
    case RetransmitFire(_, conflict, _, _) =>
      if s.phase != CheckingOffer && s.phase != CheckingAck then None
      else if conflict then (if s.declines >= MAX_DECLINE_RETRIES then Some(OnError) else None)
      else if s.phase == CheckingAck then Some(OnBound(false)) else None
    case _ => None
  }

  predicate HasErred(h: History) {
    match h
    case Nothing => false
    case After(past, o) => o == Notified(OnError) || HasErred(past)
  }

  /** The callback speaks of the interface as it was: of a first lease or of an error while it showed none, of
      a renewal or of a loss while it showed one, and of nothing any more after an error. */
  predicate Fitting(s: State, cb: Callback) {
    !HasErred(s.history) && (s.configured <==> cb == OnBound(true) || cb == OnLost)
  }

  predicate Orderly(r: Run)
    requires Legal(r)
  {
    match r
    case From(_) => true
    case Then(b, e) =>
      Orderly(b) && (CallbackOf(End(b), e).Some? ==> Fitting(End(b), CallbackOf(End(b), e).value))
  }

  function HearMaybe(l: Listener, cb: Option<Callback>): Listener {
    match cb case Some(c) => Hear(l, c) case None => l
  }

  /** What an unconfused listener of the state believes. */
  function Belief(s: State): Listener {
    if HasErred(s.history) then Over else if s.configured then Leased else Free
  }

  /** How an event with the given callback changes what is heard and what is shown. */
  predicate Tells(s: State, t: State, cb: Option<Callback>) {
    && Heard(t.history) == HearMaybe(Heard(s.history), cb)
    && HasErred(t.history) == (HasErred(s.history) || cb == Some(OnError))
    && (t.configured <==> if cb.Some? && cb.value.OnBound? then true else cb != Some(OnLost) && s.configured)
  }

  lemma Unheard(h: History, o: Observation)
    requires !o.Notified?
    ensures Heard(After(h, o)) == Heard(h) && HasErred(After(h, o)) == HasErred(h)
  {
  }

  lemma Told(h: History, cb: Callback)
    ensures Heard(After(h, Notified(cb))) == Hear(Heard(h), cb)
    ensures HasErred(After(h, Notified(cb))) == (HasErred(h) || cb == OnError)
  {
  }

  lemma BeginTells(s: State, ph: Phase, m: Sender.Outgoing)
    ensures Tells(s, Begin(s, ph, m), None)
  {
    Unheard(s.history, Entered(ph, s.xid, s.now));
    Unheard(After(s.history, Entered(ph, s.xid, s.now)), Sent(m, s.now));
  }

  lemma CommitTells(s: State, renewal: bool)
    ensures Tells(s, Commit(s, renewal), Some(OnBound(renewal)))
  {
    var h1 := After(s.history, Applied(s.p, renewal));
    var h2 := After(h1, Entered(Bound, s.xid, s.now));
    Unheard(s.history, h1.last);
    Unheard(h1, h2.last);
    Told(h2, OnBound(renewal));
  }

  lemma ConflictTells(s: State)
    ensures Tells(s, HandleConflict(s), if s.declines >= MAX_DECLINE_RETRIES then Some(OnError) else None)
  {
    var h1 := After(s.history, Sent(DeclineMessage(s), s.now));
    Unheard(s.history, h1.last);
    Unheard(h1, Entered(Declining, s.xid, s.now));
    Unheard(h1, Entered(Failed, s.xid, s.now));
    Told(After(h1, Entered(Failed, s.xid, s.now)), OnError);
  }

  lemma ProbeTells(s: State, conflict: bool, took: nat)
    requires s.phase == CheckingOffer || s.phase == CheckingAck
    ensures Tells(s, RunConflictProbe(s, conflict, took), CallbackOf(s, RetransmitFire(false, conflict, took, 0)))
  {
    var s1 := Probe(s, conflict, took);
    Unheard(s.history, s1.history.last);
    if conflict {
      ConflictTells(s1);
    } else if s.phase == CheckingOffer {
      BeginTells(s1, Requesting, SelectingRequest(s1));
    } else {
      CommitTells(s1, false);
    }
  }

  lemma DiscoveryTells(s: State, xid: u32)
    ensures Tells(s, StartDiscovery(s, xid), None)
  {
    var s1 := s.(xid := xid, p := Forget(s.p));
    BeginTells(s1, Selecting, DiscoverMessage(s1));
  }

  lemma RetransmitTells(s: State, conflict: bool, took: nat, xid: u32)
    ensures Tells(s, RetransmitCallback(s, conflict, took, xid),
                  CallbackOf(s, RetransmitFire(false, conflict, took, xid)))
  {
    var s1 := s.(count := s.count + 1);
    match s.phase
    case Selecting => Unheard(s.history, Sent(DiscoverMessage(s), s.now));
    case Requesting =>
      Unheard(s.history, Sent(SelectingRequest(s1), s.now));
      DiscoveryTells(s1, xid);
    case Rebooting =>
      Unheard(s.history, Sent(RebootRequest(s1), s.now));
      DiscoveryTells(s1, xid);
    case Renewing => Unheard(s.history, Sent(RenewRequest(s), s.now));
    case Rebinding => Unheard(s.history, Sent(RebindRequest(s), s.now));
    case CheckingOffer => ProbeTells(s, conflict, took);
    case CheckingAck => ProbeTells(s, conflict, took);
    case Declining => DiscoveryTells(s, xid);
    case _ =>
  }

  lemma DispatchTells(s: State, kind: byte, learnt: Params, xid: u32)
    ensures Tells(s, Dispatch(s, kind, learnt, xid),
                  if kind == Sender.ACK && (s.phase == Renewing || s.phase == Rebinding) then Some(OnBound(true))
                  else None)
  {
    var h1 := After(s.history, Accepted(learnt));
    Unheard(s.history, h1.last);
    if kind == Sender.OFFER && s.phase == Selecting {
      Unheard(h1, Entered(CheckingOffer, s.xid, s.now));
    } else if kind == Sender.ACK && (s.phase == Requesting || s.phase == Rebooting) {
      Unheard(h1, Entered(CheckingAck, s.xid, s.now));
    } else if kind == Sender.NAK && (s.phase == Requesting || s.phase == Rebooting) {
      DiscoveryTells(s, xid);
    } else if kind == Sender.ACK && (s.phase == Renewing || s.phase == Rebinding) {
      CommitTells(Note(s.(p := learnt), Accepted(learnt)), true);
    }
  }

  lemma StepTells(s: State, e: Event)
    requires Enabled(s, e)
    ensures Tells(s, Step(s, e), CallbackOf(s, e))
  {
    match e
    case Tick(_) =>
    case RetransmitFire(due, conflict, took, xid) =>
      RetransmitTells(if due then s.(retransmit := Idle) else s, conflict, took, xid);
    case LeaseFire(_, xid) =>
      BeginTells(s.(xid := xid), Renewing, RenewRequest(s.(xid := xid)));
      BeginTells(s.(xid := xid), Rebinding, RebindRequest(s.(xid := xid)));
    case Datagram(payload, xid) =>
      match ReplyOf(payload) {
        case None =>
        case Some(r) => DispatchTells(s, r.kind, Populate(s.p, r.yiaddr, r.options), xid);
      }
    case ForceRenew(xid) => BeginTells(s.(xid := xid), Renewing, RenewRequest(s.(xid := xid)));
    case LoseInterfaceStep =>
      Unheard(s.history, Unapplied);
      Told(Unapply(s).history, OnLost);
    case RestartStep(xid) => DiscoveryTells(s, xid);
  }

  lemma StartTells(iface: Iface, now: nat, requested: Addr, xid: u32)
    ensures Tells(Created(iface, now), Start(iface, now, requested, xid), None)
  {
    var s := Created(iface, now);
    if requested.V4? {
      var s1 := s.(p := s.p.(ip := requested), xid := xid);
      BeginTells(s1, Rebooting, RebootRequest(s1));
    } else {
      DiscoveryTells(s, xid);
    }
  }

  lemma FittingIsHeard(s: State, t: State, cb: Option<Callback>)
    requires Tells(s, t, cb)
    ensures Heard(s.history) == Confused ==> Heard(t.history) == Confused
    ensures Heard(s.history) == Belief(s) ==>
              Heard(t.history) == if cb.Some? && !Fitting(s, cb.value) then Confused else Belief(t)
  {
  }

  lemma {:induction false} OrderlyIsHeard(r: Run)
    requires Started(r)
    ensures Heard(End(r).history) == if Orderly(r) then Belief(End(r)) else Confused
  {
    match r
    case From(s) =>
      var iface, now, requested, xid :| s == Start(iface, now, requested, xid);
      StartTells(iface, now, requested, xid);
    case Then(b, e) =>
      OrderlyIsHeard(b);
      StepTells(End(b), e);
      FittingIsHeard(End(b), End(r), CallbackOf(End(b), e));
  }

  /** The exact condition, over every run of every interleaving: the callbacks form a word of the language if
      and only if each was made while the interface was in the state that the callback speaks of. */
  lemma TraceIsWordExactlyIfOrderly(r: Run)
    requires Started(r)
    ensures (exists e :: IsWord(Trace(End(r).history), e)) <==> Orderly(r)
  {
    OrderlyIsHeard(r);
    WordIffUnconfused(End(r).history);
  }

  // ---- which events lead to confusion ------------------------------------------------------------

  /** After every thread that has decided on a loss has been through the first critical section of it. */
  function Drained(s: State): State
    decreases s.entering
  {
    if s.entering == 0 then s else Drained(Step(s, LoseInterfaceStep))
  }

  /** Of the harmful events, an ACK does no harm to the application if it comes before the interface has been
      cleared: the renewal is told, and then the loss. */
  predicate Confusing(s: State, e: Event) {
    Harmful(s, e) && (s.inside > 0 || CallbackOf(s, e) == None)
  }

  lemma LossTells(s: State)
    requires s.entering > 0
    ensures var t := Step(s, LoseInterfaceStep);
            Heard(t.history) == Hear(Heard(s.history), OnLost) && t.entering == s.entering - 1
  {
    StepTells(s, LoseInterfaceStep);
  }

  /** The losses that are still to be told, one by one. */
  function HearLosses(l: Listener, n: nat): Listener
    decreases n
  {
    if n == 0 then l else HearLosses(Hear(l, OnLost), n - 1)
  }

  lemma {:induction false} DrainedTells(s: State)
    ensures Heard(Drained(s).history) == HearLosses(Heard(s.history), s.entering)
    decreases s.entering
  {
    if s.entering > 0 {
      LossTells(s);
      DrainedTells(Step(s, LoseInterfaceStep));
    }
  }

  lemma LossesHeard(l: Listener)
    ensures HearLosses(l, 0) == l && HearLosses(l, 1) == Hear(l, OnLost)
    ensures HearLosses(l, 2) == Hear(Hear(l, OnLost), OnLost)
  {
    assert HearLosses(Hear(l, OnLost), 1) == HearLosses(Hear(Hear(l, OnLost), OnLost), 0);
  }

  lemma HarmfulEntering(s: State, e: Event)
    requires InStep(s) && Enabled(s, e) && Harmful(s, e)
    ensures Step(s, e).entering == s.entering + if CallbackOf(s, e).Some? then 0 else 1
  {
    if e.Datagram? {
      var r := ReplyOf(e.payload).value;
      HarmfulDispatchEntering(s, r.kind, Populate(s.p, r.yiaddr, r.options), e.xid);
    }
  }

  lemma HarmfulDispatchEntering(s: State, kind: byte, learnt: Params, xid: u32)
    requires (s.phase == Renewing || s.phase == Rebinding) && (kind == Sender.ACK || kind == Sender.NAK)
    ensures Dispatch(s, kind, learnt, xid).entering == s.entering + if kind == Sender.ACK then 0 else 1
  {
  }

  /** In a state of agreement, exactly the confusing events lead to confusion once the losses decided on have
      been told. */
  lemma ConfusedExactlyIfConfusing(s: State, e: Event)
    requires InStep(s) && Enabled(s, e)
    ensures Heard(Drained(Step(s, e)).history) == Confused <==> Confusing(s, e)
  {
    DrainedTells(Step(s, e));
    if Harmful(s, e) {
      StepTells(s, e);
      HarmfulEntering(s, e);
      HarmHeard(s, CallbackOf(s, e));
    } else {
      HarmlessInStep(s, e);
      AgreedLosses(Step(s, e));
    }
  }

  /** What is heard after a harmful event, a renewal or another loss. */
  lemma HarmHeard(s: State, cb: Option<Callback>)
    requires InStep(s) && s.entering + s.inside > 0 && (cb == None || cb == Some(OnBound(true)))
    ensures HearLosses(HearMaybe(Heard(s.history), cb), s.entering + if cb.Some? then 0 else 1) == Confused
       <==> s.inside > 0 || cb == None
  {
    LossesHeard(HearMaybe(Heard(s.history), cb));
  }

  lemma AgreedLosses(s: State)
    requires InStep(s)
    ensures HearLosses(Heard(s.history), s.entering) != Confused
  {
    LossesHeard(Heard(s.history));
  }
}
