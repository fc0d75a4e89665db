/** Runs that exist: replies a server can send, and how a lease is brought from each phase to the next. */
module Reachability {
  import opened Net
  import opened Timing
  import opened LeaseParams
  import opened Machine
  import opened Agreement
  import Options
  import Sender
  import Wire

  // ---- replies -----------------------------------------------------------------------------------

  function ReplyHeader(ip: Quad, xid: u32): Wire.Message {
    Wire.Message(Wire.BOOTREPLY, 1, 6, 0, xid, 0, 0, Unset, V4(ip), Unset, Unset, Wire.Zeros(16))
  }

  function KindEntry(kind: byte): seq<Options.Token> {
    [Options.Entry(Options.MSG_TYPE, [kind])]
  }

  /** The bytes of a server's OFFER, ACK or NAK that carries a grant. */
  function ServerReply(kind: byte, g: Grant, xid: u32): seq<byte>
    requires Sendable(g)
  {
    MessageSound(g, KindEntry(kind));
    Wire.Encode(ReplyHeader(g.ip, xid)) + (Options.Render(KindEntry(kind) + GrantEntries(g)) + ([Options.END] + []))
  }

  /** A message of the given type that carries a grant: its options in any order, padded, with unrelated ones
      between them. */
  predicate Carrying(m: Wire.Message, kind: byte, g: Grant, others: seq<Options.Token>, ts: seq<Options.Token>) {
    && Wire.Buildable(m) && m.op == Wire.BOOTREPLY && m.yiaddr == V4(g.ip)
    && Sendable(g) && Unrelated(others) && Options.Arranges(ts, others + GrantEntries(g))
    && Options.FirstWith(others, Options.MSG_TYPE) == Some([kind])
  }

  /** Such a message is recognised, and its options are behind the header. */
  lemma MessageRead(m: Wire.Message, kind: byte, g: Grant, others: seq<Options.Token>, ts: seq<Options.Token>,
                    junk: seq<byte>)
    requires Carrying(m, kind, g, others, ts)
    ensures Options.AllWellFormed(ts)
    ensures var o := Options.Render(ts) + ([Options.END] + junk);
            ReplyOf(Wire.Encode(m) + o) == Some(Reply(kind, V4(g.ip), o))
  {
    GrantRoundTrip(NONE, g, m, others, ts, junk);
    var o := Options.Render(ts) + ([Options.END] + junk);
    ArrangedFinds(g, others, ts, Options.MSG_TYPE);
    Options.LookupRendered(ts, junk, Options.MSG_TYPE);
    assert (Wire.Encode(m) + o)[Wire.HEADER_LEN..] == o;
  }

  /** What the client makes of it, wherever it stands. */
  lemma MessageArrives(s: State, m: Wire.Message, kind: byte, g: Grant, others: seq<Options.Token>,
                       ts: seq<Options.Token>, junk: seq<byte>, freshXid: u32)
    requires Carrying(m, kind, g, others, ts)
    ensures Options.AllWellFormed(ts)
    ensures Deliver(s, Wire.Encode(m) + (Options.Render(ts) + ([Options.END] + junk)), freshXid)
         == Dispatch(s, kind, Understood(s.p, g), freshXid)
  {
    MessageRead(m, kind, g, others, ts, junk);
    ArrangedCarries(g, others, ts);
    PopulateUnderstands(s.p, g, ts, junk);
  }

  /** Nothing else is read: of all messages with an option area, only replies with a message type of one byte. */
  lemma OnlyTypedRepliesRead(m: Wire.Message, ts: seq<Options.Token>, junk: seq<byte>)
    requires Wire.Buildable(m) && Options.AllWellFormed(ts)
    ensures var o := Options.Render(ts) + ([Options.END] + junk);
            var kind := Options.FirstWith(ts, 53);
            ReplyOf(Wire.Encode(m) + o)
            == if m.op == 2 && kind.Some? && |kind.value| == 1 then Some(Reply(kind.value[0], V4(Raw(m.yiaddr)), o))
               else None
  {
    var o := Options.Render(ts) + ([Options.END] + junk);
    Wire.DecodeOfEncode(m, o);
    Options.LookupRendered(ts, junk, 53);
    assert (Wire.Encode(m) + o)[Wire.HEADER_LEN..] == o;
  }

  lemma {:induction false} OwnArrangement(ts: seq<Options.Token>)
    requires forall i | 0 <= i < |ts| :: ts[i].Entry?
    ensures Options.Entries(ts) == ts
  {
    if ts != [] {
      OwnArrangement(ts[1..]);
    }
  }

  lemma ReplyCarries(kind: byte, g: Grant, xid: u32)
    requires Sendable(g)
    ensures Carrying(ReplyHeader(g.ip, xid), kind, g, KindEntry(kind), KindEntry(kind) + GrantEntries(g))
  {
    forall c | c in GRANT_CODES ensures GrantCode(c) {
      GrantCodes(c);
    }
    EntriesForSound(g, GRANT_CODES);
    OwnArrangement(KindEntry(kind) + GrantEntries(g));
  }

  lemma ReplyRead(kind: byte, g: Grant, xid: u32)
    requires Sendable(g)
    ensures ReplyOf(ServerReply(kind, g, xid)).Some? && ReplyOf(ServerReply(kind, g, xid)).value.kind == kind
  {
    ReplyCarries(kind, g, xid);
    MessageRead(ReplyHeader(g.ip, xid), kind, g, KindEntry(kind), KindEntry(kind) + GrantEntries(g), []);
  }

  lemma ReplyArrives(s: State, kind: byte, g: Grant, xid: u32, freshXid: u32)
    requires Sendable(g)
    ensures Deliver(s, ServerReply(kind, g, xid), freshXid) == Dispatch(s, kind, Understood(s.p, g), freshXid)
  {
    var ts := KindEntry(kind) + GrantEntries(g);
    ReplyCarries(kind, g, xid);
    MessageArrives(s, ReplyHeader(g.ip, xid), kind, g, KindEntry(kind), ts, [], freshXid);
  }

  // ---- what a message does -----------------------------------------------------------------------

  /** Nothing but the phase, the parameters, the retransmit timer and the history differs. */
  predicate SameBut(s: State, t: State) {
    t == s.(phase := t.phase, p := t.p, retransmit := t.retransmit, history := t.history)
  }

  /** An OFFER while searching and an ACK while requesting or rebooting: everything in the message is learnt, and
      its address is probed a millisecond later. */
  lemma AcceptanceTakesAll(s: State, kind: byte, learnt: Params, xid: u32)
    requires (kind == 2 && s.phase == Selecting) || (kind == 5 && (s.phase == Requesting || s.phase == Rebooting))
    ensures var t := Dispatch(s, kind, learnt, xid);
            && SameBut(s, t) && t.p == learnt && t.retransmit == Armed(s.now + 1)
            && t.phase == if kind == 2 then CheckingOffer else CheckingAck
  {
  }

  /** A lease bound to exactly these parameters, shown by the interface, with its T1 ahead. */
  predicate BoundTo(s: State, p: Params) {
    s.phase == Bound && s.p == p && s.configured && Shows(s) && s.lease == Armed(s.now + T1Period(p.t1))
  }

  /** An ACK while renewing or rebinding: everything in the message is learnt and shown by the interface, and the
      lease begins anew with the message's T1. */
  lemma RenewalTakesAll(s: State, learnt: Params, xid: u32)
    requires s.phase == Renewing || s.phase == Rebinding
    ensures var t := Dispatch(s, 5, learnt, xid);
            && BoundTo(t, learnt) && (!learnt.mask.V4? ==> t.iface.broadcast == s.iface.broadcast)
            && t == s.(phase := Bound, p := learnt, iface := t.iface, route := t.route, configured := true,
                       declines := 0, lease := t.lease, history := t.history)
  {
    assert Dispatch(s, 5, learnt, xid) == Commit(Note(s.(p := learnt), Accepted(learnt)), true);
  }

  /** A search begins with nothing but the times left of the lease. */
  lemma SearchStartsAfresh(s: State, xid: u32)
    ensures var t := StartDiscovery(s, xid);
            && t.phase == Selecting && t.xid == xid
            && t.p == NONE.(leaseTime := s.p.leaseTime, t1 := s.p.t1, t2 := s.p.t2)
            && t.count == 0 && t.interval == 4000 && t.retransmit == Armed(s.now + 4000)
            && t == s.(phase := t.phase, xid := xid, p := t.p, count := 0, interval := 4000,
                       retransmit := t.retransmit, history := t.history)
  {
  }

  /** A probe takes its time and changes no parameter. A conflict is counted and waited out for ten seconds, unless
      it is the fourth; a clean probe leads to the request, or to the lease. */
  lemma ProbeOutcomes(s: State, conflict: bool, took: nat)
    requires s.phase == CheckingOffer || s.phase == CheckingAck
    ensures var t := RunConflictProbe(s, conflict, took);
            && t.now == s.now + took && t.p == s.p && t.xid == s.xid
            && t.entering == s.entering && t.inside == s.inside
            && (conflict ==>
                  && t.declines == s.declines + 1 && t.phase == (if s.declines < 3 then Declining else Failed)
                  && t.retransmit == (if s.declines < 3 then Armed(t.now + 10000) else s.retransmit))
            && (conflict || s.phase == CheckingOffer ==>
                  t.lease == s.lease && t.iface == s.iface && t.route == s.route && t.configured == s.configured)
            && (!conflict && s.phase == CheckingOffer ==>
                  t.phase == Requesting && t.declines == s.declines && t.retransmit == Armed(t.now + 4000))
            && (!conflict && s.phase == CheckingAck ==>
                  && BoundTo(t, s.p) && t.declines == 0 && t.retransmit == s.retransmit
                  && (!s.p.mask.V4? ==> t.iface.broadcast == s.iface.broadcast))
  {
  }

  /** The lease timer begins the renewal, then the rebinding, and then finds the lease lost; a forced renewal begins
      the renewal and leaves the timer. Parameters and interface stay. */
  lemma LeaseTimerMovesOn(s: State, xid: u32)
    ensures var t := LeaseCallback(s, xid);
            var begun := s.(xid := xid, count := 0, interval := 4000, retransmit := Armed(s.now + 4000),
                            history := t.history);
            t == match s.phase
                 case Bound => begun.(phase := Renewing, lease := Armed(s.now + T2Period(s.p.t1, s.p.t2)))
                 case Renewing =>
                   begun.(phase := Rebinding, lease := Armed(s.now + ExpiryPeriod(s.p.t2, s.p.leaseTime)))
                 case Rebinding => s.(entering := s.entering + 1)
                 case _ => s
    ensures Renew(s, xid) == if s.phase == Bound then LeaseCallback(s, xid).(lease := s.lease) else s
  {
  }

  /** A resend doubles the wait and touches nothing else. */
  lemma ResendsOnlyWait(s: State, conflict: bool, took: nat, xid: u32)
    requires s.phase == Selecting || s.phase == Renewing || s.phase == Rebinding
             || ((s.phase == Requesting || s.phase == Rebooting) && s.count < 4)
    ensures var t := RetransmitCallback(s, conflict, took, xid);
            && t == s.(count := t.count, interval := t.interval, retransmit := t.retransmit, history := t.history)
            && t.count == s.count + (if s.phase == Requesting || s.phase == Rebooting then 1 else 0)
            && t.retransmit == Armed(s.now + t.interval) && t.interval == NextBackoff(s.interval)
  {
  }

  /** The first critical section of a loss clears a configured interface and the NTP list, and keeps the rest. */
  lemma LossClears(s: State)
    requires s.entering > 0
    ensures var t := Step(s, LoseInterfaceStep);
            t == s.(iface := if s.configured then Iface(Unset, Unset, Unset) else s.iface,
                    route := if s.configured then None else s.route, configured := false,
                    p := s.p.(ntp := []), entering := s.entering - 1, inside := s.inside + 1, history := t.history)
  {
  }

  /** The second begins a search, whatever the phase. */
  lemma RestartSearches(s: State, xid: u32)
    requires s.inside > 0
    ensures Step(s, RestartStep(xid)) == StartDiscovery(s, xid).(inside := s.inside - 1)
  {
  }

  /** A start: a remembered address is asked for, and without one a search begins. The first message goes out at
      once; the interface is as it was found. */
  lemma StartBegins(iface: Iface, now: nat, requested: Addr, xid: u32)
    ensures var t := Start(iface, now, requested, xid);
            && t.phase == (if requested.V4? then Rebooting else Selecting)
            && t.xid == xid && t.p == NONE.(ip := if requested.V4? then requested else Unset)
            && t.count == 0 && t.declines == 0 && t.interval == 4000
            && t.retransmit == Armed(now + 4000) && t.lease == Idle
            && t.iface == iface && !t.configured && t.route == None
            && t.now == now && t.entering == 0 && t.inside == 0
            && t.history.After? && t.history.last.Sent? && t.history.last.when == now
            && t.history.last.msg.kind == (if requested.V4? then 3 else 1)
            && t.history.past == After(Nothing, Entered(t.phase, xid, now))
  {
  }

  /** A NAK: a request is given up for a new search, a held lease is lost; anything else is ignored. */
  lemma RefusalOrNothing(s: State, kind: byte, learnt: Params, xid: u32)
    ensures kind == 6 && (s.phase == Requesting || s.phase == Rebooting) ==>
              Dispatch(s, kind, learnt, xid) == StartDiscovery(s, xid)
    ensures kind == 6 && (s.phase == Renewing || s.phase == Rebinding) ==>
              Dispatch(s, kind, learnt, xid) == s.(entering := s.entering + 1)
    ensures Dispatch(s, kind, learnt, xid) == s
       <==> !((kind == 2 && s.phase == Selecting)
              || ((kind == 5 || kind == 6) && (s.phase == Requesting || s.phase == Rebooting))
              || ((kind == 5 || kind == 6) && (s.phase == Renewing || s.phase == Rebinding)))
  {
    if s.phase == Renewing || s.phase == Rebinding {
      RenewalTakesAll(s, learnt, xid);
    }
  }

  // ---- from phase to phase -----------------------------------------------------------------------

  /** A lease of three seconds on an address, and nothing else. */
  function ShortGrant(ip: Quad): (g: Grant)
    ensures Sendable(g)
  {
    Grant(ip, None, [], None, Some(3), None, None, [], [])
  }

  /** A started, quiet run that is in the phase, with no loss under way and `n` conflicts so far. */
  ghost predicate At(r: Run, ph: Phase, n: nat) {
    && Started(r) && Quiet(r) && End(r).phase == ph && End(r).declines == n
    && End(r).entering == 0 && End(r).inside == 0
  }

  lemma Onward(r: Run, e: Event)
    requires Started(r) && Enabled(End(r), e)
    ensures Started(Then(r, e)) && End(Then(r, e)) == Step(End(r), e)
    ensures Quiet(Then(r, e)) <==> Quiet(r) && !Harmful(End(r), e)
    ensures Timely(Then(r, e)) <==> Timely(r) && TimelyEvent(End(r), e)
  {
  }

  lemma Searching(iface: Iface) returns (r: Run)
    ensures At(r, Selecting, 0)
  {
    r := From(Start(iface, 0, Unset, 0));
    assert IsStart(Start(iface, 0, Unset, 0));
  }

  lemma Remembering(iface: Iface, ip: Quad) returns (r: Run)
    ensures At(r, Rebooting, 0) && Timely(r) && r == From(Start(iface, 0, V4(ip), 0))
  {
    r := From(Start(iface, 0, V4(ip), 0));
    assert IsStart(Start(iface, 0, V4(ip), 0));
  }

  /** A lease for the address that lasts three seconds. */
  predicate Short(p: Params, ip: Quad) {
    p.ip == V4(ip) && p.t1 == 1 && p.t2 == 2 && p.leaseTime == 3
  }

  lemma ShortGrantShort(before: Params, ip: Quad)
    ensures Short(Understood(before, ShortGrant(ip)), ip)
  {
  }

  lemma AnswerStep(s: State, kind: byte, ip: Quad) returns (e: Event, learnt: Params)
    ensures e.Datagram? && Step(s, e) == Dispatch(s, kind, learnt, s.xid) && Short(learnt, ip)
    ensures Harmful(s, e) <==> s.entering + s.inside > 0 && (kind == Sender.ACK || kind == Sender.NAK)
  {
    ReplyRead(kind, ShortGrant(ip), s.xid);
    learnt := Understood(s.p, ShortGrant(ip));
    ShortGrantShort(s.p, ip);
    e := Datagram(ServerReply(kind, ShortGrant(ip), s.xid), s.xid);
    ReplyArrives(s, kind, ShortGrant(ip), s.xid, s.xid);
  }

  /** An OFFER, an ACK or a NAK for the lease arrives. */
  lemma Answered(r: Run, kind: byte, ip: Quad) returns (e: Event, learnt: Params)
    requires Started(r)
    ensures e.Datagram? && Started(Then(r, e)) && Short(learnt, ip)
    ensures End(Then(r, e)) == Dispatch(End(r), kind, learnt, End(r).xid)
    ensures Quiet(r) && End(r).entering + End(r).inside == 0 ==> Quiet(Then(r, e))
    ensures (kind == Sender.ACK || kind == Sender.NAK) && Quiet(Then(r, e)) ==> End(r).entering + End(r).inside == 0
    ensures Timely(Then(r, e)) <==> Timely(r)
  {
    e, learnt := AnswerStep(End(r), kind, ip);
    Onward(r, e);
  }

  predicate SameBooks(s: State, t: State) {
    t.declines == s.declines && t.entering == s.entering && t.inside == s.inside
  }

  /** What each kind of message does, phase by phase. */
  lemma DispatchMoves(s: State, kind: byte, learnt: Params, xid: u32)
    ensures var t := Dispatch(s, kind, learnt, xid);
            && (s.phase == Selecting && kind == Sender.OFFER ==> t.phase == CheckingOffer && SameBooks(s, t))
            && (s.phase == Requesting || s.phase == Rebooting ==>
                  && (kind == Sender.ACK ==> t.phase == CheckingAck && SameBooks(s, t))
                  && (kind == Sender.NAK ==> t.phase == Selecting && SameBooks(s, t)))
            && (s.phase == Renewing || s.phase == Rebinding ==>
                  && (kind == Sender.ACK ==> t.phase == Bound && SameBooks(s.(declines := 0), t))
                  && (kind == Sender.NAK ==> t == s.(entering := s.entering + 1)))
  {
  }

  lemma Offered(r: Run, ip: Quad, n: nat) returns (e: Event)
    requires At(r, Selecting, n)
    ensures Enabled(End(r), e) && At(Then(r, e), CheckingOffer, n)
  {
    var learnt;
    e, learnt := Answered(r, Sender.OFFER, ip);
    DispatchMoves(End(r), Sender.OFFER, learnt, End(r).xid);
  }

  lemma Acked(r: Run, ip: Quad, n: nat) returns (e: Event)
    requires At(r, Requesting, n) || At(r, Rebooting, n)
    ensures Enabled(End(r), e) && At(Then(r, e), CheckingAck, n)
  {
    var learnt;
    e, learnt := Answered(r, Sender.ACK, ip);
    DispatchMoves(End(r), Sender.ACK, learnt, End(r).xid);
  }

  lemma Renewed(r: Run, ip: Quad, n: nat) returns (e: Event)
    requires At(r, Renewing, n) || At(r, Rebinding, n)
    ensures Enabled(End(r), e) && At(Then(r, e), Bound, 0)
  {
    var learnt;
    e, learnt := Answered(r, Sender.ACK, ip);
    DispatchMoves(End(r), Sender.ACK, learnt, End(r).xid);
  }

  lemma Refused(r: Run, ip: Quad, n: nat) returns (e: Event)
    requires At(r, Requesting, n) || At(r, Rebooting, n)
    ensures Enabled(End(r), e) && At(Then(r, e), Selecting, n)
  {
    var learnt;
    e, learnt := Answered(r, Sender.NAK, ip);
    DispatchMoves(End(r), Sender.NAK, learnt, End(r).xid);
  }

  lemma ProbeStep(s: State, conflict: bool)
    requires s.phase == CheckingOffer || s.phase == CheckingAck
    ensures var t := Step(s, RetransmitFire(false, conflict, 0, 0));
            && t.entering == s.entering && t.inside == s.inside && t.now == s.now
            && (conflict ==> t.phase == (if s.declines < MAX_DECLINE_RETRIES then Declining else Failed)
                             && t.declines == s.declines + 1)
            && (t.phase == Declining ==> t.retransmit == Armed(t.now + DECLINE_PAUSE_MS))
            && (!conflict && s.phase == CheckingOffer ==> t.phase == Requesting && t.declines == s.declines)
            && (!conflict && s.phase == CheckingAck ==> t.phase == Bound && t.declines == 0)
  {
    assert Step(s, RetransmitFire(false, conflict, 0, 0)) == ActOnProbe(Probe(s, conflict, 0), conflict);
  }

  lemma Probing(r: Run, conflict: bool, n: nat) returns (e: Event)
    requires At(r, CheckingOffer, n) || At(r, CheckingAck, n)
    ensures Enabled(End(r), e)
    ensures conflict ==> At(Then(r, e), if n < MAX_DECLINE_RETRIES then Declining else Failed, n + 1)
    ensures !conflict && End(r).phase == CheckingOffer ==> At(Then(r, e), Requesting, n)
    ensures !conflict && End(r).phase == CheckingAck ==> At(Then(r, e), Bound, 0)
  {
    e := RetransmitFire(false, conflict, 0, 0);
    Onward(r, e);
    ProbeStep(End(r), conflict);
  }

  lemma PauseStep(s: State)
    requires s.phase == Declining
    ensures var t := Step(s, RetransmitFire(false, false, 0, 0));
            && t.phase == Selecting && t.declines == s.declines && t.now == s.now
            && t.entering == s.entering && t.inside == s.inside
  {
  }

  lemma PauseOver(r: Run, n: nat) returns (e: Event)
    requires At(r, Declining, n)
    ensures Enabled(End(r), e) && At(Then(r, e), Selecting, n)
  {
    e := RetransmitFire(false, false, 0, 0);
    Onward(r, e);
    PauseStep(End(r));
  }

  lemma TimerExpires(r: Run, n: nat) returns (e: Event)
    requires At(r, Bound, n) || At(r, Renewing, n)
    ensures Enabled(End(r), e) && At(Then(r, e), if End(r).phase == Bound then Renewing else Rebinding, n)
  {
    e := LeaseFire(false, 0);
    Onward(r, e);
  }

  /** A lost lease, between the two critical sections of the loss. */
  ghost predicate InLoss(r: Run, ph: Phase, n: nat) {
    && Started(r) && Quiet(r) && End(r).phase == ph && End(r).declines == n
    && End(r).entering == 0 && End(r).inside == 1
  }

  /** A NAK is the loss of the lease. */
  lemma Lost(r: Run, ip: Quad) returns (e: Event)
    requires Started(r) && (End(r).phase == Renewing || End(r).phase == Rebinding)
    ensures e.Datagram? && Started(Then(r, e)) && End(Then(r, e)) == End(r).(entering := End(r).entering + 1)
    ensures Quiet(Then(r, e)) <==> Quiet(r) && End(r).entering + End(r).inside == 0
    ensures Timely(Then(r, e)) <==> Timely(r)
  {
    var learnt;
    e, learnt := Answered(r, Sender.NAK, ip);
    DispatchMoves(End(r), Sender.NAK, learnt, End(r).xid);
  }

  lemma LossStep(s: State)
    requires s.entering > 0
    ensures var t := Step(s, LoseInterfaceStep);
            && t.phase == s.phase && t.declines == s.declines && t.xid == s.xid && t.now == s.now
            && t.entering == s.entering - 1 && t.inside == s.inside + 1 && !t.configured
  {
  }

  lemma Losing(r: Run, ip: Quad, n: nat) returns (b: Run)
    requires At(r, Renewing, n) || At(r, Rebinding, n)
    ensures InLoss(b, End(r).phase, n)
  {
    var nak := Lost(r, ip);
    Onward(Then(r, nak), LoseInterfaceStep);
    LossStep(End(Then(r, nak)));
    b := Then(Then(r, nak), LoseInterfaceStep);
  }

  lemma Restarting(r: Run, ph: Phase, n: nat) returns (e: Event)
    requires InLoss(r, ph, n)
    ensures Enabled(End(r), e) && At(Then(r, e), Selecting, n)
  {
    e := RestartStep(0);
    Onward(r, e);
  }

  // ---- every grant can be acquired ---------------------------------------------------------------

  /** A server's reply for the lease, and what it is taken for. */
  lemma Replied(r: Run, kind: byte, g: Grant) returns (e: Event)
    requires Started(r) && Quiet(r) && End(r).entering == End(r).inside == 0 && Sendable(g)
    ensures e.Datagram? && Started(Then(r, e)) && Quiet(Then(r, e))
    ensures End(Then(r, e)) == Dispatch(End(r), kind, Understood(End(r).p, g), End(r).xid)
  {
    e := Datagram(ServerReply(kind, g, End(r).xid), End(r).xid);
    ReplyArrives(End(r), kind, g, End(r).xid, End(r).xid);
    Onward(r, e);
  }

  lemma UnderstoodOnce(before: Params, g: Grant)
    ensures Understood(Understood(before, g), g) == Understood(before, g)
  {
  }

  lemma ProbeKeepsParams(s: State)
    requires s.phase == CheckingOffer || s.phase == CheckingAck
    ensures var t := Step(s, RetransmitFire(false, false, 0, 0));
            t.p == s.p && (s.phase == CheckingAck ==> t.lease == Armed(t.now + T1Period(s.p.t1)))
  {
    assert Step(s, RetransmitFire(false, false, 0, 0)) == ActOnProbe(Probe(s, false, 0), false);
  }

  lemma ProbePassed(r: Run, n: nat) returns (q: Run)
    requires At(r, CheckingOffer, n) || At(r, CheckingAck, n)
    ensures At(q, if End(r).phase == CheckingOffer then Requesting else Bound,
               if End(r).phase == CheckingOffer then n else 0)
    ensures End(q).p == End(r).p
    ensures End(r).phase == CheckingAck ==> End(q).lease == Armed(End(q).now + T1Period(End(r).p.t1))
  {
    var e := RetransmitFire(false, false, 0, 0);
    Onward(r, e);
    ProbeStep(End(r), false);
    ProbeKeepsParams(End(r));
    q := Then(r, e);
  }

  lemma OfferTaken(r: Run, n: nat, g: Grant) returns (q: Run)
    requires At(r, Selecting, n) && Sendable(g)
    ensures At(q, CheckingOffer, n) && End(q).p == Understood(End(r).p, g)
  {
    var e := Replied(r, Sender.OFFER, g);
    DispatchMoves(End(r), Sender.OFFER, Understood(End(r).p, g), End(r).xid);
    AcceptanceTakesAll(End(r), Sender.OFFER, Understood(End(r).p, g), End(r).xid);
    q := Then(r, e);
  }

  lemma AckTaken(r: Run, n: nat, g: Grant) returns (q: Run)
    requires (At(r, Requesting, n) || At(r, Rebooting, n)) && Sendable(g)
    ensures At(q, CheckingAck, n) && End(q).p == Understood(End(r).p, g)
  {
    var e := Replied(r, Sender.ACK, g);
    DispatchMoves(End(r), Sender.ACK, Understood(End(r).p, g), End(r).xid);
    AcceptanceTakesAll(End(r), Sender.ACK, Understood(End(r).p, g), End(r).xid);
    q := Then(r, e);
  }

  /** From every quiet search, every grant that fits its options is acquired by an OFFER, a clean probe, an ACK
      and another clean probe. */
  lemma GrantAcquired(r: Run, n: nat, g: Grant) returns (q: Run)
    requires At(r, Selecting, n) && Sendable(g)
    ensures At(q, Bound, 0) && BoundTo(End(q), Understood(End(r).p, g))
  {
    q := OfferTaken(r, n, g);
    q := ProbePassed(q, n);
    UnderstoodOnce(End(r).p, g);
    q := GrantAcknowledged(q, n, g);
  }

  /** From every quiet reboot or request an ACK and a clean probe suffice, also if the ACK is not for what was
      asked for. */
  lemma GrantAcknowledged(r: Run, n: nat, g: Grant) returns (q: Run)
    requires (At(r, Requesting, n) || At(r, Rebooting, n)) && Sendable(g)
    ensures At(q, Bound, 0) && BoundTo(End(q), Understood(End(r).p, g))
  {
    q := AckTaken(r, n, g);
    q := ProbePassed(q, n);
    RunInStep(q);
  }

  /** While renewing or rebinding every grant is taken over at once, and entirely. */
  lemma GrantRenewed(r: Run, n: nat, g: Grant) returns (q: Run)
    requires (At(r, Renewing, n) || At(r, Rebinding, n)) && Sendable(g)
    ensures At(q, Bound, 0) && BoundTo(End(q), Understood(End(r).p, g)) && End(q).now == End(r).now
  {
    var learnt;
    q, learnt := RenewedRun(r, n, g);
  }

  lemma RenewedRun(r: Run, n: nat, g: Grant) returns (q: Run, learnt: Params)
    requires (At(r, Renewing, n) || At(r, Rebinding, n)) && Sendable(g)
    ensures learnt == Understood(End(r).p, g)
    ensures At(q, Bound, 0) && BoundTo(End(q), learnt) && End(q).now == End(r).now
  {
    var e;
    e, learnt := RepliedWith(r, g);
    RenewalTakesAll(End(r), learnt, End(r).xid);
    q := Then(r, e);
  }

  lemma RepliedWith(r: Run, g: Grant) returns (e: Event, learnt: Params)
    requires Started(r) && Quiet(r) && End(r).entering == End(r).inside == 0 && Sendable(g)
    ensures e.Datagram? && Started(Then(r, e)) && Quiet(Then(r, e)) && learnt == Understood(End(r).p, g)
    ensures End(Then(r, e)) == Dispatch(End(r), 5, learnt, End(r).xid)
  {
    e := Replied(r, 5, g);
    learnt := Understood(End(r).p, g);
  }

  // ---- runs to a phase ---------------------------------------------------------------------------

  lemma ToBound(iface: Iface, ip: Quad) returns (r: Run)
    ensures At(r, Bound, 0)
  {
    r := Remembering(iface, ip);
    var e := Acked(r, ip, 0);
    r := Then(r, e);
    e := Probing(r, false, 0);
    r := Then(r, e);
  }

  lemma ToRenewing(iface: Iface, ip: Quad) returns (r: Run)
    ensures At(r, Renewing, 0)
  {
    r := ToBound(iface, ip);
    var e := TimerExpires(r, 0);
    r := Then(r, e);
  }

  lemma ToRebinding(iface: Iface, ip: Quad) returns (r: Run)
    ensures At(r, Rebinding, 0)
  {
    r := ToRenewing(iface, ip);
    var e := TimerExpires(r, 0);
    r := Then(r, e);
  }

  /** A search that has met `n` conflicts. */
  lemma {:induction false} ToConflicts(iface: Iface, ip: Quad, n: nat) returns (r: Run)
    requires n <= MAX_DECLINE_RETRIES
    ensures At(r, Selecting, n)
  {
    if n == 0 {
      r := Searching(iface);
    } else {
      r := ToConflicts(iface, ip, n - 1);
      var e := Offered(r, ip, n - 1);
      r := Then(r, e);
      e := Probing(r, true, n - 1);
      r := Then(r, e);
      e := PauseOver(r, n);
      r := Then(r, e);
    }
  }

  lemma ToCheckingOffer(iface: Iface, ip: Quad, n: nat) returns (r: Run)
    requires n <= MAX_DECLINE_RETRIES
    ensures At(r, CheckingOffer, n)
  {
    r := ToConflicts(iface, ip, n);
    var e := Offered(r, ip, n);
    r := Then(r, e);
  }

  lemma ToRequesting(iface: Iface, ip: Quad, n: nat) returns (r: Run)
    requires n <= MAX_DECLINE_RETRIES
    ensures At(r, Requesting, n)
  {
    r := ToCheckingOffer(iface, ip, n);
    var e := Probing(r, false, n);
    r := Then(r, e);
  }

  lemma ToCheckingAck(iface: Iface, ip: Quad, n: nat) returns (r: Run)
    requires n <= MAX_DECLINE_RETRIES
    ensures At(r, CheckingAck, n)
  {
    r := ToRequesting(iface, ip, n);
    var e := Acked(r, ip, n);
    r := Then(r, e);
  }
}
