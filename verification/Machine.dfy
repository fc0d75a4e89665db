/** The lease state machine in time.

    A `State` holds the fields of `struct dmdhcp_lease`, the interface it configures, the clock, and a
    history of what can be observed. Each function below is one critical section under the lease's lock
    (or a part of one); `Step` performs one event. The random numbers, the answer and duration of an ARP
    probe and the received datagrams are carried by the events. */
module Machine {
  import opened Net
  import opened Timing
  import opened LeaseParams
  import Options
  import Sender
  import Wire

  datatype Phase =
    | Init | Selecting | CheckingOffer | Requesting | CheckingAck | Bound | Renewing | Rebinding
    | InitReboot | Rebooting | Declining | Failed

  predicate Held(ph: Phase) {
    ph == Bound || ph == Renewing || ph == Rebinding
  }

  /** A one-shot timer; starting it replaces an earlier deadline. */
  datatype Timer = Idle | Armed(at: nat)

  datatype Iface = Iface(ip: Addr, mask: Addr, broadcast: Addr)

  const DECONFIGURED := Iface(Unset, Unset, Unset)

  datatype Callback = OnBound(renewal: bool) | OnLost | OnError

  datatype Observation =
    | Entered(phase: Phase, xid: u32, at: nat)
    | Sent(msg: Sender.Outgoing, when: nat)
    | Accepted(params: Params)
    | Probed(addr: Addr, clean: bool)
    | Applied(lease: Params, renewal: bool)
    | Unapplied
    | Notified(cb: Callback)

  /** Observations in the order they were made, latest last. */
  datatype History = Nothing | After(past: History, last: Observation)

  datatype State = State(
    phase: Phase, xid: u32, p: Params,
    interval: u32, count: nat, declines: nat,
    retransmit: Timer, lease: Timer,
    route: Option<Addr>, configured: bool, iface: Iface,
    now: nat,
    entering: nat,  // threads that have decided on handle_lost but not yet taken the lock in it
    inside: nat,    // threads in handle_lost between its two critical sections
    history: History)

  function Note(s: State, o: Observation): State {
    s.(history := After(s.history, o))
  }

  function Enter(s: State, ph: Phase): State {
    Note(s.(phase := ph), Entered(ph, s.xid, s.now))
  }

  function ArmRetransmit(s: State, ms: nat): State {
    s.(retransmit := Armed(s.now + ms))
  }

  function ArmLease(s: State, ms: nat): State {
    s.(lease := Armed(s.now + ms))
  }

  // ---- dmdhcp_output.c: messages -----------------------------------------------------------------

  function Send(s: State, m: Sender.Outgoing): State {
    Note(s, Sent(m, s.now))
  }

  function DiscoverMessage(s: State): Sender.Outgoing {
    Sender.Outgoing(Sender.DISCOVER, s.xid, Unset, None, None, LIMITED_BROADCAST, true)
  }

  function SelectingRequest(s: State): Sender.Outgoing {
    Sender.Outgoing(Sender.REQUEST, s.xid, Unset, Some(s.p.ip), Some(s.p.server), LIMITED_BROADCAST, true)
  }

  function RebootRequest(s: State): Sender.Outgoing {
    Sender.Outgoing(Sender.REQUEST, s.xid, Unset, Some(s.p.ip), None, LIMITED_BROADCAST, true)
  }

  function RenewRequest(s: State): Sender.Outgoing {
    Sender.Outgoing(Sender.REQUEST, s.xid, s.p.ip, None, None, s.p.server, false)
  }

  function RebindRequest(s: State): Sender.Outgoing {
    Sender.Outgoing(Sender.REQUEST, s.xid, s.p.ip, None, None, LIMITED_BROADCAST, true)
  }

  function DeclineMessage(s: State): Sender.Outgoing {
    Sender.Outgoing(Sender.DECLINE, s.xid, Unset, Some(s.p.ip), Some(s.p.server), LIMITED_BROADCAST, true)
  }

  function ReleaseMessage(s: State): Sender.Outgoing {
    Sender.Outgoing(Sender.RELEASE, s.xid, s.p.ip, None, Some(s.p.server), s.p.server, false)
  }

  // ---- dmdhcp_output.c: phases -------------------------------------------------------------------

  function RearmBackoff(s: State): State {
    var ms := NextBackoff(s.interval);
    ArmRetransmit(s.(interval := ms), ms)
  }

  function Forget(p: Params): Params {
    p.(ip := Unset, mask := Unset, gateway := Unset, server := Unset, dns := [], ntp := [])
  }

  /** The first send of a phase, with the backoff started over. */
  function Begin(s: State, ph: Phase, m: Sender.Outgoing): State {
    var s1 := s.(count := 0, interval := RETRANSMIT_INITIAL_MS);
    ArmRetransmit(Send(Enter(s1, ph), m), RETRANSMIT_INITIAL_MS)
  }

  function StartDiscovery(s: State, xid: u32): State {
    var s1 := s.(xid := xid, p := Forget(s.p));
    Begin(s1, Selecting, DiscoverMessage(s1))
  }

  function StartReboot(s: State, xid: u32): State {
    var s1 := s.(xid := xid);
    Begin(s1, Rebooting, RebootRequest(s1))
  }

  function StartRenew(s: State, xid: u32): State {
    var s1 := s.(xid := xid);
    Begin(s1, Renewing, RenewRequest(s1))
  }

  function StartRebind(s: State, xid: u32): State {
    var s1 := s.(xid := xid);
    Begin(s1, Rebinding, RebindRequest(s1))
  }

  function HandleConflict(s: State): State {
    var s1 := Send(s, DeclineMessage(s)).(declines := s.declines + 1);
    if s1.declines > MAX_DECLINE_RETRIES then
      Note(Enter(s1, Failed), Notified(OnError))
    else
      ArmRetransmit(Enter(s1, Declining), DECLINE_PAUSE_MS)
  }

  // ---- dmdhcp_lifecycle.c ------------------------------------------------------------------------

  function Apply(s: State, renewal: bool): State {
    var broadcast := if s.p.mask.V4? then V4(Broadcast(Raw(s.p.ip), Raw(s.p.mask))) else s.iface.broadcast;
    var route := if s.p.gateway.V4? then Some(s.p.gateway) else None;
    Note(s.(iface := Iface(s.p.ip, s.p.mask, broadcast), route := route, configured := true), Applied(s.p, renewal))
  }

  function Unapply(s: State): State {
    if s.configured then
      Note(s.(iface := DECONFIGURED, route := None, configured := false), Unapplied)
    else
      s
  }

  /** What a clean probe of an acknowledged address and an accepted renewal have in common. */
  function Commit(s: State, renewal: bool): State {
    var s1 := Enter(Apply(s, renewal), Bound).(declines := 0);
    Note(ArmLease(s1, T1Period(s.p.t1)), Notified(OnBound(renewal)))
  }

  /** `dmdhcp_lifecycle_handle_lost`, first critical section. */
  function LoseInterface(s: State): State {
    var s1 := Unapply(s);
    Note(s1.(p := s1.p.(ntp := [])), Notified(OnLost))
  }

  // ---- dmdhcp_output.c: the retransmit timer -----------------------------------------------------

  /** The ARP probe. `took` is how long it blocked. */
  function Probe(s: State, conflict: bool, took: nat): State {
    Note(s.(now := s.now + took), Probed(s.p.ip, !conflict))
  }

  function ActOnProbe(s: State, conflict: bool): State {
    if conflict then HandleConflict(s)
    else if s.phase == CheckingOffer then Begin(s, Requesting, SelectingRequest(s))
    else Commit(s, false)
  }

  function RunConflictProbe(s: State, conflict: bool, took: nat): State {
    ActOnProbe(Probe(s, conflict, took), conflict)
  }

  function RetransmitCallback(s: State, conflict: bool, took: nat, xid: u32): State {
    match s.phase
    case Selecting => RearmBackoff(Send(s, DiscoverMessage(s)))
    case Requesting | Rebooting =>
      var s1 := s.(count := s.count + 1);
      if s1.count > MAX_REQUEST_RETRANSMITS then
        StartDiscovery(s1, xid)
      else
        RearmBackoff(Send(s1, if s.phase == Requesting then SelectingRequest(s1) else RebootRequest(s1)))
    case Renewing => RearmBackoff(Send(s, RenewRequest(s)))
    case Rebinding => RearmBackoff(Send(s, RebindRequest(s)))
    case CheckingOffer | CheckingAck => RunConflictProbe(s, conflict, took)
    case Declining => StartDiscovery(s, xid)
    case Init | InitReboot | Bound | Failed => s
  }

  // ---- dmdhcp_lifecycle.c: the lease timer -------------------------------------------------------

  function LeaseCallback(s: State, xid: u32): State {
    match s.phase
    case Bound => ArmLease(StartRenew(s, xid), T2Period(s.p.t1, s.p.t2))
    case Renewing => ArmLease(StartRebind(s, xid), ExpiryPeriod(s.p.t2, s.p.leaseTime))
    case Rebinding => s.(entering := s.entering + 1)
    case _ => s
  }

  // ---- dmdhcp_input.c ----------------------------------------------------------------------------

  /** `dmdhcp_handle_datagram` from the moment it holds the lock: dispatch on phase and message type.
      `learnt` is what the message would populate the lease with. */
  function Dispatch(s: State, kind: byte, learnt: Params, xid: u32): State {
    if kind == Sender.OFFER && s.phase == Selecting then
      var s1 := s.(p := learnt);
      ArmRetransmit(Enter(Note(s1, Accepted(s1.p)), CheckingOffer), PROBE_HANDOFF_MS)
    else if kind == Sender.ACK && (s.phase == Requesting || s.phase == Rebooting) then
      var s1 := s.(p := learnt);
      ArmRetransmit(Enter(Note(s1, Accepted(s1.p)), CheckingAck), PROBE_HANDOFF_MS)
    else if kind == Sender.NAK && (s.phase == Requesting || s.phase == Rebooting) then
      StartDiscovery(s, xid)
    else if kind == Sender.ACK && (s.phase == Renewing || s.phase == Rebinding) then
      var s1 := s.(p := learnt);
      Commit(Note(s1, Accepted(s1.p)), true)
    else if kind == Sender.NAK && (s.phase == Renewing || s.phase == Rebinding) then
      s.(entering := s.entering + 1)
    else
      s
  }

  /** A reply the client looks at: its message type, address and options. */
  datatype Reply = Reply(kind: byte, yiaddr: LeaseAddr, options: seq<byte>)

  /** What of a datagram reaches the dispatch: a BOOTREPLY with a readable one-byte message type. */
  function ReplyOf(payload: seq<byte>): Option<Reply> {
    match Wire.Decode(payload)
    case None => None
    case Some(m) =>
      if m.op != Wire.BOOTREPLY then None else
      var options := payload[Wire.HEADER_LEN..];
      match Options.Lookup(options, Options.MSG_TYPE)
      case Found(d) => if |d| == 1 then Some(Reply(d[0], m.yiaddr, options)) else None
      case _ => None
  }

  /** Delivery to a lease. The transaction identifier was compared when the lease was looked up, in an
      earlier critical section, so it is not compared again here: whatever is proved of this step holds
      however the lease changed in between. */
  function Deliver(s: State, payload: seq<byte>, xid: u32): State {
    match ReplyOf(payload)
    case None => s
    case Some(r) => Dispatch(s, r.kind, Populate(s.p, r.yiaddr, r.options), xid)
  }

  // ---- dmdhcp.c ----------------------------------------------------------------------------------

  /** A lease as `dmdhcp_lease_table_create` leaves it, on an interface in any configuration. */
  function Created(iface: Iface, now: nat): State {
    State(Init, 0, NONE, 0, 0, 0, Idle, Idle, None, false, iface, now, 0, 0, Nothing)
  }

  /** `dmdhcp_start`: a v4 `requested` address selects INIT-REBOOT. */
  function Start(iface: Iface, now: nat, requested: Addr, xid: u32): State {
    var s := Created(iface, now);
    if requested.V4? then
      StartReboot(s.(p := s.p.(ip := requested)), xid)
    else
      StartDiscovery(s, xid)
  }

  function Renew(s: State, xid: u32): State {
    if s.phase == Bound then StartRenew(s, xid) else s
  }

  function Stop(s: State): State {
    Unapply(s)
  }

  function Release(s: State): State {
    Unapply(if s.p.ip.V4? && s.p.server.V4? then Send(s, ReleaseMessage(s)) else s)
  }

  // ---- events and runs ---------------------------------------------------------------------------

  /** A timer callback is `due` when it runs because the deadline was reached, which uses the deadline up.
      Otherwise it is stray: it was already on its way when the timer was started anew (or is early), and
      the timer stays as it is. */
  datatype Event =
    | Tick(ms: nat)
    | Datagram(payload: seq<byte>, xid: u32)
    | RetransmitFire(due: bool, conflict: bool, took: nat, xid: u32)
    | LeaseFire(due: bool, xid: u32)
    | ForceRenew(xid: u32)
    | LoseInterfaceStep
    | RestartStep(xid: u32)

  predicate Due(t: Timer, now: nat) {
    t.Armed? && t.at <= now
  }

  predicate Enabled(s: State, e: Event) {
    match e
    case RetransmitFire(due, _, _, _) => due ==> Due(s.retransmit, s.now)
    case LeaseFire(due, _) => due ==> Due(s.lease, s.now)
    case LoseInterfaceStep => s.entering > 0
    case RestartStep(_) => s.inside > 0
    case _ => true
  }

  function Step(s: State, e: Event): State
    requires Enabled(s, e)
  {
    match e
    case Tick(ms) => s.(now := s.now + ms)
    case Datagram(payload, xid) => Deliver(s, payload, xid)
    case RetransmitFire(due, conflict, took, xid) =>
      RetransmitCallback(if due then s.(retransmit := Idle) else s, conflict, took, xid)
    case LeaseFire(due, xid) => LeaseCallback(if due then s.(lease := Idle) else s, xid)
    case ForceRenew(xid) => Renew(s, xid)
    case LoseInterfaceStep => LoseInterface(s).(entering := s.entering - 1, inside := s.inside + 1)
    case RestartStep(xid) => StartDiscovery(s, xid).(inside := s.inside - 1)
  }

  /** A finite run: a state, then events one after the other. */
  datatype Run = From(s: State) | Then(before: Run, e: Event)

  predicate Legal(r: Run)
    decreases r, 0
  {
    match r
    case From(_) => true
    case Then(b, e) => Legal(b) && Enabled(End(b), e)
  }

  function End(r: Run): State
    requires Legal(r)
    decreases r, 1
  {
    match r
    case From(s) => s
    case Then(b, e) => Step(End(b), e)
  }

  function Root(r: Run): State {
    match r
    case From(s) => s
    case Then(b, _) => Root(b)
  }

  ghost predicate IsStart(s: State) {
    exists iface, now, requested, xid :: s == Start(iface, now, requested, xid)
  }

  /** A run of a freshly started lease. */
  ghost predicate Started(r: Run) {
    Legal(r) && IsStart(Root(r))
  }

  /** An event that must not come while a loss is being handled: an ACK, a NAK, or a second expiry. */
  predicate Harmful(s: State, e: Event) {
    && s.entering + s.inside > 0
    && match e
       case Datagram(payload, _) =>
         (match ReplyOf(payload)
          case Some(r) => r.kind == Sender.ACK || r.kind == Sender.NAK
          case None => false)
       case LeaseFire(_, _) => s.phase == Rebinding
       case _ => false
  }

  /** A run without harmful events. */

  predicate Quiet(r: Run)
    requires Legal(r)
  {
    match r
    case From(_) => true
    case Then(b, e) => Quiet(b) && !Harmful(End(b), e)
  }

  predicate NotPast(t: Timer, now: nat) {
    t.Armed? ==> now <= t.at
  }

  /** Time does not pass a deadline before the callback has run, nor between a callback that finds the lease
      lost and the first critical section of the loss, and an ARP probe keeps to its timeout. The application's
      own callback, between the two critical sections, may take its time. */
  predicate TimelyEvent(s: State, e: Event) {
    && (e.Tick? && e.ms > 0 ==>
         NotPast(s.retransmit, s.now + e.ms) && NotPast(s.lease, s.now + e.ms) && s.entering == 0)
    && (e.RetransmitFire? ==> e.took <= ARP_PROBE_TIMEOUT_MS)
  }

  predicate Timely(r: Run)
    requires Legal(r)
  {
    match r
    case From(_) => true
    case Then(b, e) => Timely(b) && TimelyEvent(End(b), e)
  }
}
