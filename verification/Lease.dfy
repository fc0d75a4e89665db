/** The lease object itself, updated in place as the client does it, and proved to refine the machine. */
module Leases {
  import opened Net
  import opened Timing
  import opened LeaseParams
  import opened Machine
  import Options
  import Sender
  import Wire

  /** A datagram handed to UDP, with its destination and the sending path. */
  datatype Packet = Packet(bytes: seq<byte>, dst: Addr, viaIface: bool)

  function PacketOf(m: Sender.Outgoing, mac: Sender.Mac, host: Option<seq<byte>>): Packet {
    Packet(Sender.Datagram(m, mac, host), m.dst, m.viaIface)
  }

  /** The messages of a history, in order. */
  function Messages(h: History): seq<Sender.Outgoing> {
    match h
    case Nothing => []
    case After(past, o) => if o.Sent? then Messages(past) + [o.msg] else Messages(past)
  }

  /** `struct dmdhcp_lease`, together with the interface it configures, its clock, and the packets sent. */
  class Lease {
    const ifaceId: nat
    const mac: Sender.Mac
    const hostname: Option<seq<byte>>

    var phase: Phase
    var xid: u32
    var p: Params
    var retransmitIntervalMs: u32
    var retransmitCount: nat
    var declineRetryCount: nat
    var retransmitTimer: Timer
    var leaseTimer: Timer
    var defaultRoute: Option<Addr>
    var ifaceConfigured: bool

    var iface: Iface
    var now: nat
    var sent: seq<Packet>

    ghost var entering: nat
    ghost var inside: nat
    ghost var history: History

    ghost predicate Valid()
      reads this
    {
      && |sent| == |Messages(history)|
      && forall i | 0 <= i < |sent| :: sent[i] == PacketOf(Messages(history)[i], mac, hostname)
    }

    ghost function Model(): State
      reads this
    {
      State(phase, xid, p, retransmitIntervalMs, retransmitCount, declineRetryCount, retransmitTimer, leaseTimer,
            defaultRoute, ifaceConfigured, iface, now, entering, inside, history)
    }

    /** `dmdhcp_lease_table_create`. */
    constructor (ifaceId: nat, mac: Sender.Mac, hostname: Option<seq<byte>>, iface: Iface, now: nat)
      ensures Valid() && Model() == Created(iface, now)
      ensures this.ifaceId == ifaceId && this.mac == mac && this.hostname == hostname
    {
      this.ifaceId, this.mac, this.hostname := ifaceId, mac, hostname;
      phase, xid := Init, 0;
      p := NONE;
      retransmitIntervalMs, retransmitCount, declineRetryCount := 0, 0, 0;
      retransmitTimer, leaseTimer := Idle, Idle;
      defaultRoute, ifaceConfigured := None, false;
      this.iface, this.now, sent := iface, now, [];
      entering, inside, history := 0, 0, Nothing;
    }

    // ---- dmdhcp_output.c -------------------------------------------------------------------------

    method Send(m: Sender.Outgoing)
      requires Valid()
      modifies this`sent, this`history
      ensures Valid() && Model() == Machine.Send(old(Model()), m)
      ensures sent == old(sent) + [PacketOf(m, mac, hostname)]
    {
      var datagram := Sender.Compose(m, mac, hostname);
      sent := sent + [Packet(datagram, m.dst, m.viaIface)];
      history := After(history, Sent(m, now));
    }

    method ClearDnsServers()
      requires Valid()
      modifies this`p
      ensures Valid() && p == old(p).(dns := [])
    {
      while p.dns != []
        invariant Valid() && p == old(p).(dns := p.dns)
        decreases |p.dns|
      {
        p := p.(dns := p.dns[1..]);
      }
    }

    method ClearNtpServers()
      requires Valid()
      modifies this`p
      ensures Valid() && p == old(p).(ntp := [])
    {
      while p.ntp != []
        invariant Valid() && p == old(p).(ntp := p.ntp)
        decreases |p.ntp|
      {
        p := p.(ntp := p.ntp[1..]);
      }
    }

    method RearmBackoff()
      requires Valid()
      modifies this`retransmitIntervalMs, this`retransmitTimer
      ensures Valid() && Model() == Machine.RearmBackoff(old(Model()))
    {
      retransmitIntervalMs := NextBackoff(retransmitIntervalMs);
      retransmitTimer := Armed(now + retransmitIntervalMs);
    }

    /** An assignment to `lease->state`. */
    method EnterPhase(ph: Phase)
      requires Valid()
      modifies this`phase, this`history
      ensures Valid() && Model() == Enter(old(Model()), ph)
    {
      phase := ph;
      history := After(history, Entered(ph, xid, now));
    }

    method ArmRetransmitTimer(ms: nat)
      requires Valid()
      modifies this`retransmitTimer
      ensures Valid() && Model() == ArmRetransmit(old(Model()), ms)
    {
      retransmitTimer := Armed(now + ms);
    }

    ghost method Observe(o: Observation)
      requires Valid() && !o.Sent?
      modifies this`history
      ensures Valid() && Model() == Note(old(Model()), o)
    {
      history := After(history, o);
    }

    /** What the `dmdhcp_output_start_*` functions share: the first message of a phase, with the backoff
        started over. The state is assigned before the message goes out instead of after it; both happen
        under the lock, and the message does not depend on the state. */
    method BeginPhase(ph: Phase, m: Sender.Outgoing)
      requires Valid()
      modifies this
      ensures Valid() && Model() == Machine.Begin(old(Model()), ph, m)
    {
      retransmitCount := 0;
      retransmitIntervalMs := RETRANSMIT_INITIAL_MS;
      EnterPhase(ph);
      Send(m);
      ArmRetransmitTimer(RETRANSMIT_INITIAL_MS);
    }

    method StartDiscovery(freshXid: u32)
      requires Valid()
      modifies this
      ensures Valid() && Model() == Machine.StartDiscovery(old(Model()), freshXid)
    {
      xid := freshXid;
      p := p.(ip := Unset, server := Unset, gateway := Unset, mask := Unset);
      ClearDnsServers();
      ClearNtpServers();
      BeginPhase(Selecting, Sender.Outgoing(Sender.DISCOVER, xid, Unset, None, None, LIMITED_BROADCAST, true));
    }

    method StartReboot(freshXid: u32)
      requires Valid()
      modifies this
      ensures Valid() && Model() == Machine.StartReboot(old(Model()), freshXid)
    {
      xid := freshXid;
      BeginPhase(Rebooting, Sender.Outgoing(Sender.REQUEST, xid, Unset, Some(p.ip), None, LIMITED_BROADCAST, true));
    }

    method StartRenew(freshXid: u32)
      requires Valid()
      modifies this
      ensures Valid() && Model() == Machine.StartRenew(old(Model()), freshXid)
    {
      xid := freshXid;
      BeginPhase(Renewing, Sender.Outgoing(Sender.REQUEST, xid, p.ip, None, None, p.server, false));
    }

    method StartRebind(freshXid: u32)
      requires Valid()
      modifies this
      ensures Valid() && Model() == Machine.StartRebind(old(Model()), freshXid)
    {
      xid := freshXid;
      BeginPhase(Rebinding, Sender.Outgoing(Sender.REQUEST, xid, p.ip, None, None, LIMITED_BROADCAST, true));
    }

    method HandleConflict()
      requires Valid()
      modifies this
      ensures Valid() && Model() == Machine.HandleConflict(old(Model()))
    {
      Send(Sender.Outgoing(Sender.DECLINE, xid, Unset, Some(p.ip), Some(p.server), LIMITED_BROADCAST, true));
      declineRetryCount := declineRetryCount + 1;
      if declineRetryCount > MAX_DECLINE_RETRIES {
        EnterPhase(Failed);
        Observe(Notified(OnError));
        return;
      }
      EnterPhase(Declining);
      ArmRetransmitTimer(DECLINE_PAUSE_MS);
    }

    method RunConflictProbe(conflict: bool, took: nat)
      requires Valid()
      modifies this
      ensures Valid() && Model() == Machine.RunConflictProbe(old(Model()), conflict, took)
    {
      now := now + took;
      Observe(Probed(p.ip, !conflict));
      ActOnProbe(conflict);
    }

    /** The rest of `run_conflict_probe`. */
    method ActOnProbe(conflict: bool)
      requires Valid()
      modifies this
      ensures Valid() && Model() == Machine.ActOnProbe(old(Model()), conflict)
    {
      if conflict {
        HandleConflict();
        return;
      }
      if phase == CheckingOffer {
        var to := LIMITED_BROADCAST;
        BeginPhase(Requesting, Sender.Outgoing(Sender.REQUEST, xid, Unset, Some(p.ip), Some(p.server), to, true));
        return;
      }
      Commit(false);
    }

    /** A resend, and the next wait. */
    method Resend(m: Sender.Outgoing)
      requires Valid()
      modifies this
      ensures Valid() && Model() == Machine.RearmBackoff(Machine.Send(old(Model()), m))
    {
      Send(m);
      RearmBackoff();
    }

    method RetransmitTimerCallback(conflict: bool, took: nat, freshXid: u32)
      requires Valid()
      modifies this
      ensures Valid() && Model() == RetransmitCallback(old(Model()), conflict, took, freshXid)
    {
      match phase
      case Selecting =>
        Resend(Sender.Outgoing(Sender.DISCOVER, xid, Unset, None, None, LIMITED_BROADCAST, true));
      case Requesting =>
        retransmitCount := retransmitCount + 1;
        if retransmitCount > MAX_REQUEST_RETRANSMITS {
          StartDiscovery(freshXid);
        } else {
          Resend(Sender.Outgoing(Sender.REQUEST, xid, Unset, Some(p.ip), Some(p.server), LIMITED_BROADCAST, true));
        }
      case Rebooting =>
        retransmitCount := retransmitCount + 1;
        if retransmitCount > MAX_REQUEST_RETRANSMITS {
          StartDiscovery(freshXid);
        } else {
          Resend(Sender.Outgoing(Sender.REQUEST, xid, Unset, Some(p.ip), None, LIMITED_BROADCAST, true));
        }
      case Renewing =>
        Resend(Sender.Outgoing(Sender.REQUEST, xid, p.ip, None, None, p.server, false));
      case Rebinding =>
        Resend(Sender.Outgoing(Sender.REQUEST, xid, p.ip, None, None, LIMITED_BROADCAST, true));
      case CheckingOffer | CheckingAck =>
        RunConflictProbe(conflict, took);
      case Declining =>
        StartDiscovery(freshXid);
      case Init | InitReboot | Bound | Failed =>
    }

    // ---- dmdhcp_lifecycle.c ----------------------------------------------------------------------

    /** The byte loop of `dmdhcp_lifecycle_apply`. */
    static method BroadcastOf(ip: Quad, mask: Quad) returns (b: Quad)
      ensures b == Broadcast(ip, mask)
    {
      var bytes: seq<byte> := [];
      while |bytes| < 4
        invariant |bytes| <= 4 && bytes == Broadcast(ip, mask)[..|bytes|]
        decreases 4 - |bytes|
      {
        bytes := bytes + [OrNot(ip[|bytes|], mask[|bytes|], 8) % 256];
      }
      b := bytes;
    }

    method ApplyToInterface(ghost renewal: bool)
      requires Valid()
      modifies this
      ensures Valid() && Model() == Machine.Apply(old(Model()), renewal)
    {
      iface := iface.(mask := p.mask, ip := p.ip);
      if p.mask.V4? {
        var broadcast := BroadcastOf(Raw(p.ip), p.mask.bytes);
        iface := iface.(broadcast := V4(broadcast));
      }
      if p.gateway.V4? {
        defaultRoute := Some(p.gateway);
      } else {
        defaultRoute := None;
      }
      ifaceConfigured := true;
      Observe(Applied(p, renewal));
    }

    method UnapplyFromInterface()
      requires Valid()
      modifies this
      ensures Valid() && Model() == Machine.Unapply(old(Model()))
    {
      if !ifaceConfigured {
        return;
      }
      defaultRoute := None;
      iface := iface.(ip := Unset, mask := Unset, broadcast := Unset);
      ifaceConfigured := false;
      history := After(history, Unapplied);
    }

    /** The end of `run_conflict_probe` and of an accepted renewal. */
    method Commit(ghost renewal: bool)
      requires Valid()
      modifies this
      ensures Valid() && Model() == Machine.Commit(old(Model()), renewal)
    {
      ApplyToInterface(renewal);
      EnterPhase(Bound);
      declineRetryCount := 0;
      ArmT1();
      Observe(Notified(OnBound(renewal)));
    }

    method ArmT1()
      requires Valid()
      modifies this`leaseTimer
      ensures Valid() && Model() == ArmLease(old(Model()), T1Period(p.t1))
    {
      var periodMs := Wrap32(p.t1 * 1000);
      if periodMs == 0 {
        periodMs := 1;
      }
      leaseTimer := Armed(now + periodMs);
    }

    method ArmT2()
      requires Valid()
      modifies this`leaseTimer
      ensures Valid() && Model() == ArmLease(old(Model()), T2Period(p.t1, p.t2))
    {
      var remainingSec := if p.t2 > p.t1 then p.t2 - p.t1 else 1;
      leaseTimer := Armed(now + Wrap32(remainingSec * 1000));
    }

    method ArmExpiry()
      requires Valid()
      modifies this`leaseTimer
      ensures Valid() && Model() == ArmLease(old(Model()), ExpiryPeriod(p.t2, p.leaseTime))
    {
      var remainingSec := if p.leaseTime > p.t2 then p.leaseTime - p.t2 else 1;
      leaseTimer := Armed(now + Wrap32(remainingSec * 1000));
    }

    method LeaseTimerCallback(freshXid: u32)
      requires Valid()
      modifies this
      ensures Valid() && Model() == LeaseCallback(old(Model()), freshXid)
    {
      if phase == Bound {
        StartRenew(freshXid);
        ArmT2();
        return;
      }
      if phase == Renewing {
        StartRebind(freshXid);
        ArmExpiry();
        return;
      }
      if phase == Rebinding {
        entering := entering + 1;  // on to handle_lost, without the lock
      }
    }

    /** `dmdhcp_lifecycle_handle_lost`, first critical section. */
    method LoseInterface()
      requires Valid() && entering > 0
      modifies this
      ensures Valid() && Model() == Step(old(Model()), LoseInterfaceStep)
    {
      UnapplyFromInterface();
      ClearNtpServers();
      history := After(history, Notified(OnLost));
      entering, inside := entering - 1, inside + 1;
    }

    /** `dmdhcp_lifecycle_handle_lost`, second critical section. */
    method RestartAfterLoss(freshXid: u32)
      requires Valid() && inside > 0
      modifies this
      ensures Valid() && Model() == Step(old(Model()), RestartStep(freshXid))
    {
      StartDiscovery(freshXid);
      inside := inside - 1;
    }

    // ---- dmdhcp_input.c --------------------------------------------------------------------------

    method ReadAddr(options: seq<byte>, code: byte, keep: LeaseAddr) returns (a: LeaseAddr)
      ensures a == AddrOr(options, code, keep)
    {
      var r, at := Options.Find(options, code);
      a := keep;
      if r.Found? && |r.data| == 4 {
        a := V4(r.data);
      }
    }

    method ReadWord(options: seq<byte>, code: byte, absent: u32) returns (w: u32)
      ensures w == WordOr(options, code, absent)
    {
      var r, at := Options.Find(options, code);
      w := 0;
      if r.Found? {
        if |r.data| == 4 {
          w := U32Of(r.data);
        }
      } else {
        w := absent;
      }
    }

    method PopulateFromOptions(yiaddr: LeaseAddr, options: seq<byte>)
      requires Valid()
      modifies this`p
      ensures Valid() && p == Populate(old(p), yiaddr, options)
    {
      p := p.(ip := yiaddr);
      var mask := ReadAddr(options, Options.SUBNET_MASK, p.mask);
      var router, _ := Options.Find(options, Options.ROUTER);
      var gateway: LeaseAddr := Unset;
      if router.Found? && |router.data| / 4 > 0 {
        gateway := V4(router.data[0..4]);
      }
      var server := ReadAddr(options, Options.SERVER_ID, p.server);
      p := p.(mask := mask, gateway := gateway, server := server);
      var leaseTime := ReadWord(options, Options.LEASE_TIME, 0);
      var t1 := ReadWord(options, Options.RENEWAL_T1, DefaultT1(leaseTime));
      var t2 := ReadWord(options, Options.REBINDING_T2, DefaultT2(leaseTime));
      p := p.(leaseTime := leaseTime, t1 := t1, t2 := t2);
      ReadDnsServers(options);
      ReadNtpServers(options);
    }

    /** The loop that reads a multi-address option, one address after the other. */
    static method ReadAddresses(data: seq<byte>) returns (list: seq<LeaseAddr>)
      ensures list == V4s(Options.Addresses(data))
    {
      var count := |data| / 4;
      list := [];
      var i := 0;
      while i < count
        invariant i <= count && |list| == i
        invariant forall k | 0 <= k < i :: list[k] == V4(Options.Addresses(data)[k])
      {
        list := list + [V4(data[4 * i..4 * i + 4])];
        i := i + 1;
      }
    }

    method ReadDnsServers(options: seq<byte>)
      requires Valid()
      modifies this`p
      ensures Valid() && p == old(p).(dns := DnsServers(options))
    {
      ClearDnsServers();
      var r, _ := Options.Find(options, Options.DNS_SERVER);
      if r.Found? {
        var list := ReadAddresses(r.data);
        p := p.(dns := list);
      }
    }

    method ReadNtpServers(options: seq<byte>)
      requires Valid()
      modifies this`p
      ensures Valid() && p == old(p).(ntp := NtpServers(options))
    {
      ClearNtpServers();
      var r, _ := Options.Find(options, Options.NTP_SERVER);
      if r.Found? && |r.data| > 0 && |r.data| % 4 == 0 {
        var list := ReadAddresses(r.data);
        p := p.(ntp := list);
      }
    }

    /** An accepted OFFER or ACK is handed to the timer thread to be probed. */
    method CheckReply(ph: Phase, yiaddr: LeaseAddr, options: seq<byte>)
      requires Valid()
      modifies this
      ensures Valid()
      ensures var s := old(Model()).(p := Populate(old(p), yiaddr, options));
              Model() == ArmRetransmit(Enter(Note(s, Accepted(s.p)), ph), PROBE_HANDOFF_MS)
    {
      PopulateFromOptions(yiaddr, options);
      Observe(Accepted(p));
      EnterPhase(ph);
      ArmRetransmitTimer(PROBE_HANDOFF_MS);
    }

    /** An accepted ACK while a lease is held is applied at once. */
    method AcceptRenewal(yiaddr: LeaseAddr, options: seq<byte>)
      requires Valid()
      modifies this
      ensures Valid()
      ensures var s := old(Model()).(p := Populate(old(p), yiaddr, options));
              Model() == Machine.Commit(Note(s, Accepted(s.p)), true)
    {
      PopulateFromOptions(yiaddr, options);
      Observe(Accepted(p));
      Commit(true);
    }

    /** `dmdhcp_handle_datagram` from the moment it holds the lock. */
    method DispatchReply(kind: byte, yiaddr: LeaseAddr, options: seq<byte>, freshXid: u32)
      requires Valid()
      modifies this
      ensures Valid()
      ensures Model() == Dispatch(old(Model()), kind, Populate(old(p), yiaddr, options), freshXid)
    {
      if kind == Sender.OFFER && phase == Selecting {
        CheckReply(CheckingOffer, yiaddr, options);
        return;
      }
      if kind == Sender.ACK && (phase == Requesting || phase == Rebooting) {
        CheckReply(CheckingAck, yiaddr, options);
        return;
      }
      if kind == Sender.NAK && (phase == Requesting || phase == Rebooting) {
        StartDiscovery(freshXid);
        return;
      }
      if kind == Sender.ACK && (phase == Renewing || phase == Rebinding) {
        AcceptRenewal(yiaddr, options);
        return;
      }
      if kind == Sender.NAK && (phase == Renewing || phase == Rebinding) {
        entering := entering + 1;  // on to handle_lost, without the lock
      }
    }

    // ---- dmdhcp.c --------------------------------------------------------------------------------

    /** `dmdhcp_start`, once the new lease is in the table. */
    method Begin(requested: Addr, freshXid: u32)
      requires Valid() && Model() == Created(iface, now)
      modifies this
      ensures Valid() && Model() == Start(old(iface), old(now), requested, freshXid)
    {
      if requested.V4? {
        p := p.(ip := requested);
        StartReboot(freshXid);
      } else {
        StartDiscovery(freshXid);
      }
    }

    method ForceRenewal(freshXid: u32)
      requires Valid()
      modifies this
      ensures Valid() && Model() == Machine.Renew(old(Model()), freshXid)
    {
      if phase == Bound {
        StartRenew(freshXid);
      }
    }

    method ReleaseLease()
      requires Valid()
      modifies this
      ensures Valid() && Model() == Machine.Release(old(Model()))
    {
      if p.ip.V4? && p.server.V4? {
        Send(Sender.Outgoing(Sender.RELEASE, xid, p.ip, None, Some(p.server), p.server, false));
      }
      if ifaceConfigured {
        UnapplyFromInterface();
      }
    }

    method StopLease()
      requires Valid()
      modifies this
      ensures Valid() && Model() == Machine.Stop(old(Model()))
    {
      if ifaceConfigured {
        UnapplyFromInterface();
      }
    }

    // ---- the environment -------------------------------------------------------------------------

    /** A datagram that was found to be for this lease. */
    method Receive(payload: seq<byte>, freshXid: u32)
      requires Valid()
      modifies this
      ensures Valid() && Model() == Deliver(old(Model()), payload, freshXid)
    {
      var m, offset := Wire.Parse(payload);
      if m.None? || m.value.op != Wire.BOOTREPLY {
        return;
      }
      var kind, _ := Options.Find(payload[offset..], Options.MSG_TYPE);
      if !kind.Found? || |kind.data| != 1 {
        return;
      }
      DispatchReply(kind.data[0], m.value.yiaddr, payload[offset..], freshXid);
    }

    /** Whatever can happen to a lease, the object does what the machine does, and puts on the wire exactly
        the messages of the machine's history. */
    method Perform(e: Event)
      requires Valid() && Enabled(Model(), e)
      modifies this
      ensures Valid() && Model() == Step(old(Model()), e)
    {
      match e
      case Tick(ms) =>
        now := now + ms;
      case Datagram(payload, freshXid) =>
        Receive(payload, freshXid);
      case RetransmitFire(due, conflict, took, freshXid) =>
        if due {
          retransmitTimer := Idle;
        }
        RetransmitTimerCallback(conflict, took, freshXid);
      case LeaseFire(due, freshXid) =>
        if due {
          leaseTimer := Idle;
        }
        LeaseTimerCallback(freshXid);
      case ForceRenew(freshXid) =>
        ForceRenewal(freshXid);
      case LoseInterfaceStep =>
        LoseInterface();
      case RestartStep(freshXid) =>
        RestartAfterLoss(freshXid);
    }
  }
}
