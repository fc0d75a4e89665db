/** The lease table as the program keeps it: a list of lease objects, searched and walked in order. */
module LeaseTables {
  import opened Net
  import opened LeaseParams
  import opened Machine
  import opened Leases
  import opened Tables
  import Options
  import Sender
  import Wire

  predicate Distinct(leases: seq<Lease>) {
    forall i, j | 0 <= i < j < |leases| :: leases[i].ifaceId != leases[j].ifaceId
  }

  ghost predicate AllValid(leases: seq<Lease>)
    reads leases
  {
    forall i | 0 <= i < |leases| :: leases[i].Valid()
  }

  lemma FewerLeases(leases: seq<Lease>, i: nat)
    requires Distinct(leases) && AllValid(leases) && i < |leases|
    ensures var fewer := leases[..i] + leases[i + 1..];
            Distinct(fewer) && AllValid(fewer) && leases[i] !in fewer
  {
  }

  lemma LastIsNew(others: seq<Lease>, lease: Lease)
    requires Distinct(others + [lease])
    ensures lease !in others
  {
    var leases := others + [lease];
    forall i | 0 <= i < |others| ensures others[i] != lease {
      assert leases[i] == others[i] && leases[|others|] == lease;
    }
  }

  ghost function RowOf(lease: Lease): Row
    reads lease
  {
    Row(lease.ifaceId, lease.Model())
  }

  ghost function RowsOf(leases: seq<Lease>): (rows: seq<Row>)
    reads leases
    ensures |rows| == |leases|
    ensures forall i | 0 <= i < |rows| :: rows[i] == RowOf(leases[i])
  {
    seq(|leases|, i requires 0 <= i < |leases| reads leases => RowOf(leases[i]))
  }

  lemma RowsOfMore(leases: seq<Lease>, lease: Lease)
    ensures RowsOf(leases + [lease]) == RowsOf(leases) + [RowOf(lease)]
  {
  }

  lemma RowsOfFewer(leases: seq<Lease>, i: nat)
    requires i < |leases|
    ensures RowsOf(leases[..i] + leases[i + 1..]) == RowsOf(leases)[..i] + RowsOf(leases)[i + 1..]
  {
  }

  lemma OneRowChanged(before: seq<Row>, after: seq<Row>, i: nat)
    requires i < |before| == |after| && forall k | 0 <= k < |before| && k != i :: after[k] == before[k]
    ensures after == before[i := after[i]]
  {
  }

  class LeaseTable {
    var leases: seq<Lease>

    ghost predicate Valid()
      reads this, leases
    {
      Distinct(leases) && AllValid(leases)
    }

    ghost function Rows(): (rows: seq<Row>)
      reads this, leases
      ensures |rows| == |leases|
      ensures forall i | 0 <= i < |rows| :: rows[i].iface == leases[i].ifaceId
    {
      RowsOf(leases)
    }

    constructor ()
      ensures Valid() && leases == []
    {
      leases := [];
    }

    /** `dmdhcp_lease_table_find_by_iface`: the position of the lease, or the length of the table. */
    method FindByIface(ifaceId: nat) returns (i: nat)
      requires Valid()
      ensures i == IndexOf(Rows(), ifaceId)
    {
      i := 0;
      while i < |leases| && leases[i].ifaceId != ifaceId
        invariant i <= |leases|
        invariant forall k | 0 <= k < i :: leases[k].ifaceId != ifaceId
      {
        i := i + 1;
      }
      assert Rows()[..i] + Rows()[i..] == Rows();
      IndexUnique(Rows(), ifaceId, i);
    }

    /** `dmdhcp_lease_table_find_by_xid`. */
    method FindByXid(ifaceId: nat, xid: u32) returns (i: nat)
      requires Valid()
      ensures i <= |leases|
      ensures i < |leases| ==> i == IndexOf(Rows(), ifaceId) && leases[i].xid == xid
      ensures i == |leases| ==>
                var k := IndexOf(Rows(), ifaceId);
                k == |leases| || leases[k].xid != xid
    {
      i := 0;
      while i < |leases| && !(leases[i].ifaceId == ifaceId && leases[i].xid == xid)
        invariant i <= |leases|
        invariant forall k | 0 <= k < i :: !(leases[k].ifaceId == ifaceId && leases[k].xid == xid)
      {
        i := i + 1;
      }
    }

    /** `dmdhcp_lease_table_insert`; `false` is -EEXIST. */
    method Insert(lease: Lease) returns (ok: bool)
      requires Valid() && lease.Valid()
      modifies this
      ensures Valid()
      ensures ok <==> IndexOf(old(Rows()), lease.ifaceId) == |old(Rows())|
      ensures leases == if ok then old(leases) + [lease] else old(leases)
    {
      var i := FindByIface(lease.ifaceId);
      ok := i == |leases|;
      if ok {
        leases := leases + [lease];
      }
    }

    /** The pointer search of `dmlist_remove`. */
    method PositionOf(lease: Lease) returns (i: nat)
      ensures i <= |leases| && (i < |leases| <==> lease in leases)
      ensures i < |leases| ==> leases[i] == lease
    {
      i := 0;
      while i < |leases| && leases[i] != lease
        invariant i <= |leases| && lease !in leases[..i]
      {
        i := i + 1;
      }
      assert i == |leases| ==> leases[..i] == leases;
    }

    /** `dmdhcp_lease_table_remove`; nothing happens if the lease is not in the table. */
    method Remove(lease: Lease)
      requires Valid()
      modifies this
      ensures Valid()
      ensures if lease in old(leases) then Rows() == Without(old(Rows()), lease.ifaceId) && lease !in leases
              else leases == old(leases)
    {
      var i := PositionOf(lease);
      if i < |leases| {
        IndexUnique(Rows(), lease.ifaceId, i);
        RowsOfFewer(leases, i);
        FewerLeases(leases, i);
        ghost var fewer := Without(Rows(), lease.ifaceId);
        leases := leases[..i] + leases[i + 1..];
        assert Rows() == fewer;
      }
    }

    /** `dmdhcp_start`; `None` if the interface already has a lease. */
    method StartLease(ifaceId: nat, mac: Sender.Mac, hostname: Option<seq<byte>>, config: Iface, now: nat,
                      requested: Addr, xid: u32)
      returns (lease: Option<Lease>)
      requires Valid()
      modifies this
      ensures Valid()
      ensures Rows() == WithLease(old(Rows()), ifaceId, config, now, requested, xid)
      ensures lease.None? <==> IndexOf(old(Rows()), ifaceId) < |old(Rows())|
      ensures leases == if lease.Some? then old(leases) + [lease.value] else old(leases)
      ensures lease.Some? ==>
                && fresh(lease.value) && lease.value.ifaceId == ifaceId
                && lease.value.mac == mac && lease.value.hostname == hostname
    {
      ghost var rows := Rows();
      var l := new Lease(ifaceId, mac, hostname, config, now);
      assert Rows() == rows;
      var ok := Insert(l);
      assert RowsOf(old(leases)) == rows;
      if !ok {
        return None;
      }
      BeginLast(l, requested, xid, old(leases));
      return Some(l);
    }

    /** The lease just inserted is started. */
    method BeginLast(l: Lease, requested: Addr, xid: u32, ghost others: seq<Lease>)
      requires Valid() && leases == others + [l] && l.Model() == Created(l.iface, l.now)
      modifies l
      ensures Valid() && leases == old(leases)
      ensures Rows() == old(RowsOf(others)) + [Row(l.ifaceId, Start(old(l.iface), old(l.now), requested, xid))]
    {
      assert l !in others by {
        LastIsNew(others, l);
      }
      assert leases[|others|] == l;
      l.Begin(requested, xid);
      RowsOfMore(others, l);
    }

    /** `dmdhcp_stop`. */
    method StopLease(lease: Lease)
      requires Valid() && lease.Valid() && lease in leases
      modifies this, lease
      ensures Valid() && lease.Model() == Stop(old(lease.Model()))
      ensures Rows() == Without(old(Rows()), lease.ifaceId)
    {
      Remove(lease);
      lease.StopLease();
    }

    /** `dmdhcp_release`. */
    method ReleaseLease(lease: Lease)
      requires Valid() && lease.Valid() && lease in leases
      modifies this, lease
      ensures Valid() && lease.Model() == Release(old(lease.Model()))
      ensures Rows() == Without(old(Rows()), lease.ifaceId)
    {
      Remove(lease);
      lease.ReleaseLease();
    }

    /** The dispatch of a reply to the lease at position `i`. */
    method DispatchTo(i: nat, kind: byte, yiaddr: LeaseAddr, options: seq<byte>, xid: u32)
      requires Valid() && i < |leases|
      modifies leases[i]
      ensures Valid() && leases == old(leases)
      ensures var row := old(Rows())[i];
              Rows() == old(Rows())[i := row.(s := Dispatch(row.s, kind, Populate(row.s.p, yiaddr, options), xid))]
    {
      ghost var rows := Rows();
      leases[i].DispatchReply(kind, yiaddr, options, xid);
      assert forall k | 0 <= k < |leases| && k != i :: leases[k] != leases[i] && RowOf(leases[k]) == rows[k];
      OneRowChanged(rows, Rows(), i);
    }

    /** Any other event of the lease at position `i`: a timer callback, a forced renewal, a step of a loss. */
    method Perform(i: nat, e: Event)
      requires Valid() && i < |leases| && !e.Datagram? && Enabled(leases[i].Model(), e)
      modifies leases[i]
      ensures Valid() && leases == old(leases)
      ensures Rows() == Moved(old(Rows()), leases[i].ifaceId, e)
    {
      ghost var rows := Rows();
      IndexUnique(rows, leases[i].ifaceId, i);
      leases[i].Perform(e);
      assert forall k | 0 <= k < |leases| && k != i :: leases[k] != leases[i] && RowOf(leases[k]) == rows[k];
      OneRowChanged(rows, Rows(), i);
    }

    /** `dmdhcp_handle_datagram`. */
    method HandleDatagram(ifaceId: nat, payload: seq<byte>, xid: u32)
      requires Valid()
      modifies leases
      ensures Valid() && leases == old(leases)
      ensures Rows() == Arrived(old(Rows()), ifaceId, payload, xid)
    {
      ghost var rows := Rows();
      var m, offset := Wire.Parse(payload);
      if m.None? || m.value.op != Wire.BOOTREPLY {
        return;
      }
      var i := FindByXid(ifaceId, m.value.xid);
      if i == |leases| {
        return;
      }
      assert Addressee(rows, ifaceId, payload) == Some(i);
      var options := payload[offset..];
      var kind, _ := Options.Find(options, Options.MSG_TYPE);
      if !kind.Found? || |kind.data| != 1 {
        assert Deliver(rows[i].s, payload, xid) == rows[i].s;
        return;
      }
      assert ReplyOf(payload) == Some(Reply(kind.data[0], m.value.yiaddr, options));
      DispatchTo(i, kind.data[0], m.value.yiaddr, options, xid);
    }

    /** `dmdhcp_get_ntp_servers`; `None` is -EINVAL. */
    method GetNtpServers(out: array<LeaseAddr>, max: nat) returns (written: Option<nat>)
      requires Valid() && max <= out.Length
      modifies out
      ensures written.None? <==> max == 0
      ensures written.Some? ==> Collected(out[..], old(out[..]), Servers(Rows()), written.value, max)
    {
      if max == 0 {
        return None;
      }
      ghost var rows, was := Rows(), out[..];
      var n: nat := 0;
      var i := 0;
      while i < |leases| && n < max
        invariant i <= |leases| && rows == Rows()
        invariant Collected(out[..], was, Servers(rows[..i]), n, max)
      {
        n := CollectFrom(leases[i], out, n, max, was, Servers(rows[..i]));
        ServersNext(rows, i);
        i := i + 1;
      }
      CollectedIsFull(out[..], was, rows, i, n, max);
      written := Some(n);
    }

    /** The body of the outer loop: the servers of one lease, if it is held. */
    static method CollectFrom(lease: Lease, out: array<LeaseAddr>, n: nat, max: nat, ghost was: seq<LeaseAddr>,
                              ghost all: seq<LeaseAddr>)
      returns (next: nat)
      requires n < max <= out.Length && Collected(out[..], was, all, n, max)
      modifies out
      ensures Collected(out[..], was, all + Offered(RowOf(lease)), next, max)
    {
      next := n;
      if lease.phase == Bound || lease.phase == Renewing || lease.phase == Rebinding {
        ghost var before := out[..];
        next := CopyServers(out, n, max, lease.p.ntp);
        CollectMore(before, out[..], was, all, lease.p.ntp, n, next, max);
      }
    }

    /** The inner loop: as much of the list as fits. */
    static method CopyServers(out: array<LeaseAddr>, from: nat, max: nat, list: seq<LeaseAddr>) returns (n: nat)
      requires from <= max <= out.Length
      modifies out
      ensures n == (if from + |list| < max then from + |list| else max)
      ensures forall k | from <= k < n :: out[k] == list[k - from]
      ensures forall k | 0 <= k < out.Length && !(from <= k < n) :: out[k] == old(out[k])
    {
      n := from;
      var j := 0;
      while j < |list| && n < max
        invariant j <= |list| && n == from + j <= max
        invariant forall k | from <= k < n :: out[k] == list[k - from]
        invariant forall k | 0 <= k < out.Length && !(from <= k < n) :: out[k] == old(out[k])
      {
        out[n] := list[j];
        n := n + 1;
        j := j + 1;
      }
    }

    /** `dmdhcp_lease_table_visit_ntp_servers`: what the visitor was told. */
    method VisitNtpServers(stop: Visitor) returns (told: seq<Quad>)
      requires Valid()
      ensures told == VisitRows(Rows(), stop)
    {
      told := [];
      var i := 0;
      while i < |leases|
        invariant i <= |leases| && told == VisitRows(Rows()[..i], stop)
      {
        var lease := leases[i];
        ghost var before := told;
        assert Rows()[..i + 1][..i] == Rows()[..i];
        if lease.phase == Bound || lease.phase == Renewing || lease.phase == Rebinding {
          var list := lease.p.ntp;
          var j := 0;
          while j < |list|
            invariant j <= |list|
            invariant Visit(list, stop, before) == Visit(list[j..], stop, told)
          {
            var address := list[j];
            assert list[j..][1..] == list[j + 1..];
            if address.V4? {
              told := told + [address.bytes];
              if stop(told) {
                break;
              }
            }
            j := j + 1;
          }
        }
        i := i + 1;
      }
      assert Rows()[..i] == Rows();
    }
  }

  /** The first `n` places hold the first servers of `all`, as many as there are up to `max`; the places
      behind are as they were. */
  predicate Collected(now: seq<LeaseAddr>, was: seq<LeaseAddr>, all: seq<LeaseAddr>, n: nat, max: nat) {
    && |now| == |was| && n <= |now| && n == (if |all| < max then |all| else max)
    && (forall k | 0 <= k < n :: now[k] == all[k])
    && (forall k | n <= k < |now| :: now[k] == was[k])
  }

  lemma CollectMore(before: seq<LeaseAddr>, after: seq<LeaseAddr>, was: seq<LeaseAddr>, all: seq<LeaseAddr>,
                    list: seq<LeaseAddr>, k: nat, n: nat, max: nat)
    requires Collected(before, was, all, k, max) && k < max && |after| == |before|
    requires n == (if k + |list| < max then k + |list| else max) && n <= |after|
    requires forall i | k <= i < n :: after[i] == list[i - k]
    requires forall i | 0 <= i < |after| && !(k <= i < n) :: after[i] == before[i]
    ensures Collected(after, was, all + list, n, max)
  {
  }

  lemma ServersNext(rows: seq<Row>, i: nat)
    requires i < |rows|
    ensures Servers(rows[..i + 1]) == Servers(rows[..i]) + Offered(rows[i])
  {
    assert rows[..i + 1][..i] == rows[..i];
  }

  /** The walk ends when it has seen all rows, or when the buffer is full. */
  lemma CollectedIsFull(now: seq<LeaseAddr>, was: seq<LeaseAddr>, rows: seq<Row>, i: nat, n: nat, max: nat)
    requires i <= |rows| && Collected(now, was, Servers(rows[..i]), n, max) && (n == max || i == |rows|)
    ensures Collected(now, was, Servers(rows), n, max)
  {
    ServersPrefix(rows, i);
    if i == |rows| {
      assert rows[..i] == rows;
    }
  }

  lemma {:induction false} IndexUnique(rows: seq<Row>, iface: nat, i: nat)
    requires i <= |rows| && (forall k | 0 <= k < i :: rows[k].iface != iface) && (i < |rows| ==> rows[i].iface == iface)
    ensures IndexOf(rows, iface) == i
  {
  }
}
