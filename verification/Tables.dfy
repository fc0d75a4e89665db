/** The lease table as a value: one row per interface, and what any sequence of operations on it keeps. */
module Tables {
  import opened Net
  import opened Machine
  import opened Discipline
  import opened Agreement
  import Wire

  datatype Row = Row(iface: nat, s: State)

  predicate OnePerInterface(rows: seq<Row>) {
    forall i, j | 0 <= i < j < |rows| :: rows[i].iface != rows[j].iface
  }

  /** The first row that satisfies the search of `dmdhcp_lease_table_find_by_iface`. */
  function IndexOf(rows: seq<Row>, iface: nat): (i: nat)
    ensures i <= |rows|
    ensures i < |rows| ==> rows[i].iface == iface
    ensures forall k | 0 <= k < i :: rows[k].iface != iface
  {
    if rows == [] || rows[0].iface == iface then 0 else 1 + IndexOf(rows[1..], iface)
  }

  /** The row a datagram is for: that of the interface it came in on, if it waits on the datagram's
      transaction. */
  function Addressee(rows: seq<Row>, iface: nat, payload: seq<byte>): Option<nat> {
    match Wire.Decode(payload)
    case None => None
    case Some(m) =>
      var i := IndexOf(rows, iface);
      if m.op == Wire.BOOTREPLY && i < |rows| && rows[i].s.xid == m.xid then Some(i) else None
  }

  function Arrived(rows: seq<Row>, iface: nat, payload: seq<byte>, xid: u32): (r: seq<Row>)
    ensures |r| == |rows|
  {
    match Addressee(rows, iface, payload)
    case None => rows
    case Some(i) => rows[i := rows[i].(s := Deliver(rows[i].s, payload, xid))]
  }

  function Without(rows: seq<Row>, iface: nat): seq<Row> {
    var i := IndexOf(rows, iface);
    if i < |rows| then rows[..i] + rows[i + 1..] else rows
  }

  /** A start is refused if the interface has a lease. */
  function WithLease(rows: seq<Row>, iface: nat, config: Iface, now: nat, requested: Addr, xid: u32): seq<Row> {
    if IndexOf(rows, iface) < |rows| then rows else rows + [Row(iface, Start(config, now, requested, xid))]
  }

  /** An event of one lease. */
  function Moved(rows: seq<Row>, iface: nat, e: Event): seq<Row> {
    var i := IndexOf(rows, iface);
    if i < |rows| && Enabled(rows[i].s, e) then rows[i := rows[i].(s := Step(rows[i].s, e))] else rows
  }

  /** What can happen to the table. `Local` is any event of one lease that is not a datagram. */
  datatype TableEvent =
    | StartLease(iface: nat, config: Iface, now: nat, requested: Addr, xid: u32)
    | EndLease(iface: nat)
    | Arrive(iface: nat, payload: seq<byte>, xid: u32)
    | Local(iface: nat, e: Event)

  function TableStep(rows: seq<Row>, t: TableEvent): seq<Row> {
    match t
    case StartLease(iface, config, now, requested, xid) => WithLease(rows, iface, config, now, requested, xid)
    case EndLease(iface) => Without(rows, iface)
    case Arrive(iface, payload, xid) => Arrived(rows, iface, payload, xid)
    case Local(iface, e) => if e.Datagram? then rows else Moved(rows, iface, e)
  }

  datatype TableRun = EmptyTable | More(before: TableRun, t: TableEvent)

  function Table(r: TableRun): seq<Row> {
    match r
    case EmptyTable => []
    case More(b, t) => TableStep(Table(b), t)
  }

  // ---- one lease per interface -------------------------------------------------------------------

  /** Under any sequence of starts, stops, releases and events the table holds at most one lease for an
      interface. */
  lemma {:induction false} OneLeasePerInterface(r: TableRun)
    ensures OnePerInterface(Table(r))
  {
    if r.More? {
      OneLeasePerInterface(r.before);
      StepKeepsOne(Table(r.before), r.t);
    }
  }

  lemma StepKeepsOne(rows: seq<Row>, t: TableEvent)
    requires OnePerInterface(rows)
    ensures OnePerInterface(TableStep(rows, t))
  {
    match t
    case EndLease(iface) => WithoutKeepsOne(rows, iface);
    case _ =>
  }

  lemma WithoutKeepsOne(rows: seq<Row>, iface: nat)
    requires OnePerInterface(rows)
    ensures OnePerInterface(Without(rows, iface))
  {
  }

  // ---- isolation ---------------------------------------------------------------------------------

  /** A datagram changes at most the lease of the interface it arrived on, and that one only if the lease
      waits on the datagram's transaction. */
  lemma DatagramsAreIsolated(rows: seq<Row>, iface: nat, payload: seq<byte>, xid: u32, k: nat)
    requires k < |rows| && Arrived(rows, iface, payload, xid)[k] != rows[k]
    ensures rows[k].iface == iface
    ensures Wire.Decode(payload).Some? && Wire.Decode(payload).value.op == Wire.BOOTREPLY
    ensures Wire.Decode(payload).value.xid == rows[k].s.xid
    ensures Arrived(rows, iface, payload, xid)[k] == rows[k].(s := Deliver(rows[k].s, payload, xid))
  {
  }

  // ---- what each operation does to each row ------------------------------------------------------

  /** A datagram reaches the lease of its interface if and only if it is a reply in the lease's transaction, and
      no other row changes. */
  lemma DatagramsReachTheirLease(rows: seq<Row>, iface: nat, payload: seq<byte>, xid: u32, k: nat)
    requires OnePerInterface(rows) && k < |rows|
    ensures var m := Wire.Decode(payload);
            Arrived(rows, iface, payload, xid)[k]
            == if rows[k].iface == iface && m.Some? && m.value.op == 2 && m.value.xid == rows[k].s.xid
               then Row(iface, Deliver(rows[k].s, payload, xid)) else rows[k]
  {
    if rows[k].iface == iface {
      InTable(rows, iface, k);
    }
  }

  lemma InTable(rows: seq<Row>, iface: nat, k: nat)
    requires OnePerInterface(rows) && k < |rows| && rows[k].iface == iface
    ensures IndexOf(rows, iface) == k
  {
    assert forall j | 0 <= j < k :: rows[j].iface != rows[k].iface;
  }

  predicate HasLease(rows: seq<Row>, iface: nat) {
    exists k | 0 <= k < |rows| :: rows[k].iface == iface
  }

  /** A start is refused if and only if the interface has a lease; otherwise a started lease comes last and no
      other row changes. */
  lemma StartsAppend(rows: seq<Row>, iface: nat, config: Iface, now: nat, requested: Addr, xid: u32)
    ensures WithLease(rows, iface, config, now, requested, xid)
         == if HasLease(rows, iface) then rows else rows + [Row(iface, Start(config, now, requested, xid))]
  {
    var i := IndexOf(rows, iface);
    assert i < |rows| ==> rows[i].iface == iface;
  }

  /** The rows of the other interfaces. */
  function Others(rows: seq<Row>, iface: nat): seq<Row> {
    if rows == [] then [] else (if rows[0].iface == iface then [] else [rows[0]]) + Others(rows[1..], iface)
  }

  lemma {:induction false} NoneIsOther(rows: seq<Row>, iface: nat)
    requires forall k | 0 <= k < |rows| :: rows[k].iface != iface
    ensures Others(rows, iface) == rows
  {
    if rows != [] {
      NoneIsOther(rows[1..], iface);
    }
  }

  /** A stop or release removes the row of its interface; all others survive, in order. */
  lemma {:induction false} RemovalKeepsOthers(rows: seq<Row>, iface: nat)
    requires OnePerInterface(rows)
    ensures Without(rows, iface) == Others(rows, iface)
  {
    if rows == [] {
    } else if rows[0].iface == iface {
      NoneIsOther(rows[1..], iface);
      assert rows[..0] + rows[1..] == rows[1..];
    } else {
      RemovalKeepsOthers(rows[1..], iface);
      RemovalBehind(rows, iface);
    }
  }

  lemma RemovalBehind(rows: seq<Row>, iface: nat)
    requires rows != [] && rows[0].iface != iface
    ensures Without(rows, iface) == [rows[0]] + Without(rows[1..], iface)
  {
    var j := IndexOf(rows[1..], iface);
    assert IndexOf(rows, iface) == 1 + j;
    if 1 + j < |rows| {
      assert rows[..1 + j] == [rows[0]] + rows[1..][..j];
      assert rows[2 + j..] == rows[1..][1 + j..];
    }
  }

  /** An event of a lease is a step of its row, and no other row changes. */
  lemma EventsMoveTheirLease(rows: seq<Row>, iface: nat, e: Event, k: nat)
    requires OnePerInterface(rows) && k < |rows|
    ensures |Moved(rows, iface, e)| == |rows|
    ensures Moved(rows, iface, e)[k]
         == if rows[k].iface == iface && Enabled(rows[k].s, e) then Row(iface, Step(rows[k].s, e)) else rows[k]
  {
    if rows[k].iface == iface {
      InTable(rows, iface, k);
    }
  }

  // ---- every lease in the table is a run of the machine ------------------------------------------

  ghost predicate Reached(s: State) {
    exists r :: Started(r) && End(r) == s
  }

  lemma StepReached(s: State, e: Event)
    requires Reached(s) && Enabled(s, e)
    ensures Reached(Step(s, e))
  {
    var r :| Started(r) && End(r) == s;
    assert Started(Then(r, e)) && End(Then(r, e)) == Step(s, e);
  }

  lemma StartReached(config: Iface, now: nat, requested: Addr, xid: u32)
    ensures Reached(Start(config, now, requested, xid))
  {
    var s := Start(config, now, requested, xid);
    assert Started(From(s)) && End(From(s)) == s;
  }

  ghost predicate AllReached(rows: seq<Row>) {
    forall k | 0 <= k < |rows| :: Reached(rows[k].s)
  }

  lemma ArrivedReached(rows: seq<Row>, iface: nat, payload: seq<byte>, xid: u32)
    requires AllReached(rows)
    ensures AllReached(Arrived(rows, iface, payload, xid))
  {
    match Addressee(rows, iface, payload)
    case None =>
    case Some(i) => StepReached(rows[i].s, Datagram(payload, xid));
  }

  lemma MovedReached(rows: seq<Row>, iface: nat, e: Event)
    requires AllReached(rows)
    ensures AllReached(Moved(rows, iface, e))
  {
    var i := IndexOf(rows, iface);
    if i < |rows| && Enabled(rows[i].s, e) {
      StepReached(rows[i].s, e);
    }
  }

  lemma WithoutReached(rows: seq<Row>, iface: nat)
    requires AllReached(rows)
    ensures AllReached(Without(rows, iface))
  {
  }

  lemma StepsReached(rows: seq<Row>, t: TableEvent)
    requires AllReached(rows)
    ensures AllReached(TableStep(rows, t))
  {
    match t
    case StartLease(_, config, now, requested, xid) => StartReached(config, now, requested, xid);
    case EndLease(iface) => WithoutReached(rows, iface);
    case Arrive(iface, payload, xid) => ArrivedReached(rows, iface, payload, xid);
    case Local(iface, e) => MovedReached(rows, iface, e);
  }

  lemma {:induction false} TablesReached(r: TableRun)
    ensures AllReached(Table(r))
  {
    if r.More? {
      TablesReached(r.before);
      StepsReached(Table(r.before), r.t);
    }
  }

  /** Whatever happens to the table, each lease in it is at the end of a run of its own, so that all that is
      proved of runs holds of it. */
  lemma RowsAreRuns(r: TableRun, k: nat)
    requires k < |Table(r)|
    ensures Reached(Table(r)[k].s)
  {
    TablesReached(r);
  }

  // ---- servers across leases ---------------------------------------------------------------------

  /** The NTP servers of a row, if it holds a lease. */
  function Offered(row: Row): seq<LeaseAddr> {
    if Held(row.s.phase) then row.s.p.ntp else []
  }

  /** The NTP servers of all held leases, in table order. */
  function Servers(rows: seq<Row>): seq<LeaseAddr> {
    if rows == [] then [] else Servers(rows[..|rows| - 1]) + Offered(rows[|rows| - 1])
  }

  lemma {:induction false} ServersPrefix(rows: seq<Row>, i: nat)
    requires i <= |rows|
    ensures Servers(rows[..i]) <= Servers(rows)
  {
    if i == |rows| {
      assert rows[..i] == rows;
    } else {
      ServersPrefix(rows[..|rows| - 1], i);
      assert rows[..|rows| - 1][..i] == rows[..i];
    }
  }

  /** A visitor is told the address and answers whether to stop; it may remember what it was told. */
  type Visitor = seq<Quad> -> bool

  /** The addresses reported after visiting a list, `told` being those reported before. */
  function Visit(list: seq<LeaseAddr>, stop: Visitor, told: seq<Quad>): seq<Quad> {
    if list == [] then told
    else if !list[0].V4? then Visit(list[1..], stop, told)
    else if stop(told + [list[0].bytes]) then told + [list[0].bytes]
    else Visit(list[1..], stop, told + [list[0].bytes])
  }

  /** A stop ends the visit of the lease at hand; the next lease is still visited. */
  function VisitRows(rows: seq<Row>, stop: Visitor): seq<Quad> {
    if rows == [] then [] else Visit(Offered(rows[|rows| - 1]), stop, VisitRows(rows[..|rows| - 1], stop))
  }

  function Bytes(list: seq<LeaseAddr>): (r: seq<Quad>)
    requires AllV4(list)
    ensures |r| == |list| && forall i | 0 <= i < |r| :: r[i] == list[i].bytes
  {
    seq(|list|, i requires 0 <= i < |list| => list[i].bytes)
  }

  lemma BytesOfMore(list: seq<LeaseAddr>, told: seq<Quad>)
    requires AllV4(list) && list != []
    ensures told + Bytes(list) == (told + [list[0].bytes]) + Bytes(list[1..])
  {
  }

  lemma {:induction false} VisitTellsAll(list: seq<LeaseAddr>, stop: Visitor, told: seq<Quad>)
    requires AllV4(list) && forall q :: !stop(q)
    ensures Visit(list, stop, told) == told + Bytes(list)
  {
    if list != [] {
      VisitTellsAll(list[1..], stop, told + [list[0].bytes]);
      BytesOfMore(list, told);
    }
  }

  lemma {:induction false} VisitRowsTellsAll(rows: seq<Row>, stop: Visitor)
    requires forall i | 0 <= i < |rows| :: AllV4(rows[i].s.p.ntp)
    requires forall q :: !stop(q)
    ensures AllV4(Servers(rows)) && VisitRows(rows, stop) == Bytes(Servers(rows))
  {
    if rows != [] {
      var n := |rows| - 1;
      VisitRowsTellsAll(rows[..n], stop);
      VisitTellsAll(Offered(rows[n]), stop, VisitRows(rows[..n], stop));
    }
  }

  /** A visit tells the addresses one by one up to and including the first at which the visitor asks to stop. */
  lemma {:induction false} VisitTellsUpToStop(list: seq<LeaseAddr>, stop: Visitor, told: seq<Quad>) returns (k: nat)
    requires AllV4(list)
    ensures k <= |list| && Visit(list, stop, told) == told + Bytes(list[..k])
    ensures forall j | 0 < j < k :: !stop(told + Bytes(list[..j]))
    ensures k < |list| ==> k > 0 && stop(told + Bytes(list[..k]))
  {
    if list == [] {
      k := 0;
    } else {
      var first := [list[0].bytes];
      BytesOfPrefix(list, told, 1);
      if stop(told + first) {
        k := 1;
      } else {
        var n := VisitTellsUpToStop(list[1..], stop, told + first);
        k := n + 1;
        BytesOfPrefix(list, told, k);
        forall j | 0 < j < k ensures !stop(told + Bytes(list[..j])) {
          BytesOfPrefix(list, told, j);
        }
      }
    }
  }

  lemma BytesOfPrefix(list: seq<LeaseAddr>, told: seq<Quad>, k: nat)
    requires AllV4(list) && 0 < k <= |list|
    ensures told + Bytes(list[..k]) == (told + [list[0].bytes]) + Bytes(list[1..][..k - 1])
    ensures k == 1 ==> told + Bytes(list[..k]) == told + [list[0].bytes]
  {
  }

  /** The servers that count are those of the leases whose interface is configured. */
  lemma ServersOfConfiguredLeases(r: Run, iface: nat)
    requires Started(r) && Quiet(r)
    ensures Offered(Row(iface, End(r))) == if End(r).configured then End(r).p.ntp else []
  {
    RunInStep(r);
  }

  /** In every table that can come about, a visitor that never stops is told exactly the NTP servers of the
      held leases, in order: every stored server is a v4 address. */
  lemma VisitorToldAllServers(r: TableRun, stop: Visitor)
    requires forall q :: !stop(q)
    ensures AllV4(Servers(Table(r))) && VisitRows(Table(r), stop) == Bytes(Servers(Table(r)))
  {
    forall i | 0 <= i < |Table(r)| ensures AllV4(Table(r)[i].s.p.ntp) {
      RowsAreRuns(r, i);
      var run :| Started(run) && End(run) == Table(r)[i].s;
      RunDisciplined(run);
    }
    VisitRowsTellsAll(Table(r), stop);
  }
}
