/** Who takes which lock: the table mutex, then a lease's lock, and a callback under neither. Any number of
    threads that run any operations, in any interleaving, can never block each other for good. */
module Locks {

  datatype Lock = TableLock | LeaseLock(id: nat)

  function Level(l: Lock): nat {
    if l.TableLock? then 0 else 1
  }

  /** `Use` is access to the data that a lock guards: the table, or the fields of a lease. */
  datatype Action = Acquire(lock: Lock) | Use(lock: Lock) | Release(lock: Lock)

  // ---- the operations of the client --------------------------------------------------------------

  /** An operation by its locking. `callback` is what the application does in the callback it is given: any
      operations at all, one after the other. */
  datatype Operation =
    | Lookup                                                    // find_by_iface, find_by_xid, insert, remove
    | Accessor(id: nat)                                         // get_state, get_lease_info, renew, ...
    | Start(id: nat)                                            // start: insert, then the first message
    | Teardown(id: nat)                                         // stop, release
    | TimerFire(id: nat)                                        // a timer callback that calls nobody
    | TimerReport(id: nat, callback: seq<Operation>)            // ... one that reports on_bound or on_error
    | LeaseExpiry(id: nat, callback: seq<Operation>)            // ... one that reports a loss
    | Datagram(id: nat)                                         // a datagram that calls nobody
    | Renewal(id: nat, callback: seq<Operation>)                // an ACK that renews
    | Refusal(id: nat, callback: seq<Operation>)                // a NAK that ends a lease
    | Walk(ids: seq<nat>)                                       // get_ntp_servers and the server visitors
    | Deinit(ids: seq<nat>)                                     // unapply every lease

  function Section(l: Lock): seq<Action> {
    [Acquire(l), Use(l), Release(l)]
  }

  function Each(ids: seq<nat>): seq<Action> {
    if ids == [] then [] else Section(LeaseLock(ids[0])) + Each(ids[1..])
  }

  /** `dmdhcp_lifecycle_handle_lost`. */
  function Loss(id: nat, callback: seq<Operation>): seq<Action>
    decreases callback, 1
  {
    Section(LeaseLock(id)) + Actions(callback) + Section(LeaseLock(id))
  }

  function ActionsOf(o: Operation): seq<Action>
    decreases o
  {
    match o
    case Lookup => Section(TableLock)
    case Accessor(id) => Section(LeaseLock(id))
    case Start(id) => Section(TableLock) + Section(LeaseLock(id))
    case Teardown(id) => Section(TableLock) + Section(LeaseLock(id))
    case TimerFire(id) => Section(LeaseLock(id))
    case TimerReport(id, cb) => Section(LeaseLock(id)) + Actions(cb) + Section(LeaseLock(id))
    case LeaseExpiry(id, cb) => Section(LeaseLock(id)) + Loss(id, cb)
    case Datagram(id) => Section(TableLock) + Section(LeaseLock(id))
    case Renewal(id, cb) => Section(TableLock) + Section(LeaseLock(id)) + Actions(cb)
    case Refusal(id, cb) => Section(TableLock) + Section(LeaseLock(id)) + Loss(id, cb)
    case Walk(ids) => [Acquire(TableLock), Use(TableLock)] + Each(ids) + [Release(TableLock)]
    case Deinit(ids) => Each(ids)
  }

  function Actions(os: seq<Operation>): seq<Action>
    decreases os, 0
  {
    if os == [] then [] else ActionsOf(os[0]) + Actions(os[1..])
  }

  // ---- lock order --------------------------------------------------------------------------------

  /** A lock is only taken above all locks held, only a held lock is released, and data is only accessed under its
      lock. `after` is what is held at the end. */
  predicate Ordered(actions: seq<Action>, held: set<Lock>, after: set<Lock>) {
    if actions == [] then held == after
    else match actions[0]
      case Acquire(l) => (forall h | h in held :: Level(h) < Level(l)) && Ordered(actions[1..], held + {l}, after)
      case Use(l) => l in held && Ordered(actions[1..], held, after)
      case Release(l) => l in held && Ordered(actions[1..], held - {l}, after)
  }

  lemma {:induction false} OrderedSum(a: seq<Action>, b: seq<Action>, x: set<Lock>, y: set<Lock>, z: set<Lock>)
    requires Ordered(a, x, y) && Ordered(b, y, z)
    ensures Ordered(a + b, x, z)
  {
    if a == [] {
      assert a + b == b;
    } else {
      assert (a + b)[1..] == a[1..] + b;
      match a[0]
      case Acquire(l) => OrderedSum(a[1..], b, x + {l}, y, z);
      case Use(_) => OrderedSum(a[1..], b, x, y, z);
      case Release(l) => OrderedSum(a[1..], b, x - {l}, y, z);
    }
  }

  lemma SectionOrdered(l: Lock, held: set<Lock>)
    requires forall h | h in held :: Level(h) < Level(l)
    ensures Ordered(Section(l), held, held)
  {
    assert l !in held;
    assert held + {l} - {l} == held;
    var last := [Release(l)];
    assert last[1..] == [] && Ordered(last, held + {l}, held);
    assert [Use(l), Release(l)][1..] == last && Ordered([Use(l), Release(l)], held + {l}, held);
    assert Section(l)[1..] == [Use(l), Release(l)];
  }

  lemma {:induction false} EachOrdered(ids: seq<nat>, held: set<Lock>)
    requires held <= {TableLock}
    ensures Ordered(Each(ids), held, held)
  {
    if ids != [] {
      SectionOrdered(LeaseLock(ids[0]), held);
      EachOrdered(ids[1..], held);
      OrderedSum(Section(LeaseLock(ids[0])), Each(ids[1..]), held, held, held);
    }
  }

  lemma WalkOrdered(ids: seq<nat>)
    ensures Ordered([Acquire(TableLock), Use(TableLock)] + Each(ids) + [Release(TableLock)], {}, {})
  {
    var t := {TableLock};
    var head, last := [Acquire(TableLock), Use(TableLock)], [Release(TableLock)];
    EachOrdered(ids, t);
    assert head[1..] == [Use(TableLock)] && [Use(TableLock)][1..] == [] && last[1..] == [];
    assert {} + {TableLock} == t && t - {TableLock} == {};
    assert Ordered([Use(TableLock)], t, t) && Ordered(last, t, {});
    assert Ordered(head, {}, t);
    OrderedSum(head, Each(ids), {}, t, t);
    OrderedSum(head + Each(ids), last, {}, t, {});
  }

  /** Three sequences that each start and end with no lock held. */
  lemma SumsOrdered(a: seq<Action>, b: seq<Action>, c: seq<Action>)
    requires Ordered(a, {}, {}) && Ordered(b, {}, {}) && Ordered(c, {}, {})
    ensures Ordered(a + b, {}, {}) && Ordered(a + b + c, {}, {})
  {
    OrderedSum(a, b, {}, {}, {});
    OrderedSum(a + b, c, {}, {}, {});
  }

  lemma {:induction false} LossOrdered(id: nat, callback: seq<Operation>)
    ensures Ordered(Loss(id, callback), {}, {})
    decreases callback, 1
  {
    SectionOrdered(LeaseLock(id), {});
    ActionsOrdered(callback);
    SumsOrdered(Section(LeaseLock(id)), Actions(callback), Section(LeaseLock(id)));
  }

  /** Every operation keeps the lock order and ends with no lock held, whatever its callback does. */
  lemma {:induction false} OperationOrdered(o: Operation)
    ensures Ordered(ActionsOf(o), {}, {})
    decreases o
  {
    var t := Section(TableLock);
    SectionOrdered(TableLock, {});
    if !o.Lookup? && !o.Walk? && !o.Deinit? {
      SectionOrdered(LeaseLock(o.id), {});
      SumsOrdered(t, Section(LeaseLock(o.id)), []);
    }
    match o
    case TimerReport(id, cb) =>
      ActionsOrdered(cb);
      SumsOrdered(Section(LeaseLock(id)), Actions(cb), Section(LeaseLock(id)));
    case LeaseExpiry(id, cb) =>
      LossOrdered(id, cb);
      SumsOrdered(Section(LeaseLock(id)), Loss(id, cb), []);
    case Renewal(id, cb) =>
      ActionsOrdered(cb);
      SumsOrdered(t, Section(LeaseLock(id)), Actions(cb));
    case Refusal(id, cb) =>
      LossOrdered(id, cb);
      SumsOrdered(t, Section(LeaseLock(id)), Loss(id, cb));
    case Walk(ids) => WalkOrdered(ids);
    case Deinit(ids) => EachOrdered(ids, {});
    case _ =>
  }

  lemma {:induction false} ActionsOrdered(os: seq<Operation>)
    ensures Ordered(Actions(os), {}, {})
    decreases os, 0
  {
    if os != [] {
      OperationOrdered(os[0]);
      ActionsOrdered(os[1..]);
      OrderedSum(ActionsOf(os[0]), Actions(os[1..]), {}, {}, {});
    }
  }

  lemma CallbackWithin(a: seq<Action>, l: seq<Action>, cb: seq<Action>)
    ensures a + (l + cb + l) == a + l + cb + l
  {
  }

  lemma SectionsOrdered(id: nat)
    ensures var t, l := Section(TableLock), Section(LeaseLock(id));
            && Ordered(l, {}, {}) && Ordered(l + l, {}, {}) && Ordered(t + l, {}, {}) && Ordered(t + l + l, {}, {})
            && Use(LeaseLock(id)) in l && Ordered([], {}, {})
  {
    var t, l := Section(TableLock), Section(LeaseLock(id));
    SectionOrdered(TableLock, {});
    SectionOrdered(LeaseLock(id), {});
    SumsOrdered(t, l, l);
    SumsOrdered(l, l, l);
    assert Use(LeaseLock(id)) == l[1];
  }

  /** A callback is made with no lock held: what comes before it has released all it took. */
  lemma CallbackUnderNoLock(o: Operation) returns (before: seq<Action>, behind: seq<Action>)
    requires o.TimerReport? || o.LeaseExpiry? || o.Renewal? || o.Refusal?
    ensures ActionsOf(o) == before + Actions(o.callback) + behind
    ensures Ordered(before, {}, {}) && Ordered(behind, {}, {}) && Use(LeaseLock(o.id)) in before
  {
    var t, l := Section(TableLock), Section(LeaseLock(o.id));
    SectionsOrdered(o.id);
    match o
    case TimerReport(_, _) => before, behind := l, l;
    case LeaseExpiry(_, cb) =>
      before, behind := l + l, l;
      CallbackWithin(l, l, Actions(cb));
    case Renewal(_, _) => before, behind := t + l, [];
    case Refusal(_, cb) =>
      before, behind := t + l + l, l;
      CallbackWithin(t + l, l, Actions(cb));
  }

  lemma {:induction false} EachUses(ids: seq<nat>, id: nat)
    ensures Use(LeaseLock(id)) in Each(ids) <==> id in ids
  {
    if ids != [] {
      EachUses(ids[1..], id);
    }
  }

  /** A walk accesses exactly the leases it is given, and the table. */
  lemma WalkUses(ids: seq<nat>, id: nat)
    ensures Use(LeaseLock(id)) in ActionsOf(Walk(ids)) <==> id in ids
    ensures ActionsOf(Walk(ids))[..2] == [Acquire(TableLock), Use(TableLock)]
  {
    EachUses(ids, id);
  }

  // ---- threads -----------------------------------------------------------------------------------

  datatype Thread = Thread(rest: seq<Action>, held: set<Lock>)

  predicate Available(ts: seq<Thread>, l: Lock) {
    forall i | 0 <= i < |ts| :: l !in ts[i].held
  }

  /** A mutex is not recursive: a thread blocks on a lock that anyone holds, itself included. */
  predicate CanStep(ts: seq<Thread>, i: nat) {
    i < |ts| && ts[i].rest != [] && (ts[i].rest[0].Acquire? ==> Available(ts, ts[i].rest[0].lock))
  }

  function StepThread(ts: seq<Thread>, i: nat): seq<Thread>
    requires CanStep(ts, i)
  {
    var a := ts[i].rest[0];
    var held := if a.Acquire? then ts[i].held + {a.lock} else if a.Use? then ts[i].held else ts[i].held - {a.lock};
    ts[i := Thread(ts[i].rest[1..], held)]
  }

  /** Threads that each have a list of operations to run, and an interleaving of them. */
  datatype Schedule = Begin(programs: seq<seq<Operation>>) | Next(before: Schedule, i: nat)

  predicate Possible(s: Schedule)
    decreases s, 0
  {
    s.Begin? || (Possible(s.before) && CanStep(Threads(s.before), s.i))
  }

  function Threads(s: Schedule): seq<Thread>
    requires Possible(s)
    decreases s, 1
  {
    match s
    case Begin(ps) => seq(|ps|, i requires 0 <= i < |ps| => Thread(Actions(ps[i]), {}))
    case Next(b, i) => StepThread(Threads(b), i)
  }

  predicate Exclusive(ts: seq<Thread>) {
    forall i, j | 0 <= i < j < |ts| :: ts[i].held !! ts[j].held
  }

  predicate Orderly(ts: seq<Thread>) {
    Exclusive(ts) && forall i | 0 <= i < |ts| :: Ordered(ts[i].rest, ts[i].held, {})
  }

  lemma StepOrderly(ts: seq<Thread>, i: nat)
    requires Orderly(ts) && CanStep(ts, i)
    ensures Orderly(StepThread(ts, i))
  {
    var us := StepThread(ts, i);
    var a := ts[i].rest[0];
    assert Ordered(ts[i].rest, ts[i].held, {});
    assert Ordered(us[i].rest, us[i].held, {});
    forall j | 0 <= j < |ts| && j != i ensures us[j] == ts[j] && us[i].held !! us[j].held {
      assert ts[i].held !! ts[j].held;
    }
  }

  lemma {:induction false} ScheduleOrderly(s: Schedule)
    requires Possible(s)
    ensures Orderly(Threads(s))
  {
    match s
    case Begin(ps) =>
      forall i | 0 <= i < |ps| ensures Ordered(Actions(ps[i]), {}, {}) {
        ActionsOrdered(ps[i]);
      }
    case Next(b, i) =>
      ScheduleOrderly(b);
      StepOrderly(Threads(b), i);
  }

  // ---- no race -----------------------------------------------------------------------------------

  /** At no point of any interleaving are two threads about to access the same data. */
  lemma NoRace(s: Schedule, i: nat, j: nat)
    requires Possible(s) && i < |Threads(s)| && j < |Threads(s)| && i != j
    requires Threads(s)[i].rest != [] && Threads(s)[i].rest[0].Use?
    requires Threads(s)[j].rest != [] && Threads(s)[j].rest[0].Use?
    ensures Threads(s)[i].rest[0].lock != Threads(s)[j].rest[0].lock
  {
    ScheduleOrderly(s);
    var ts := Threads(s);
    assert Ordered(ts[i].rest, ts[i].held, {}) && Ordered(ts[j].rest, ts[j].held, {});
    assert ts[if i < j then i else j].held !! ts[if i < j then j else i].held;
  }

  // ---- no deadlock -------------------------------------------------------------------------------

  predicate Finished(ts: seq<Thread>) {
    forall i | 0 <= i < |ts| :: ts[i].rest == []
  }

  /** A thread that holds a lease's lock can go on; so can a thread that holds the table mutex when no lease lock
      is held. */
  lemma HolderProceeds(ts: seq<Thread>, i: nat, l: Lock)
    requires Orderly(ts) && i < |ts| && l in ts[i].held
    requires l.LeaseLock? || forall j, k | 0 <= j < |ts| && k in ts[j].held :: k == TableLock
    ensures CanStep(ts, i)
  {
    assert Ordered(ts[i].rest, ts[i].held, {});
  }

  lemma SomeoneProceeds(ts: seq<Thread>)
    requires Orderly(ts) && !Finished(ts)
    ensures exists i: nat :: CanStep(ts, i)
  {
    if i, l :| 0 <= i < |ts| && l in ts[i].held && l.LeaseLock? {
      HolderProceeds(ts, i, l);
    } else if i, l :| 0 <= i < |ts| && l in ts[i].held {
      HolderProceeds(ts, i, l);
    } else {
      var i: nat :| i < |ts| && ts[i].rest != [];
      assert Ordered(ts[i].rest, ts[i].held, {});
      assert CanStep(ts, i);
    }
  }

  function Work(ts: seq<Thread>): nat {
    if ts == [] then 0 else Work(ts[..|ts| - 1]) + |ts[|ts| - 1].rest|
  }

  lemma {:induction false} WorkOfUpdate(ts: seq<Thread>, i: nat, t: Thread)
    requires i < |ts|
    ensures Work(ts[i := t]) == Work(ts) - |ts[i].rest| + |t.rest|
  {
    var n := |ts| - 1;
    if i < n {
      WorkOfUpdate(ts[..n], i, t);
      assert ts[i := t][..n] == ts[..n][i := t];
    } else {
      assert ts[i := t][..n] == ts[..n];
    }
  }

  /** Deadlock freedom: at every point of every interleaving of any number of threads running any
      operations, either all of them have finished or one of them can go on; and every step brings them all
      one action nearer to the end, so they do finish. */
  lemma NoDeadlock(s: Schedule)
    requires Possible(s)
    ensures Finished(Threads(s)) || exists i: nat :: CanStep(Threads(s), i)
    ensures forall i: nat | CanStep(Threads(s), i) :: Work(StepThread(Threads(s), i)) == Work(Threads(s)) - 1
  {
    ScheduleOrderly(s);
    var ts := Threads(s);
    if !Finished(ts) {
      SomeoneProceeds(ts);
    }
    forall i: nat | CanStep(ts, i) ensures Work(StepThread(ts, i)) == Work(ts) - 1 {
      WorkOfUpdate(ts, i, StepThread(ts, i)[i]);
    }
  }

  predicate WaitsFor(ts: seq<Thread>, i: nat, j: nat) {
    && i < |ts| && j < |ts| && ts[i].rest != []
    && ts[i].rest[0].Acquire? && ts[i].rest[0].lock in ts[j].held
  }

  /** No circular wait, and in particular no thread waits for itself: whoever is waited for by a waiting
      thread waits for nobody. */
  lemma NoCircularWait(s: Schedule, i: nat, j: nat, k: nat)
    requires Possible(s) && WaitsFor(Threads(s), i, j) && WaitsFor(Threads(s), j, k)
    ensures i != j && forall m: nat :: !WaitsFor(Threads(s), k, m)
  {
    ScheduleOrderly(s);
    var ts := Threads(s);
    assert Ordered(ts[i].rest, ts[i].held, {}) && Ordered(ts[j].rest, ts[j].held, {});
    assert Ordered(ts[k].rest, ts[k].held, {});
  }
}
