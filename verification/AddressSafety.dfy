/** Which addresses reach the interface. */
module AddressSafety {
  import opened Net
  import opened LeaseParams
  import opened Machine
  import opened Interface
  import Agreement
  import Sender

  predicate ProbedClean(h: History, a: Addr) {
    match h
    case Nothing => false
    case After(past, o) => o == Probed(a, true) || ProbedClean(past, a)
  }

  /** Every renewal was for the address already in use. */
  predicate RenewalsKeepAddress(h: History) {
    match h
    case Nothing => true
    case After(past, o) =>
      RenewalsKeepAddress(past) && (o.Applied? && o.renewal ==> LastApplied(past) == Some(o.lease.ip))
  }

  /** Every address written to the interface had been probed clean before. */
  predicate AllProbed(h: History) {
    match h
    case Nothing => true
    case After(past, o) => AllProbed(past) && (o.Applied? ==> ProbedClean(past, o.lease.ip))
  }

  lemma {:induction false} KeptAddressesWereProbed(h: History)
    requires FirstUseChecked(h) && RenewalsKeepAddress(h)
    ensures AllProbed(h)
    ensures LastApplied(h).Some? ==> ProbedClean(h, LastApplied(h).value)
  {
    match h
    case Nothing =>
    case After(past, o) => KeptAddressesWereProbed(past);
  }

  /** In every run, whatever the interleaving, a lease is first used only after an ACK for it was accepted and
      its address then probed clean, and between the two at most its NTP servers were forgotten. If renewals
      keep the address, no unprobed address is ever in use. */
  lemma OnlyProbedAddressesInUse(r: Run)
    requires Started(r)
    ensures FirstUseChecked(End(r).history)
    ensures RenewalsKeepAddress(End(r).history) ==> AllProbed(End(r).history)
    ensures RenewalsKeepAddress(End(r).history) && End(r).configured ==>
              ProbedClean(End(r).history, End(r).iface.ip)
  {
    RunKept(r);
    var s := End(r);
    if RenewalsKeepAddress(s.history) {
      KeptAddressesWereProbed(s.history);
    }
  }

  /** In a quiet run nothing at all is observed between the ACK, the entry into the check, the clean probe and
      the first use, and the lease used is the one acknowledged to the last field. */
  lemma NothingBetweenAckAndUse(r: Run)
    requires Started(r) && Quiet(r)
    ensures Agreement.FirstUseProbed(End(r).history)
  {
    Agreement.RunInStep(r);
  }

  lemma NothingProbed(h: History, o: Observation, a: Addr)
    requires !o.Probed?
    ensures ProbedClean(After(h, o), a) == ProbedClean(h, a)
    ensures AllProbed(After(h, o)) <==> AllProbed(h) && (o.Applied? ==> ProbedClean(h, o.lease.ip))
  {
  }

  /** The client relies on the server here: an ACK while renewing or rebinding puts whatever address it
      names on the interface without a probe of it. The interface is left with nothing but probed addresses
      exactly if that had been so before and the server named an address probed earlier. */
  lemma RenewalIsNotProbed(s: State, learnt: Params, xid: u32)
    requires s.phase == Renewing || s.phase == Rebinding
    ensures var t := Dispatch(s, Sender.ACK, learnt, xid);
            && t.configured && t.iface.ip == learnt.ip
            && (AllProbed(t.history) <==> AllProbed(s.history) && ProbedClean(s.history, learnt.ip))
            && (ProbedClean(t.history, learnt.ip) <==> ProbedClean(s.history, learnt.ip))
  {
    var h1 := After(s.history, Accepted(learnt));
    var h2 := After(h1, Applied(learnt, true));
    var h3 := After(h2, Entered(Bound, s.xid, s.now));
    NothingProbed(s.history, h1.last, learnt.ip);
    NothingProbed(h1, h2.last, learnt.ip);
    NothingProbed(h2, h3.last, learnt.ip);
    NothingProbed(h3, Notified(OnBound(true)), learnt.ip);
  }
}
