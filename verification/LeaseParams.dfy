/** The parameters a lease learns from an OFFER or an ACK (`populate_lease_from_options`). */
module LeaseParams {
  import opened Net
  import opened Timing
  import Options
  import Wire

  datatype Params = Params(
    ip: LeaseAddr, mask: LeaseAddr, gateway: LeaseAddr, server: LeaseAddr,
    leaseTime: u32, t1: u32, t2: u32,
    dns: seq<LeaseAddr>, ntp: seq<LeaseAddr>)

  const NONE := Params(Unset, Unset, Unset, Unset, 0, 0, 0, [], [])

  function V4s(qs: seq<Quad>): (r: seq<LeaseAddr>)
    ensures |r| == |qs| && forall i | 0 <= i < |r| :: r[i] == V4(qs[i])
  {
    seq(|qs|, i requires 0 <= i < |qs| => V4(qs[i]))
  }

  /** A single-address option; a missing one, or one that is not four bytes long, leaves `keep`. */
  function AddrOr(o: seq<byte>, code: byte, keep: LeaseAddr): LeaseAddr {
    match Options.Lookup(o, code)
    case Found(d) => if |d| == 4 then V4(d) else keep
    case _ => keep
  }

  /** A four-byte number; a missing option gives `absent`, one of another length gives 0. */
  function WordOr(o: seq<byte>, code: byte, absent: u32): u32 {
    match Options.Lookup(o, code)
    case Found(d) => if |d| == 4 then U32Of(d) else 0
    case _ => absent
  }

  function FirstRouter(o: seq<byte>): LeaseAddr {
    match Options.Lookup(o, Options.ROUTER)
    case Found(d) => if |d| >= 4 then V4(Options.Addresses(d)[0]) else Unset
    case _ => Unset
  }

  function DnsServers(o: seq<byte>): seq<LeaseAddr> {
    match Options.Lookup(o, Options.DNS_SERVER)
    case Found(d) => V4s(Options.Addresses(d))
    case _ => []
  }

  /** Unlike the DNS list, an NTP list that is not a whole number of addresses is ignored. */
  function NtpServers(o: seq<byte>): seq<LeaseAddr> {
    match Options.Lookup(o, Options.NTP_SERVER)
    case Found(d) => if |d| > 0 && |d| % 4 == 0 then V4s(Options.Addresses(d)) else []
    case _ => []
  }

  function Populate(p: Params, yiaddr: LeaseAddr, o: seq<byte>): Params {
    var leaseTime := WordOr(o, Options.LEASE_TIME, 0);
    Params(
      yiaddr,
      AddrOr(o, Options.SUBNET_MASK, p.mask),
      FirstRouter(o),
      AddrOr(o, Options.SERVER_ID, p.server),
      leaseTime,
      WordOr(o, Options.RENEWAL_T1, DefaultT1(leaseTime)),
      WordOr(o, Options.REBINDING_T2, DefaultT2(leaseTime)),
      DnsServers(o),
      NtpServers(o))
  }

  // ---- what a server means -----------------------------------------------------------------------

  /** A lease as a server describes it; an empty list is an option that is not sent. */
  datatype Grant = Grant(
    ip: Quad, mask: Option<Quad>, routers: seq<Quad>, server: Option<Quad>,
    leaseTime: Option<u32>, t1: Option<u32>, t2: Option<u32>,
    dns: seq<Quad>, ntp: seq<Quad>)

  const GRANT_CODES: seq<byte> := [
    Options.SUBNET_MASK, Options.ROUTER, Options.DNS_SERVER, Options.NTP_SERVER,
    Options.LEASE_TIME, Options.SERVER_ID, Options.RENEWAL_T1, Options.REBINDING_T2]

  predicate GrantCode(c: byte) {
    || c == Options.SUBNET_MASK || c == Options.ROUTER || c == Options.DNS_SERVER || c == Options.NTP_SERVER
    || c == Options.LEASE_TIME || c == Options.SERVER_ID || c == Options.RENEWAL_T1 || c == Options.REBINDING_T2
  }

  lemma GrantCodes(c: byte)
    ensures c in GRANT_CODES <==> GrantCode(c)
  {
    assert GRANT_CODES[0] == 1 && GRANT_CODES[1] == 3 && GRANT_CODES[2] == 6 && GRANT_CODES[3] == 42;
    assert GRANT_CODES[4] == 51 && GRANT_CODES[5] == 54 && GRANT_CODES[6] == 58 && GRANT_CODES[7] == 59;
  }

  /** An option holds at most 255 bytes, hence 63 addresses. */
  predicate Sendable(g: Grant) {
    |g.routers| < 64 && |g.dns| < 64 && |g.ntp| < 64
  }

  function Number(w: Option<u32>): Option<seq<byte>> {
    match w case Some(v) => Some(U32Bytes(v)) case None => None
  }

  function List(qs: seq<Quad>): Option<seq<byte>> {
    if qs == [] then None else Some(Options.Flatten(qs))
  }

  function Single(q: Option<Quad>): Option<seq<byte>> {
    match q case Some(b) => Some(b) case None => None
  }

  /** What the grant has to say under an option code. */
  function Said(g: Grant, code: byte): Option<seq<byte>> {
    if code == Options.SUBNET_MASK then Single(g.mask)
    else if code == Options.ROUTER then List(g.routers)
    else if code == Options.DNS_SERVER then List(g.dns)
    else if code == Options.NTP_SERVER then List(g.ntp)
    else if code == Options.LEASE_TIME then Number(g.leaseTime)
    else if code == Options.SERVER_ID then Single(g.server)
    else if code == Options.RENEWAL_T1 then Number(g.t1)
    else if code == Options.REBINDING_T2 then Number(g.t2)
    else None
  }

  function EntriesFor(g: Grant, codes: seq<byte>): seq<Options.Token> {
    if codes == [] then []
    else (match Said(g, codes[0]) case Some(d) => [Options.Entry(codes[0], d)] case None => [])
         + EntriesFor(g, codes[1..])
  }

  /** The options of a grant, one for each code it has something to say under. */
  function GrantEntries(g: Grant): seq<Options.Token> {
    EntriesFor(g, GRANT_CODES)
  }

  /** Options that have nothing to do with the grant, such as the message type. */
  predicate Unrelated(others: seq<Options.Token>) {
    && Options.AllWellFormed(others) && Options.DistinctCodes(others)
    && forall i | 0 <= i < |others| && others[i].Entry? :: !GrantCode(others[i].code)
  }

  /** Every search for one of the grant's codes answers what the grant says. */
  predicate Carries(ts: seq<Options.Token>, g: Grant) {
    && Options.AllWellFormed(ts)
    && Options.FirstWith(ts, Options.SUBNET_MASK) == Single(g.mask)
    && Options.FirstWith(ts, Options.ROUTER) == List(g.routers)
    && Options.FirstWith(ts, Options.DNS_SERVER) == List(g.dns)
    && Options.FirstWith(ts, Options.NTP_SERVER) == List(g.ntp)
    && Options.FirstWith(ts, Options.LEASE_TIME) == Number(g.leaseTime)
    && Options.FirstWith(ts, Options.SERVER_ID) == Single(g.server)
    && Options.FirstWith(ts, Options.RENEWAL_T1) == Number(g.t1)
    && Options.FirstWith(ts, Options.REBINDING_T2) == Number(g.t2)
  }

  lemma {:induction false} EntriesForFind(g: Grant, codes: seq<byte>, c: byte)
    ensures Options.FirstWith(EntriesFor(g, codes), c) == if c in codes then Said(g, c) else None
  {
    if codes != [] {
      var head := match Said(g, codes[0]) case Some(d) => [Options.Entry(codes[0], d)] case None => [];
      EntriesForFind(g, codes[1..], c);
      Options.FirstWithSum(head, EntriesFor(g, codes[1..]), c);
    }
  }

  lemma {:induction false} EntriesForSound(g: Grant, codes: seq<byte>)
    requires Sendable(g) && (forall c | c in codes :: GrantCode(c))
    requires forall j, k | 0 <= j < k < |codes| :: codes[j] != codes[k]
    ensures var ts := EntriesFor(g, codes);
            && Options.AllWellFormed(ts) && Options.DistinctCodes(ts)
            && forall i | 0 <= i < |ts| :: ts[i].Entry? && ts[i].code in codes
  {
    if codes != [] {
      EntriesForSound(g, codes[1..]);
      assert codes[0] !in codes[1..];
    }
  }

  lemma UnrelatedFind(others: seq<Options.Token>, c: byte)
    requires Unrelated(others) && GrantCode(c)
    ensures Options.FirstWith(others, c) == None
  {
    if Options.FirstWith(others, c).Some? {
      Options.FirstWithOccurs(others, c);
    }
  }

  lemma MessageSound(g: Grant, others: seq<Options.Token>)
    requires Sendable(g) && Unrelated(others)
    ensures Options.AllWellFormed(others + GrantEntries(g)) && Options.DistinctCodes(others + GrantEntries(g))
  {
    forall c | c in GRANT_CODES ensures GrantCode(c) {
      GrantCodes(c);
    }
    EntriesForSound(g, GRANT_CODES);
  }

  /** However the options of a grant are ordered, padded and mixed with unrelated ones, every search answers
      what was meant. */
  lemma ArrangedFinds(g: Grant, others: seq<Options.Token>, ts: seq<Options.Token>, c: byte)
    requires Sendable(g) && Unrelated(others) && Options.Arranges(ts, others + GrantEntries(g))
    ensures Options.FirstWith(ts, c) == if GrantCode(c) then Said(g, c) else Options.FirstWith(others, c)
  {
    MessageSound(g, others);
    Options.ArrangedFindsSame(ts, others + GrantEntries(g), c);
    Options.FirstWithSum(others, GrantEntries(g), c);
    EntriesForFind(g, GRANT_CODES, c);
    GrantCodes(c);
    if GrantCode(c) {
      UnrelatedFind(others, c);
    }
  }

  lemma ArrangedCarries(g: Grant, others: seq<Options.Token>, ts: seq<Options.Token>)
    requires Sendable(g) && Unrelated(others) && Options.Arranges(ts, others + GrantEntries(g))
    ensures Carries(ts, g)
  {
    MessageSound(g, others);
    Options.ArrangedWellFormed(ts, others + GrantEntries(g));
    ArrangedFinds(g, others, ts, Options.SUBNET_MASK);
    ArrangedFinds(g, others, ts, Options.ROUTER);
    ArrangedFinds(g, others, ts, Options.DNS_SERVER);
    ArrangedFinds(g, others, ts, Options.NTP_SERVER);
    ArrangedFinds(g, others, ts, Options.LEASE_TIME);
    ArrangedFinds(g, others, ts, Options.SERVER_ID);
    ArrangedFinds(g, others, ts, Options.RENEWAL_T1);
    ArrangedFinds(g, others, ts, Options.REBINDING_T2);
  }

  function Or<T>(w: Option<T>, otherwise: T): T {
    match w case Some(v) => v case None => otherwise
  }

  /** The parameters of a client that has understood the grant; a mask or a server identifier that the
      grant leaves out survives from `before`. */
  function Understood(before: Params, g: Grant): Params {
    var leaseTime: u32 := Or(g.leaseTime, 0);
    Params(
      V4(g.ip),
      if g.mask.Some? then V4(g.mask.value) else before.mask,
      if g.routers != [] then V4(g.routers[0]) else Unset,
      if g.server.Some? then V4(g.server.value) else before.server,
      leaseTime,
      Or(g.t1, DefaultT1(leaseTime)),
      Or(g.t2, DefaultT2(leaseTime)),
      V4s(g.dns),
      V4s(g.ntp))
  }

  lemma PopulateUnderstands(before: Params, g: Grant, ts: seq<Options.Token>, junk: seq<byte>)
    requires Carries(ts, g)
    ensures Populate(before, V4(g.ip), Options.Render(ts) + ([Options.END] + junk)) == Understood(before, g)
  {
    var o := Options.Render(ts) + ([Options.END] + junk);
    AddrRead(ts, junk, Options.SUBNET_MASK, g.mask, before.mask);
    AddrRead(ts, junk, Options.SERVER_ID, g.server, before.server);
    NumberRead(ts, junk, Options.LEASE_TIME, g.leaseTime, 0);
    NumberRead(ts, junk, Options.RENEWAL_T1, g.t1, DefaultT1(Or(g.leaseTime, 0)));
    NumberRead(ts, junk, Options.REBINDING_T2, g.t2, DefaultT2(Or(g.leaseTime, 0)));
    ListsRead(ts, junk, g);
  }

  lemma AddrRead(ts: seq<Options.Token>, junk: seq<byte>, code: byte, q: Option<Quad>, keep: LeaseAddr)
    requires Options.AllWellFormed(ts) && Options.FirstWith(ts, code) == Single(q)
    ensures AddrOr(Options.Render(ts) + ([Options.END] + junk), code, keep)
         == if q.Some? then V4(q.value) else keep
  {
    Options.LookupRendered(ts, junk, code);
  }

  lemma NumberRead(ts: seq<Options.Token>, junk: seq<byte>, code: byte, w: Option<u32>, absent: u32)
    requires Options.AllWellFormed(ts) && Options.FirstWith(ts, code) == Number(w)
    ensures WordOr(Options.Render(ts) + ([Options.END] + junk), code, absent) == Or(w, absent)
  {
    Options.LookupRendered(ts, junk, code);
    if w.Some? {
      U32RoundTrip(w.value);
    }
  }

  lemma ListsRead(ts: seq<Options.Token>, junk: seq<byte>, g: Grant)
    requires Carries(ts, g)
    ensures var o := Options.Render(ts) + ([Options.END] + junk);
            && FirstRouter(o) == (if g.routers != [] then V4(g.routers[0]) else Unset)
            && DnsServers(o) == V4s(g.dns)
            && NtpServers(o) == V4s(g.ntp)
  {
    Options.LookupRendered(ts, junk, Options.ROUTER);
    Options.LookupRendered(ts, junk, Options.DNS_SERVER);
    Options.LookupRendered(ts, junk, Options.NTP_SERVER);
    Options.AddressesOfFlatten(g.routers);
    Options.AddressesOfFlatten(g.dns);
    Options.AddressesOfFlatten(g.ntp);
  }

  // ---- options that no server means --------------------------------------------------------------

  /** A list of addresses as the option's bytes hold it, four bytes each; a rest is dropped. */
  predicate Lists(list: seq<LeaseAddr>, d: seq<byte>) {
    |list| == |d| / 4 && forall i | 0 <= i < |list| :: list[i] == V4(d[4 * i..4 * i + 4])
  }

  /** Single addresses, of whatever length the option is: only one of four bytes replaces a mask or a server, and
      a router that is missing or too short is unset. */
  lemma AddressesByLength(before: Params, y: LeaseAddr, ts: seq<Options.Token>, junk: seq<byte>)
    requires Options.AllWellFormed(ts)
    ensures var p := Populate(before, y, Options.Render(ts) + ([Options.END] + junk));
            var mask, router, server := Options.FirstWith(ts, 1), Options.FirstWith(ts, 3), Options.FirstWith(ts, 54);
            && p.ip == y
            && p.mask == (if mask.Some? && |mask.value| == 4 then V4(mask.value) else before.mask)
            && p.server == (if server.Some? && |server.value| == 4 then V4(server.value) else before.server)
            && p.gateway == (if router.Some? && |router.value| >= 4 then V4(router.value[..4]) else Unset)
  {
    Options.LookupRendered(ts, junk, 1);
    Options.LookupRendered(ts, junk, 3);
    Options.LookupRendered(ts, junk, 54);
  }

  /** Times: a missing one has its default, and one that is not four bytes long is zero. */
  lemma TimesByLength(before: Params, y: LeaseAddr, ts: seq<Options.Token>, junk: seq<byte>)
    requires Options.AllWellFormed(ts)
    ensures var p := Populate(before, y, Options.Render(ts) + ([Options.END] + junk));
            && p.leaseTime == Time(Options.FirstWith(ts, 51), 0)
            && p.t1 == Time(Options.FirstWith(ts, 58), p.leaseTime / 2)
            && p.t2 == Time(Options.FirstWith(ts, 59), DefaultT2(p.leaseTime))
  {
    Options.LookupRendered(ts, junk, 51);
    Options.LookupRendered(ts, junk, 58);
    Options.LookupRendered(ts, junk, 59);
  }

  function Time(d: Option<seq<byte>>, otherwise: u32): u32 {
    if d.None? then otherwise else if |d.value| != 4 then 0 else U32Of(d.value)
  }

  /** Lists: of DNS servers every whole address is taken, while an NTP list that is not made of whole addresses is
      not taken at all. */
  lemma ListsByLength(before: Params, y: LeaseAddr, ts: seq<Options.Token>, junk: seq<byte>)
    requires Options.AllWellFormed(ts)
    ensures var p := Populate(before, y, Options.Render(ts) + ([Options.END] + junk));
            var dns, ntp := Options.FirstWith(ts, 6), Options.FirstWith(ts, 42);
            && (if dns.Some? then Lists(p.dns, dns.value) else p.dns == [])
            && (if ntp.Some? && |ntp.value| % 4 == 0 then Lists(p.ntp, ntp.value) else p.ntp == [])
  {
    Options.LookupRendered(ts, junk, 6);
    Options.LookupRendered(ts, junk, 42);
  }

  // ---- end to end --------------------------------------------------------------------------------

  /** End to end: a reply with the grant's address in its header and the grant's options in its option area, in
      any order, with any padding and any unrelated options between them and anything behind them, is parsed
      and populated back to exactly the grant. */
  lemma GrantRoundTrip(before: Params, g: Grant, m: Wire.Message, others: seq<Options.Token>,
                       ts: seq<Options.Token>, junk: seq<byte>)
    requires Wire.Buildable(m) && m.op == Wire.BOOTREPLY && m.yiaddr == V4(g.ip)
    requires Sendable(g) && Unrelated(others) && Options.Arranges(ts, others + GrantEntries(g))
    ensures Options.AllWellFormed(ts)
    ensures var payload := Wire.Encode(m) + (Options.Render(ts) + ([Options.END] + junk));
            && Wire.Decode(payload) == Some(Wire.Normal(m))
            && Populate(before, Wire.Decode(payload).value.yiaddr, payload[Wire.HEADER_LEN..]) == Understood(before, g)
  {
    ArrangedCarries(g, others, ts);
    var o := Options.Render(ts) + ([Options.END] + junk);
    var payload := Wire.Encode(m) + o;
    Wire.DecodeOfEncode(m, o);
    assert payload[Wire.HEADER_LEN..] == o;
    PopulateUnderstands(before, g, ts, junk);
  }

  /** The same for the output of the writer, given the grant's options in any order. */
  lemma WrittenGrantRoundTrip(before: Params, g: Grant, m: Wire.Message, others: seq<Options.Token>,
                              opts: seq<Options.Opt>, junk: seq<byte>)
    requires Wire.Buildable(m) && m.op == Wire.BOOTREPLY && m.yiaddr == V4(g.ip)
    requires Sendable(g) && Unrelated(others)
    requires Options.Sound(opts) && Options.Arranges(Options.TokensOf(opts), others + GrantEntries(g))
    ensures var payload := Wire.Encode(m) + (Options.Written(opts) + ([Options.END] + junk));
            && Wire.Decode(payload) == Some(Wire.Normal(m))
            && Populate(before, Wire.Decode(payload).value.yiaddr, payload[Wire.HEADER_LEN..]) == Understood(before, g)
  {
    var ts := Options.TokensOf(opts);
    GrantRoundTrip(before, g, m, others, ts, junk);
    assert Options.CodesInRange(opts) by {
      forall i | 0 <= i < |opts| ensures Options.PAD < opts[i].code < Options.END {
        assert Options.WellFormed(ts[i]);
      }
    }
    Options.WrittenIsRendered(opts);
  }
}
