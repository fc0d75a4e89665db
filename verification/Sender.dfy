/** Building the messages a client sends (`send_message`). */
module Sender {
  import opened Net
  import Options
  import Wire

  const DISCOVER: byte := 1
  const OFFER: byte := 2
  const REQUEST: byte := 3
  const DECLINE: byte := 4
  const ACK: byte := 5
  const NAK: byte := 6
  const RELEASE: byte := 7

  const MAX_MESSAGE_LEN := 576
  const FLAG_BROADCAST: u16 := 0x8000
  const REQUESTED_PARAMETERS: seq<byte> := [1, 3, 6, 42, 51, 58, 59]

  type Mac = m: seq<byte> | |m| == 6 witness [0, 0, 0, 0, 0, 0]

  /** The arguments of `send_message`. A null `ciaddr` is `Unset`; a null option value is `None`.
      `viaIface` selects the on-link broadcast path over the routed one. */
  datatype Outgoing = Outgoing(
    kind: byte, xid: u32, ciaddr: LeaseAddr, requested: Option<LeaseAddr>, serverId: Option<LeaseAddr>,
    dst: LeaseAddr, viaIface: bool)

  function Header(o: Outgoing, mac: Mac): Wire.Message {
    Wire.Message(Wire.BOOTREQUEST, 1, 6, 0, o.xid, 0, FLAG_BROADCAST,
                 o.ciaddr, Unset, Unset, Unset, mac + Wire.Zeros(10))
  }

  function AddrOption(code: byte, a: Option<LeaseAddr>): seq<Options.Opt> {
    match a
    case None => []
    case Some(v) => [Options.Opt(code, 4, Some(Raw(v)))]
  }

  function HostOption(host: Option<seq<byte>>): seq<Options.Opt> {
    match host
    case None => []
    case Some(h) => [Options.Opt(Options.HOSTNAME, if |h| > 255 then 255 else |h|, Some(h))]
  }

  predicate AsksParameters(kind: byte) {
    kind == DISCOVER || kind == REQUEST
  }

  function KindOption(kind: byte): seq<Options.Opt> {
    [Options.Opt(Options.MSG_TYPE, 1, Some([kind]))]
  }

  function ParameterOption(kind: byte): seq<Options.Opt> {
    if AsksParameters(kind) then [Options.Opt(Options.PARAMETER_LIST, 7, Some(REQUESTED_PARAMETERS))] else []
  }

  function OptionsOf(o: Outgoing, host: Option<seq<byte>>): seq<Options.Opt> {
    KindOption(o.kind)
    + AddrOption(Options.REQUESTED_IP, o.requested)
    + AddrOption(Options.SERVER_ID, o.serverId)
    + HostOption(host)
    + ParameterOption(o.kind)
  }

  predicate Fits(opts: seq<Options.Opt>, count: nat, bytes: nat) {
    |opts| <= count && Options.Sound(opts) && Options.CodesInRange(opts) && Options.Size(opts) <= bytes
  }

  /** At most five options, all of them writable, and at most 281 bytes of them. */
  lemma OptionsOfFit(o: Outgoing, host: Option<seq<byte>>)
    ensures Fits(OptionsOf(o, host), 5, 281)
  {
    var a, b := KindOption(o.kind), AddrOption(Options.REQUESTED_IP, o.requested);
    var c, d := AddrOption(Options.SERVER_ID, o.serverId), HostOption(host);
    SingleFits(a, 3);
    SingleFits(b, 6);
    SingleFits(c, 6);
    SingleFits(d, 257);
    SingleFits(ParameterOption(o.kind), 9);
    SumFits(a, b, 1, 1, 3, 6);
    SumFits(a + b, c, 2, 1, 9, 6);
    SumFits(a + b + c, d, 3, 1, 15, 257);
    SumFits(a + b + c + d, ParameterOption(o.kind), 4, 1, 272, 9);
  }

  lemma SingleFits(opts: seq<Options.Opt>, bytes: nat)
    requires |opts| <= 1 && Options.Sound(opts) && Options.CodesInRange(opts)
    requires opts != [] ==> 2 + opts[0].length <= bytes
    ensures Fits(opts, 1, bytes)
  {
    if opts != [] {
      assert Options.Size(opts) == Options.Size(opts[..0]) + 2 + opts[0].length;
    }
  }

  lemma SumFits(a: seq<Options.Opt>, b: seq<Options.Opt>, m: nat, n: nat, x: nat, y: nat)
    requires Fits(a, m, x) && Fits(b, n, y)
    ensures Fits(a + b, m + n, x + y)
  {
    SizeOfSum(a, b);
  }

  lemma {:induction false} SizeOfSum(a: seq<Options.Opt>, b: seq<Options.Opt>)
    ensures Options.Size(a + b) == Options.Size(a) + Options.Size(b)
  {
    if b == [] {
      assert a + b == a;
    } else {
      var n := |b| - 1;
      SizeOfSum(a, b[..n]);
      assert (a + b)[..|a| + n] == a + b[..n];
    }
  }

  function Datagram(o: Outgoing, mac: Mac, host: Option<seq<byte>>): seq<byte>
  {
    OptionsOfFit(o, host);
    Wire.Encode(Header(o, mac)) + (Options.Written(OptionsOf(o, host)) + [Options.END])
  }

  /** One `options[option_count++] = ...`. */
  method Push(options: array<Options.Opt>, count: nat, opt: Options.Opt) returns (next: nat)
    requires count < options.Length
    modifies options
    ensures next == count + 1 && options[..next] == old(options[..count]) + [opt]
  {
    options[count] := opt;
    next := count + 1;
  }

  /** `send_message` up to the hand-over to UDP: the buffer of 576 bytes and the array of five options
      always suffice. */
  method Compose(o: Outgoing, mac: Mac, host: Option<seq<byte>>) returns (datagram: seq<byte>)
    ensures datagram == Datagram(o, mac, host)
    ensures |datagram| <= 522 <= MAX_MESSAGE_LEN
  {
    var buffer := new byte[MAX_MESSAGE_LEN];
    var built := Wire.Build(buffer, Header(o, mac));

    var options := new Options.Opt[5](_ => Options.Opt(0, 0, None));
    var count := Push(options, 0, Options.Opt(Options.MSG_TYPE, 1, Some([o.kind])));
    assert options[..count] == KindOption(o.kind);
    if o.requested.Some? {
      count := Push(options, count, Options.Opt(Options.REQUESTED_IP, 4, Some(Raw(o.requested.value))));
    }
    assert options[..count] == KindOption(o.kind) + AddrOption(Options.REQUESTED_IP, o.requested);
    ghost var addresses := options[..count] + AddrOption(Options.SERVER_ID, o.serverId);
    if o.serverId.Some? {
      count := Push(options, count, Options.Opt(Options.SERVER_ID, 4, Some(Raw(o.serverId.value))));
    }
    assert options[..count] == addresses;
    if host.Some? {
      var len := if |host.value| > 255 then 255 else |host.value|;
      count := Push(options, count, Options.Opt(Options.HOSTNAME, len, Some(host.value)));
    }
    assert options[..count] == addresses + HostOption(host);
    ghost var named := options[..count];
    if o.kind == DISCOVER || o.kind == REQUEST {
      count := Push(options, count, Options.Opt(Options.PARAMETER_LIST, 7, Some(REQUESTED_PARAMETERS)));
    }
    assert options[..count] == named + ParameterOption(o.kind);

    datagram := Finish(buffer, o, mac, host, options[..count]);
  }

  /** The rest of `send_message`: the options go behind the header that is already in the buffer. */
  method Finish(buffer: array<byte>, o: Outgoing, mac: Mac, host: Option<seq<byte>>, opts: seq<Options.Opt>)
    returns (datagram: seq<byte>)
    requires buffer.Length == MAX_MESSAGE_LEN && buffer[..Wire.HEADER_LEN] == Wire.Encode(Header(o, mac))
    requires opts == OptionsOf(o, host)
    modifies buffer
    ensures datagram == Datagram(o, mac, host) && |datagram| <= 522
  {
    OptionsOfFit(o, host);
    ghost var head := buffer[..Wire.HEADER_LEN];
    var written := Options.Write(buffer, Wire.HEADER_LEN, MAX_MESSAGE_LEN - Wire.HEADER_LEN, opts);
    assert written.Done?;
    var total := Wire.HEADER_LEN + written.length;
    assert buffer[..Wire.HEADER_LEN] == head;
    assert buffer[..total] == head + buffer[Wire.HEADER_LEN..total];
    datagram := buffer[..total];
  }

  // ---- what a server reads -----------------------------------------------------------------------

  /** The header of a client's message: a request from an Ethernet address that asks for broadcast replies and
      names no address but possibly the client's own. */
  predicate ReadsHeader(m: Wire.Message, o: Outgoing, mac: Mac) {
    && m.op == 1 && m.htype == 1 && m.hlen == 6 && m.hops == 0 && m.xid == o.xid && m.secs == 0 && m.flags == 0x8000
    && m.ciaddr == V4(if o.ciaddr.V4? then o.ciaddr.bytes else [0, 0, 0, 0])
    && m.yiaddr == V4([0, 0, 0, 0]) && m.siaddr == V4([0, 0, 0, 0]) && m.giaddr == V4([0, 0, 0, 0])
    && m.chaddr[..6] == mac && forall i | 6 <= i < 16 :: m.chaddr[i] == 0
  }

  /** A receiver of the datagram recovers the header and, for every option code, exactly what was meant
      to be sent under it. */
  lemma DatagramReads(o: Outgoing, mac: Mac, host: Option<seq<byte>>, c: byte)
    ensures var b := Datagram(o, mac, host);
            && |b| >= Wire.HEADER_LEN
            && Wire.Decode(b).Some? && ReadsHeader(Wire.Decode(b).value, o, mac)
            && Options.Lookup(b[Wire.HEADER_LEN..], c)
            == if c == 53 then Options.Found([o.kind])
               else if c == 50 then Sent(o.requested)
               else if c == 54 then Sent(o.serverId)
               else if c == 12 then SentName(host)
               else if c == 55 && (o.kind == 1 || o.kind == 3) then Options.Found([1, 3, 6, 42, 51, 58, 59])
               else Options.Missing
  {
    var opts := OptionsOf(o, host);
    OptionsOfFit(o, host);
    var area := Options.Written(opts) + [Options.END];
    Wire.DecodeOfEncode(Header(o, mac), area);
    assert Datagram(o, mac, host)[Wire.HEADER_LEN..] == area;
    assert area == Options.Written(opts) + ([Options.END] + []);
    Options.FindAfterWrite(opts, [], c);
    ExpectedOf(o, host, c);
  }

  function Sent(a: Option<LeaseAddr>): Options.FindResult {
    match a case Some(v) => Options.Found(Raw(v)) case None => Options.Missing
  }

  function SentName(host: Option<seq<byte>>): Options.FindResult {
    match host case Some(h) => Options.Found(h[..if |h| > 255 then 255 else |h|]) case None => Options.Missing
  }

  lemma ExpectedOfSum(a: seq<Options.Opt>, b: seq<Options.Opt>, c: byte)
    requires Options.Sound(a) && Options.Sound(b)
    ensures Options.Sound(a + b)
    ensures Options.Expected(a + b, c)
         == if Options.Expected(a, c).Found? then Options.Expected(a, c) else Options.Expected(b, c)
  {
    assert Options.TokensOf(a + b) == Options.TokensOf(a) + Options.TokensOf(b);
    Options.FirstWithSum(Options.TokensOf(a), Options.TokensOf(b), c);
  }

  lemma ExpectedOfSingle(opts: seq<Options.Opt>, c: byte)
    requires |opts| <= 1 && Options.Sound(opts)
    ensures Options.Expected(opts, c)
         == if opts != [] && opts[0].code == c then Options.Found(Options.Value(opts[0])) else Options.Missing
  {
    var ts := Options.TokensOf(opts);
    if opts != [] {
      assert ts[0] == Options.TokenOf(opts[0]) && ts[1..] == [];
      assert Options.FirstWith(ts[1..], c) == None;
    }
  }

  /** Each option of the message is the answer for its own code, and for no other. */
  lemma ExpectedOf(o: Outgoing, host: Option<seq<byte>>, c: byte)
    requires Options.Sound(OptionsOf(o, host))
    ensures Options.Expected(OptionsOf(o, host), c)
         == if c == Options.MSG_TYPE then Options.Found([o.kind])
            else if c == Options.REQUESTED_IP then Sent(o.requested)
            else if c == Options.SERVER_ID then Sent(o.serverId)
            else if c == Options.HOSTNAME then SentName(host)
            else if c == Options.PARAMETER_LIST && AsksParameters(o.kind) then Options.Found(REQUESTED_PARAMETERS)
            else Options.Missing
  {
    var k, h, p := KindOption(o.kind), HostOption(host), ParameterOption(o.kind);
    var r, s := AddrOption(Options.REQUESTED_IP, o.requested), AddrOption(Options.SERVER_ID, o.serverId);
    ExpectedOfSum(k, r, c);
    ExpectedOfSum(k + r, s, c);
    ExpectedOfSum(k + r + s, h, c);
    ExpectedOfSum(k + r + s + h, p, c);
    ExpectedOfSingle(k, c);
    ExpectedOfSingle(r, c);
    ExpectedOfSingle(s, c);
    ExpectedOfSingle(h, c);
    ExpectedOfSingle(p, c);
  }
}
