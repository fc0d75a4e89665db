/** The fixed BOOTP/DHCP header and the magic cookie: section 2 of RFC 2131. */
module Wire {
  import opened Net

  const FIXED_HEADER_LEN := 236
  const HEADER_LEN := 240
  const COOKIE: Quad := [0x63, 0x82, 0x53, 0x63]

  const BOOTREQUEST: byte := 1
  const BOOTREPLY: byte := 2

  type HardwareAddr = c: seq<byte> | |c| == 16 witness seq(16, _ => 0)

  /** `dmdhcp_message_t`. */
  datatype Message = Message(
    op: byte, htype: byte, hlen: byte, hops: byte, xid: u32, secs: u16, flags: u16,
    ciaddr: Addr, yiaddr: Addr, siaddr: Addr, giaddr: Addr, chaddr: HardwareAddr)

  predicate Buildable(m: Message) {
    !m.ciaddr.V6? && !m.yiaddr.V6? && !m.siaddr.V6? && !m.giaddr.V6?
  }

  /** The fields before `sname`: 44 bytes. */
  function Fields(m: Message): (f: seq<byte>)
    ensures |f| == 44
  {
    FirstFields(m) + Raw(m.ciaddr) + Raw(m.yiaddr) + Raw(m.siaddr) + Raw(m.giaddr) + m.chaddr
  }

  function Zeros(n: nat): (z: seq<byte>)
    ensures |z| == n && forall i | 0 <= i < n :: z[i] == 0
  {
    seq(n, _ => 0)
  }

  /** A whole header: the fields, an unused `sname` and `file`, and the cookie. */
  function Encode(m: Message): (b: seq<byte>)
    requires Buildable(m)
    ensures |b| == HEADER_LEN
  {
    Fields(m) + Zeros(192) + COOKIE
  }

  /** `None` is -EINVAL (too short) or -EPROTO (wrong cookie or operation). */
  function Decode(b: seq<byte>): Option<Message> {
    if |b| < HEADER_LEN || b[FIXED_HEADER_LEN..HEADER_LEN] != COOKIE then None
    else if b[0] != BOOTREQUEST && b[0] != BOOTREPLY then None
    else Some(FieldsOf(b))
  }

  function FieldsOf(b: seq<byte>): Message
    requires |b| >= 44
  {
    Message(b[0], b[1], b[2], b[3], U32Of(b[4..8]), U16Of(b[8..10]), U16Of(b[10..12]),
            V4(b[12..16]), V4(b[16..20]), V4(b[20..24]), V4(b[24..28]), b[28..44])
  }

  /** The wire has no notion of an unset address: it is received as 0.0.0.0. */
  function Normal(m: Message): Message {
    m.(ciaddr := V4(Raw(m.ciaddr)), yiaddr := V4(Raw(m.yiaddr)),
       siaddr := V4(Raw(m.siaddr)), giaddr := V4(Raw(m.giaddr)))
  }

  // ---- round trips -------------------------------------------------------------------------------

  lemma FieldsRead(m: Message, rest: seq<byte>)
    ensures FieldsOf(Fields(m) + rest) == Normal(m)
  {
    var b := Fields(m) + rest;
    assert b[4..8] == U32Bytes(m.xid);
    assert b[8..10] == U16Bytes(m.secs);
    assert b[10..12] == U16Bytes(m.flags);
    assert b[12..16] == Raw(m.ciaddr);
    assert b[16..20] == Raw(m.yiaddr);
    assert b[20..24] == Raw(m.siaddr);
    assert b[24..28] == Raw(m.giaddr);
    assert b[28..44] == m.chaddr;
    U32RoundTrip(m.xid);
    U16RoundTrip(m.secs, [0, 0]);
    U16RoundTrip(m.flags, [0, 0]);
  }

  lemma FieldsWritten(b: seq<byte>)
    requires |b| >= 44
    ensures Fields(FieldsOf(b)) == b[..44]
  {
    U32BytesUnique(b[4..8]);
    U16RoundTrip(0, b[8..10]);
    U16RoundTrip(0, b[10..12]);
    assert b[..44] == [b[0], b[1], b[2], b[3]] + b[4..8] + b[8..10] + b[10..12]
                    + b[12..16] + b[16..20] + b[20..24] + b[24..28] + b[28..44];
  }

  /** A built header, whatever follows it, parses back to the message exactly when the operation is one
      of the two that exist. */
  lemma DecodeOfEncode(m: Message, rest: seq<byte>)
    requires Buildable(m)
    ensures Decode(Encode(m) + rest)
         == if m.op == BOOTREQUEST || m.op == BOOTREPLY then Some(Normal(m)) else None
  {
    var b := Encode(m) + rest;
    assert b == Fields(m) + (Zeros(192) + COOKIE + rest);
    FieldsRead(m, Zeros(192) + COOKIE + rest);
    assert b[FIXED_HEADER_LEN..HEADER_LEN] == COOKIE;
    assert b[0] == m.op;
  }

  lemma EncodeParts(m: Message)
    requires Buildable(m)
    ensures Encode(m)[..44] == Fields(m) && Encode(m)[44..FIXED_HEADER_LEN] == Zeros(192)
    ensures Encode(m)[FIXED_HEADER_LEN..] == COOKIE
  {
  }

  /** Rebuilding an accepted message restores its fields and its cookie; it restores the whole header
      exactly when `sname` and `file` were empty. */
  lemma EncodeOfDecode(b: seq<byte>)
    requires Decode(b).Some?
    ensures Buildable(Decode(b).value)
    ensures Encode(Decode(b).value)[..44] == b[..44]
    ensures Encode(Decode(b).value)[FIXED_HEADER_LEN..] == b[FIXED_HEADER_LEN..HEADER_LEN]
    ensures Encode(Decode(b).value) == b[..HEADER_LEN] <==> b[44..FIXED_HEADER_LEN] == Zeros(192)
  {
    FieldsWritten(b);
    EncodeParts(Decode(b).value);
    assert b[..HEADER_LEN] == b[..44] + b[44..FIXED_HEADER_LEN] + b[FIXED_HEADER_LEN..HEADER_LEN];
    assert b[..HEADER_LEN][44..FIXED_HEADER_LEN] == b[44..FIXED_HEADER_LEN];
  }

  // ---- the imperative codec ----------------------------------------------------------------------

  /** `memcpy`, `memset` and the big-endian writers: `data` at offset `at`. */
  method WriteBytes(buffer: array<byte>, at: nat, data: seq<byte>)
    requires at + |data| <= buffer.Length
    modifies buffer
    ensures buffer[..at + |data|] == old(buffer[..at]) + data
    ensures forall k | at + |data| <= k < buffer.Length :: buffer[k] == old(buffer[k])
  {
    forall k | 0 <= k < |data| {
      buffer[at + k] := data[k];
    }
  }

  /** `write_addr`: refuses a v6 address, in which case nothing is written. */
  method WriteAddr(buffer: array<byte>, at: nat, a: Addr) returns (ok: bool)
    requires at + 4 <= buffer.Length
    modifies buffer
    ensures ok == !a.V6?
    ensures buffer[..at + 4] == old(buffer[..at]) + if ok then Raw(a) else old(buffer[at..at + 4])
    ensures forall k | at + 4 <= k < buffer.Length :: buffer[k] == old(buffer[k])
  {
    match a
    case V6(_) => ok := false;
    case V4(b) => WriteBytes(buffer, at, b); ok := true;
    case Unset => WriteBytes(buffer, at, ZERO); ok := true;
  }

  /** The fields before the addresses: 12 bytes. */
  function FirstFields(m: Message): (f: seq<byte>)
    ensures |f| == 12
  {
    [m.op, m.htype, m.hlen, m.hops] + U32Bytes(m.xid) + U16Bytes(m.secs) + U16Bytes(m.flags)
  }

  method WriteFirstFields(buffer: array<byte>, m: Message)
    requires buffer.Length >= HEADER_LEN
    modifies buffer
    ensures buffer[..12] == FirstFields(m)
    ensures forall k | 12 <= k < buffer.Length :: buffer[k] == old(buffer[k])
  {
    WriteBytes(buffer, 0, [m.op, m.htype, m.hlen, m.hops]);
    WriteBytes(buffer, 4, U32Bytes(m.xid));
    WriteBytes(buffer, 8, U16Bytes(m.secs));
    WriteBytes(buffer, 10, U16Bytes(m.flags));
  }

  method WriteAddrs(buffer: array<byte>, m: Message) returns (ok: bool)
    requires buffer.Length >= HEADER_LEN
    modifies buffer
    ensures ok <==> Buildable(m)
    ensures ok ==>
              buffer[..28] == old(buffer[..12]) + Raw(m.ciaddr) + Raw(m.yiaddr) + Raw(m.siaddr) + Raw(m.giaddr)
    ensures forall k | 28 <= k < buffer.Length :: buffer[k] == old(buffer[k])
  {
    ok := WriteAddr(buffer, 12, m.ciaddr);
    if ok {
      ok := WriteAddr(buffer, 16, m.yiaddr);
    }
    if ok {
      ok := WriteAddr(buffer, 20, m.siaddr);
    }
    if ok {
      ok := WriteAddr(buffer, 24, m.giaddr);
    }
  }

  /** The part of `dmdhcp_build_message` that fills in the fields. */
  method WriteFields(buffer: array<byte>, m: Message) returns (ok: bool)
    requires buffer.Length >= HEADER_LEN
    modifies buffer
    ensures ok <==> Buildable(m)
    ensures ok ==> buffer[..44] == Fields(m)
    ensures forall k | 44 <= k < buffer.Length :: buffer[k] == old(buffer[k])
  {
    WriteFirstFields(buffer, m);
    ok := WriteAddrs(buffer, m);
    if ok {
      WriteBytes(buffer, 28, m.chaddr);
    }
  }

  /** `dmdhcp_build_message`; `false` is -EINVAL. */
  method Build(buffer: array<byte>, m: Message) returns (ok: bool)
    modifies buffer
    ensures ok <==> buffer.Length >= HEADER_LEN && Buildable(m)
    ensures ok ==> buffer[..HEADER_LEN] == Encode(m)
    ensures buffer.Length < HEADER_LEN ==> buffer[..] == old(buffer[..])
    ensures forall k | HEADER_LEN <= k < buffer.Length :: buffer[k] == old(buffer[k])
  {
    if buffer.Length < HEADER_LEN {
      return false;
    }
    WriteBytes(buffer, 0, Zeros(HEADER_LEN));
    assert forall k | 0 <= k < HEADER_LEN :: buffer[..HEADER_LEN][k] == 0;
    ok := WriteFields(buffer, m);
    if ok {
      assert buffer[44..FIXED_HEADER_LEN] == Zeros(192);
      assert buffer[..FIXED_HEADER_LEN] == buffer[..44] + buffer[44..FIXED_HEADER_LEN];
      WriteBytes(buffer, FIXED_HEADER_LEN, COOKIE);
    }
  }

  /** `dmdhcp_parse_message`: the message and the offset of the options. */
  method Parse(buffer: seq<byte>) returns (m: Option<Message>, optionsOffset: nat)
    ensures m == Decode(buffer)
    ensures m.Some? ==> optionsOffset == HEADER_LEN <= |buffer|
  {
    if |buffer| < HEADER_LEN {
      return None, 0;
    }
    if buffer[FIXED_HEADER_LEN..HEADER_LEN] != COOKIE {
      return None, 0;
    }
    var op := buffer[0];
    if op != BOOTREQUEST && op != BOOTREPLY {
      return None, 0;
    }
    m := Some(Message(op, buffer[1], buffer[2], buffer[3],
                      U32Of(buffer[4..8]), U16Of(buffer[8..10]), U16Of(buffer[10..12]),
                      V4(buffer[12..16]), V4(buffer[16..20]), V4(buffer[20..24]), V4(buffer[24..28]),
                      buffer[28..44]));
    optionsOffset := HEADER_LEN;
  }
}
