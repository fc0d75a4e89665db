/** The formats octet by octet: what the codecs make of literal bytes. Round trips alone would hold for any
    consistent choice of codes, offsets and byte order; these are the ones of RFC 2131 and RFC 2132. */
module Octets {
  import opened Net
  import Options
  import Sender
  import Wire

  /** The most significant octet comes first. */
  lemma NetworkByteOrder(v: u32, w: u16)
    ensures U32Of([0x12, 0x34, 0x56, 0x78]) == 0x12345678 && U32Bytes(0x12345678) == [0x12, 0x34, 0x56, 0x78]
    ensures U16Of([0x12, 0x34]) == 0x1234 && U16Bytes(0x1234) == [0x12, 0x34]
    ensures U32Bytes(v)[0] == v / 0x100_0000 && U32Bytes(v)[3] == v % 0x100 && U16Bytes(w)[1] == w % 0x100
  {
  }

  /** Section 2 of RFC 2131: where each field stands. */
  lemma HeaderOffsets(b: seq<byte>)
    requires |b| >= 240 && (b[0] == 1 || b[0] == 2) && b[236..240] == [99, 130, 83, 99]
    ensures Wire.Decode(b).Some?
    ensures var m := Wire.Decode(b).value;
            && m.op == b[0] && m.htype == b[1] && m.hlen == b[2] && m.hops == b[3]
            && m.xid == (b[4] as int) * 0x100_0000 + (b[5] as int) * 0x1_0000 + (b[6] as int) * 0x100 + b[7]
            && m.secs == (b[8] as int) * 0x100 + b[9]
            && m.flags == (b[10] as int) * 0x100 + b[11]
            && m.ciaddr == V4(b[12..16]) && m.yiaddr == V4(b[16..20]) && m.siaddr == V4(b[20..24])
            && m.giaddr == V4(b[24..28]) && m.chaddr == b[28..44]
  {
  }

  /** Nothing else is a header. */
  lemma HeaderRefused(b: seq<byte>)
    ensures Wire.Decode(b).None?
       <==> |b| < 240 || !(b[0] == 1 || b[0] == 2) || b[236..240] != [99, 130, 83, 99]
  {
  }

  /** The options of a DISCOVER of a client without a name: its type, and the parameters it asks for. */
  lemma DiscoverOptions(m: Sender.Outgoing)
    requires m.kind == 1 && m.requested == None && m.serverId == None
    ensures Options.Sound(Sender.OptionsOf(m, None))
    ensures Options.Written(Sender.OptionsOf(m, None)) == [53, 1, 1, 55, 7, 1, 3, 6, 42, 51, 58, 59]
  {
    var first, second := Options.Opt(53, 1, Some([1])), Options.Opt(55, 7, Some([1, 3, 6, 42, 51, 58, 59]));
    var opts := Sender.OptionsOf(m, None);
    assert opts == [first, second];
    assert opts[..1] == [first] && [first][..0] == [];
    assert Options.Written([first]) == [53, 1, 1];
  }

  /** A name goes under code 12, cut to the 255 octets that an option can hold. */
  lemma NameOnTheWire(m: Sender.Outgoing, mac: Sender.Mac, name: seq<byte>)
    ensures var b := Sender.Datagram(m, mac, Some(name));
            && |b| >= 240
            && Options.Lookup(b[240..], 12) == Options.Found(if |name| > 255 then name[..255] else name)
  {
    Sender.DatagramReads(m, mac, Some(name), 12);
    assert |name| <= 255 ==> name[..|name|] == name;
  }

  /** Sections 2 and 3 of RFC 2132: padding is 0, an option is its code, its length and its data, and 255 is the
      end, behind which nothing counts. */
  lemma OptionOctets(junk: seq<byte>)
    ensures Options.Lookup([0, 51, 2, 14, 16, 255] + junk, 51) == Options.Found([14, 16])
    ensures Options.Lookup([0, 51, 2, 14, 16, 255] + junk, 14) == Options.Missing
    ensures Options.Lookup([255, 51, 2, 14, 16], 51) == Options.Missing
    ensures Options.Lookup([51, 3, 14, 16], 51) == Options.Malformed
  {
    var ts := [Options.Pad, Options.Entry(51, [14, 16])];
    assert ts[1..] == [Options.Entry(51, [14, 16])] && ts[1..][1..] == [];
    assert Options.Render(ts[1..]) == [51, 2, 14, 16];
    assert Options.Render(ts) == [0, 51, 2, 14, 16];
    assert [0, 51, 2, 14, 16, 255] + junk == Options.Render(ts) + ([255] + junk);
    Options.LookupRendered(ts, junk, 51);
    Options.LookupRendered(ts, junk, 14);
    Options.LookupTerminal([255, 51, 2, 14, 16], 51);
    Options.LookupTerminal([51, 3, 14, 16], 51);
  }
}
