/** Machine words, addresses and the big-endian helpers shared by the header and option codecs. */
module Net {

  type byte = x: int | 0 <= x < 256
  type u16 = x: int | 0 <= x < 0x1_0000
  type u32 = x: int | 0 <= x < 0x1_0000_0000

  /** One past the largest `uint32_t`. */
  const U32_RANGE := 0x1_0000_0000

  datatype Option<+T> = None | Some(value: T)

  /** The four raw bytes of an IPv4 address. */
  type Quad = q: seq<byte> | |q| == 4 witness [0, 0, 0, 0]

  /** `dmroute_addr_t`. The v4 and v6 members share storage, so a v6 value is kept by the four bytes that
      a reader of the v4 member would see. */
  datatype Addr = Unset | V4(bytes: Quad) | V6(head: Quad)

  /** The addresses a lease can hold: nothing in the client ever stores a v6 one. */
  type LeaseAddr = a: Addr | !a.V6? witness Unset

  const ZERO: Quad := [0, 0, 0, 0]
  const LIMITED_BROADCAST: LeaseAddr := V4([255, 255, 255, 255])

  /** What reading `addr.v4` yields, whatever the family says. */
  function Raw(a: Addr): Quad {
    match a
    case Unset => ZERO
    case V4(b) => b
    case V6(h) => h
  }

  function Wrap32(x: nat): u32 {
    x % U32_RANGE
  }

  function U16Bytes(v: u16): (b: seq<byte>)
    ensures |b| == 2
  {
    [v / 0x100, v % 0x100]
  }

  function U16Of(b: seq<byte>): u16
    requires |b| == 2
  {
    (b[0] as int) * 0x100 + b[1]
  }

  function U32Bytes(v: u32): Quad {
    [v / 0x100_0000, v / 0x1_0000 % 0x100, v / 0x100 % 0x100, v % 0x100]
  }

  function U32Of(b: Quad): u32 {
    (b[0] as int) * 0x100_0000 + (b[1] as int) * 0x1_0000 + (b[2] as int) * 0x100 + b[3]
  }

  lemma U32RoundTrip(v: u32)
    ensures U32Of(U32Bytes(v)) == v
  {
    var a, b, c := v / 0x100_0000, v / 0x1_0000, v / 0x100;
    assert c == b * 0x100 + v / 0x100 % 0x100;
    assert b == a * 0x100 + v / 0x1_0000 % 0x100;
  }

  lemma U32BytesUnique(b: Quad)
    ensures U32Bytes(U32Of(b)) == b
  {
    var x := U32Of(b);
    assert x / 0x100 == (b[0] as int) * 0x1_0000 + (b[1] as int) * 0x100 + b[2];
    assert x / 0x1_0000 == (b[0] as int) * 0x100 + b[1];
  }

  lemma U16RoundTrip(v: u16, c: seq<byte>)
    requires |c| == 2
    ensures U16Of(U16Bytes(v)) == v && U16Bytes(U16Of(c)) == c
  {
  }

  // ---- the broadcast address ---------------------------------------------------------------------

  /** Bit `k` of a word, counted from the least significant one. */
  predicate Bit(x: nat, k: nat) {
    if k == 0 then x % 2 == 1 else Bit(x / 2, k - 1)
  }

  /** The low `width` bits of `ip | ~mask`. */
  function OrNot(ip: nat, mask: nat, width: nat): nat {
    if width == 0 then 0
    else 2 * OrNot(ip / 2, mask / 2, width - 1) + if ip % 2 == 1 || mask % 2 == 0 then 1 else 0
  }

  lemma {:induction false} OrNotBits(ip: nat, mask: nat, width: nat, k: nat)
    requires k < width
    ensures Bit(OrNot(ip, mask, width), k) <==> Bit(ip, k) || !Bit(mask, k)
  {
    if k > 0 {
      OrNotBits(ip / 2, mask / 2, width - 1, k - 1);
      assert OrNot(ip, mask, width) / 2 == OrNot(ip / 2, mask / 2, width - 1);
    }
  }

  function Pow2(n: nat): (p: nat)
    ensures p >= 1
  {
    if n == 0 then 1 else 2 * Pow2(n - 1)
  }

  lemma {:induction false} OrNotFits(ip: nat, mask: nat, width: nat)
    ensures OrNot(ip, mask, width) < Pow2(width)
  {
    if width > 0 {
      OrNotFits(ip / 2, mask / 2, width - 1);
    }
  }

  /** The directed broadcast address of the subnet: `ip | ~mask`, byte by byte. */
  function Broadcast(ip: Quad, mask: Quad): Quad {
    seq(4, i requires 0 <= i < 4 => OrNot(ip[i], mask[i], 8) % 256)
  }

  /** Every host bit of the broadcast address is set; every network bit is that of `ip`. */
  lemma BroadcastMeaning(ip: Quad, mask: Quad, i: nat, k: nat)
    requires i < 4 && k < 8
    ensures Bit(Broadcast(ip, mask)[i], k) <==> Bit(ip[i], k) || !Bit(mask[i], k)
  {
    var b := OrNot(ip[i], mask[i], 8);
    OrNotFits(ip[i], mask[i], 8);
    assert Pow2(4) == 16;
    assert Pow2(8) == 256;
    assert Broadcast(ip, mask)[i] == b;
    OrNotBits(ip[i], mask[i], 8, k);
  }
}
