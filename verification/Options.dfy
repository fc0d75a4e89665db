/** The option area of a DHCP message: sections 2 and 3 of RFC 2132.

    The grammar (`Render`, `Terminal`) says what an option area is; `Parse` reads one; `Write` and `Find`
    are the imperative codec. */
module Options {
  import opened Net

  const PAD: byte := 0
  const END: byte := 255

  const SUBNET_MASK: byte := 1
  const ROUTER: byte := 3
  const DNS_SERVER: byte := 6
  const HOSTNAME: byte := 12
  const NTP_SERVER: byte := 42
  const REQUESTED_IP: byte := 50
  const LEASE_TIME: byte := 51
  const MSG_TYPE: byte := 53
  const SERVER_ID: byte := 54
  const PARAMETER_LIST: byte := 55
  const RENEWAL_T1: byte := 58
  const REBINDING_T2: byte := 59

  // ---- the grammar -------------------------------------------------------------------------------

  datatype Token = Pad | Entry(code: byte, data: seq<byte>)

  predicate WellFormed(t: Token) {
    t.Entry? ==> PAD < t.code < END && |t.data| < 256
  }

  predicate AllWellFormed(ts: seq<Token>) {
    forall i | 0 <= i < |ts| :: WellFormed(ts[i])
  }

  function RenderOne(t: Token): seq<byte>
    requires WellFormed(t)
  {
    match t
    case Pad => [PAD]
    case Entry(c, d) => [c, |d|] + d
  }

  function Render(ts: seq<Token>): seq<byte>
    requires AllWellFormed(ts)
  {
    if ts == [] then [] else RenderOne(ts[0]) + Render(ts[1..])
  }

  /** A last entry whose length byte or data runs past the end of the area. */
  predicate Truncated(tail: seq<byte>) {
    tail != [] && tail[0] != PAD && tail[0] != END && (|tail| == 1 || |tail| < 2 + tail[1] as int)
  }

  /** What may follow the entries: nothing, an END marker with anything behind it, or a truncated entry. */
  predicate Terminal(tail: seq<byte>) {
    tail == [] || tail[0] == END || Truncated(tail)
  }

  // ---- the reader --------------------------------------------------------------------------------

  datatype Area = Area(tokens: seq<Token>, tail: seq<byte>)

  lemma RenderCons(t: Token, ts: seq<Token>)
    requires WellFormed(t) && AllWellFormed(ts)
    ensures AllWellFormed([t] + ts) && Render([t] + ts) == RenderOne(t) + Render(ts)
  {
    assert ([t] + ts)[1..] == ts;
  }

  /** The first entry of an area that does not end at once, and what follows it. */
  function Head(o: seq<byte>): (t: Token)
    requires !Terminal(o)
    ensures WellFormed(t)
  {
    if o[0] == PAD then Pad else Entry(o[0], o[2..2 + o[1] as int])
  }

  function Next(o: seq<byte>): (r: seq<byte>)
    requires !Terminal(o)
    ensures |r| < |o|
  {
    if o[0] == PAD then o[1..] else o[2 + o[1] as int..]
  }

  lemma HeadThenNext(o: seq<byte>)
    requires !Terminal(o)
    ensures o == RenderOne(Head(o)) + Next(o)
  {
  }

  lemma HeadOfRendered(t: Token, rest: seq<byte>)
    requires WellFormed(t)
    ensures !Terminal(RenderOne(t) + rest)
    ensures Head(RenderOne(t) + rest) == t && Next(RenderOne(t) + rest) == rest
  {
    var o := RenderOne(t) + rest;
    if t.Pad? {
      assert o[1..] == rest;
    } else {
      var n := |t.data|;
      assert o == [t.code, n] + (t.data + rest);
      assert o[2..] == t.data + rest;
      assert o[2..2 + n] == o[2..][..n] == t.data;
      assert o[2 + n..] == o[2..][n..] == rest;
    }
  }

  function Parse(o: seq<byte>): Area
    decreases |o|
  {
    if Terminal(o) then
      Area([], o)
    else
      var rest := Parse(Next(o));
      Area([Head(o)] + rest.tokens, rest.tail)
  }

  lemma Assoc(a: seq<byte>, b: seq<byte>, c: seq<byte>)
    ensures (a + b) + c == a + (b + c)
  {
  }

  lemma {:induction false} ParseReads(o: seq<byte>)
    ensures AllWellFormed(Parse(o).tokens) && Terminal(Parse(o).tail)
    ensures Render(Parse(o).tokens) + Parse(o).tail == o
    decreases |o|
  {
    if !Terminal(o) {
      var rest := Parse(Next(o));
      ParseReads(Next(o));
      RenderCons(Head(o), rest.tokens);
      HeadThenNext(o);
      Assoc(RenderOne(Head(o)), Render(rest.tokens), rest.tail);
    }
  }

  lemma ParseUnfolds(o: seq<byte>)
    requires !Terminal(o)
    ensures Parse(o) == Area([Head(o)] + Parse(Next(o)).tokens, Parse(Next(o)).tail)
  {
  }

  lemma {:induction false} ParseRendered(ts: seq<Token>, tail: seq<byte>)
    requires AllWellFormed(ts) && Terminal(tail)
    ensures Parse(Render(ts) + tail) == Area(ts, tail)
  {
    if ts == [] {
      assert Render(ts) + tail == tail;
    } else {
      var rest := Render(ts[1..]) + tail;
      ParseRendered(ts[1..], tail);
      HeadOfRendered(ts[0], rest);
      ParseUnfolds(RenderOne(ts[0]) + rest);
      Assoc(RenderOne(ts[0]), Render(ts[1..]), tail);
    }
  }

  /** Every byte string is an option area in exactly one way, and `Parse` finds it. */
  lemma GrammarUnambiguous(o: seq<byte>, ts: seq<Token>, tail: seq<byte>)
    ensures Parse(o) == Area(ts, tail) <==> AllWellFormed(ts) && Terminal(tail) && o == Render(ts) + tail
  {
    ParseReads(o);
    if AllWellFormed(ts) && Terminal(tail) {
      ParseRendered(ts, tail);
    }
  }

  // ---- lookup ------------------------------------------------------------------------------------

  /** `Found` is a return of 0, `Missing` is -ENOENT and `Malformed` is -EPROTO. */
  datatype FindResult = Found(data: seq<byte>) | Missing | Malformed

  function FirstWith(ts: seq<Token>, code: byte): Option<seq<byte>> {
    if ts == [] then None
    else if ts[0].Entry? && ts[0].code == code then Some(ts[0].data)
    else FirstWith(ts[1..], code)
  }

  /** What a search of the area must answer: the first entry with the code, wherever it stands before the
      end of the entries; failing that, an error if and only if the area ends in a truncated entry. */
  function Lookup(o: seq<byte>, code: byte): FindResult {
    match FirstWith(Parse(o).tokens, code)
    case Some(d) => Found(d)
    case None => if Truncated(Parse(o).tail) then Malformed else Missing
  }

  lemma {:induction false} FirstWithWellFormed(ts: seq<Token>, code: byte)
    requires AllWellFormed(ts)
    ensures FirstWith(ts, code).Some? ==> PAD < code < END && |FirstWith(ts, code).value| < 256
  {
    if ts != [] {
      assert WellFormed(ts[0]);
      FirstWithWellFormed(ts[1..], code);
    }
  }

  /** Codes 0 and 255 are never found, and a found value fits a length byte. */
  lemma LookupRange(o: seq<byte>, code: byte)
    ensures Lookup(o, code).Found? ==> PAD < code < END && |Lookup(o, code).data| < 256
  {
    ParseReads(o);
    FirstWithWellFormed(Parse(o).tokens, code);
  }

  lemma LookupRendered(ts: seq<Token>, junk: seq<byte>, code: byte)
    requires AllWellFormed(ts)
    ensures Lookup(Render(ts) + ([END] + junk), code)
         == match FirstWith(ts, code) case Some(d) => Found(d) case None => Missing
  {
    ParseRendered(ts, [END] + junk);
  }

  lemma LookupSkips(o: seq<byte>, code: byte)
    requires !Terminal(o)
    ensures Lookup(o, code)
         == if Head(o).Entry? && Head(o).code == code then Found(Head(o).data) else Lookup(Next(o), code)
  {
    ParseUnfolds(o);
    assert Parse(o).tokens[1..] == Parse(Next(o)).tokens;
  }

  /** The search as it goes through the area by offsets. */
  function Scan(o: seq<byte>, pos: nat, code: byte): FindResult
    requires pos <= |o|
    decreases |o| - pos
  {
    if pos == |o| then Missing
    else if o[pos] == PAD then Scan(o, pos + 1, code)
    else if o[pos] == END then Missing
    else if pos + 1 == |o| || pos + 2 + o[pos + 1] as int > |o| then Malformed
    else if o[pos] == code then Found(o[pos + 2..pos + 2 + o[pos + 1] as int])
    else Scan(o, pos + 2 + o[pos + 1] as int, code)
  }

  /** An area that starts in the middle of a buffer, in terms of offsets into the buffer. */
  lemma AreaAt(o: seq<byte>, pos: nat)
    requires pos < |o|
    ensures var r := o[pos..];
            && (Terminal(r) <==> o[pos] == END || Truncated(r))
            && (Truncated(r) <==> && o[pos] != PAD && o[pos] != END
                                  && (pos + 1 == |o| || pos + 2 + o[pos + 1] as int > |o|))
            && (!Terminal(r) && o[pos] == PAD ==> Head(r) == Pad && Next(r) == o[pos + 1..])
            && (!Terminal(r) && o[pos] != PAD ==>
                  var n := o[pos + 1] as int;
                  Head(r) == Entry(o[pos], o[pos + 2..pos + 2 + n]) && Next(r) == o[pos + 2 + n..])
  {
    var r := o[pos..];
    assert r[0] == o[pos] && (|r| > 1 ==> r[1] == o[pos + 1]);
  }

  lemma LookupTerminal(r: seq<byte>, code: byte)
    requires Terminal(r)
    ensures Lookup(r, code) == if Truncated(r) then Malformed else Missing
  {
  }

  lemma {:induction false} ScanIsLookup(o: seq<byte>, pos: nat, code: byte)
    requires pos <= |o|
    ensures Scan(o, pos, code) == Lookup(o[pos..], code)
    decreases |o| - pos
  {
    var r := o[pos..];
    if pos == |o| {
      LookupTerminal(r, code);
    } else {
      AreaAt(o, pos);
      if Terminal(r) {
        LookupTerminal(r, code);
      } else {
        LookupSkips(r, code);
        ScanIsLookup(o, if o[pos] == PAD then pos + 1 else pos + 2 + o[pos + 1] as int, code);
      }
    }
  }

  /** `dmdhcp_options_find`: `at` is the offset of the borrowed data inside the area. */
  method Find(options: seq<byte>, code: byte) returns (r: FindResult, at: nat)
    ensures r == Lookup(options, code)
    ensures r.Found? ==>
              && 2 <= at && at + |r.data| <= |options| && r.data == options[at..at + |r.data|]
              && options[at - 2] == code && options[at - 1] == |r.data|
  {
    r, at := Search(options, code);
    ScanIsLookup(options, 0, code);
    assert options[0..] == options;
  }

  /** The loop of `dmdhcp_options_find`. */
  method Search(options: seq<byte>, code: byte) returns (r: FindResult, at: nat)
    ensures r == Scan(options, 0, code)
    ensures r.Found? ==>
              && 2 <= at && at + |r.data| <= |options| && r.data == options[at..at + |r.data|]
              && options[at - 2] == code && options[at - 1] == |r.data|
  {
    var pos := 0;
    while pos < |options|
      invariant pos <= |options| && Scan(options, pos, code) == Scan(options, 0, code)
      decreases |options| - pos
    {
      var entryCode := options[pos];
      if entryCode == PAD {
        pos := pos + 1;
        continue;
      }
      if entryCode == END {
        break;
      }
      if pos + 1 >= |options| {
        return Malformed, 0;
      }
      var entryLen := options[pos + 1] as int;
      if pos + 2 + entryLen > |options| {
        return Malformed, 0;
      }
      if entryCode == code {
        return Found(options[pos + 2..pos + 2 + entryLen]), pos + 2;
      }
      pos := pos + 2 + entryLen;
    }
    return Missing, 0;
  }

  // ---- the writer --------------------------------------------------------------------------------

  /** `dmdhcp_option_t`: a null `data` pointer is `None`. */
  datatype Opt = Opt(code: byte, length: byte, data: Option<seq<byte>>)

  /** The caller's side of the bargain: a non-null pointer covers `length` bytes. */
  predicate Readable(o: Opt) {
    o.data.Some? ==> |o.data.value| >= o.length
  }

  /** A null pointer together with a length: the writer answers -EINVAL. */
  predicate Dangling(o: Opt) {
    o.data.None? && o.length > 0
  }

  predicate Sound(opts: seq<Opt>) {
    forall i | 0 <= i < |opts| :: Readable(opts[i]) && !Dangling(opts[i])
  }

  function Value(o: Opt): (d: seq<byte>)
    requires Readable(o) && !Dangling(o)
    ensures |d| == o.length
  {
    if o.data.None? then [] else o.data.value[..o.length]
  }

  function Size(opts: seq<Opt>): nat {
    if opts == [] then 0 else Size(opts[..|opts| - 1]) + 2 + opts[|opts| - 1].length
  }

  /** The bytes of the entries, without the END marker. */
  function Written(opts: seq<Opt>): (w: seq<byte>)
    requires Sound(opts)
    ensures |w| == Size(opts)
  {
    if opts == [] then [] else
      var last := opts[|opts| - 1];
      Written(opts[..|opts| - 1]) + [last.code, last.length] + Value(last)
  }

  lemma {:induction false} SizeOfPrefix(opts: seq<Opt>, i: nat)
    requires i <= |opts|
    ensures Size(opts[..i]) <= Size(opts)
  {
    if i == |opts| {
      assert opts[..i] == opts;
    } else {
      SizeOfPrefix(opts[..|opts| - 1], i);
      assert opts[..|opts| - 1][..i] == opts[..i];
    }
  }

  /** Once the first `i + 1` options do not fit, no later one changes the answer. */
  lemma OverflowIsFinal(opts: seq<Opt>, i: nat, cap: nat)
    requires i < |opts| && Sound(opts[..i + 1]) && Size(opts[..i + 1]) > cap
    ensures Size(opts) > cap
    ensures forall j | 0 <= j < |opts| && Dangling(opts[j]) :: Size(opts[..j]) > cap
  {
    SizeOfPrefix(opts, i + 1);
    assert forall j | 0 <= j <= i :: opts[..i + 1][j] == opts[j];
    forall j | 0 <= j < |opts| && Dangling(opts[j]) ensures Size(opts[..j]) > cap {
      assert j > i;
      SizeOfPrefix(opts[..j], i + 1);
      assert opts[..j][..i + 1] == opts[..i + 1];
    }
  }

  /** `Done` is a return of 0, `NoSpace` is -ENOSPC and `BadArgument` is -EINVAL. */
  datatype WriteResult = Done(length: nat) | NoSpace | BadArgument

  /** The body of the writer's loop: one entry at `buffer[off + pos..]`. */
  method WriteEntry(buffer: array<byte>, off: nat, pos: nat, opt: Opt) returns (next: nat)
    requires Readable(opt) && !Dangling(opt)
    requires off + pos + 2 + opt.length <= buffer.Length
    modifies buffer
    ensures next == pos + 2 + opt.length
    ensures buffer[off..off + next] == old(buffer[off..off + pos]) + [opt.code, opt.length] + Value(opt)
    ensures forall k | 0 <= k < buffer.Length && !(off + pos <= k < off + next) :: buffer[k] == old(buffer[k])
  {
    buffer[off + pos] := opt.code;
    buffer[off + pos + 1] := opt.length;
    if opt.length > 0 {
      var data := opt.data.value;
      forall k | 0 <= k < opt.length {
        buffer[off + pos + 2 + k] := data[k];
      }
    }
    next := pos + 2 + opt.length;
  }

  /** `dmdhcp_options_write` into `buffer[off..off + cap]`. */
  method Write(buffer: array<byte>, off: nat, cap: nat, opts: seq<Opt>) returns (r: WriteResult)
    requires off + cap <= buffer.Length
    requires forall i | 0 <= i < |opts| :: Readable(opts[i])
    modifies buffer
    ensures r.Done? <==> Sound(opts) && Size(opts) + 1 <= cap
    ensures r.BadArgument? <==>
              exists i | 0 <= i < |opts| :: Dangling(opts[i]) && Sound(opts[..i]) && Size(opts[..i]) <= cap
    ensures r.Done? ==> r.length == Size(opts) + 1 && buffer[off..off + r.length] == Written(opts) + [END]
    ensures forall k | 0 <= k < buffer.Length && !(off <= k < off + cap) :: buffer[k] == old(buffer[k])
  {
    var pos := 0;
    var i := 0;
    while i < |opts|
      invariant i <= |opts| && pos == Size(opts[..i]) <= cap
      invariant Sound(opts[..i]) && buffer[off..off + pos] == Written(opts[..i])
      invariant forall k | 0 <= k < buffer.Length && !(off <= k < off + cap) :: buffer[k] == old(buffer[k])
    {
      var opt := opts[i];
      if Dangling(opt) {
        return BadArgument;
      }
      ghost var more := opts[..i + 1];
      assert more[..i] == opts[..i] && more[i] == opt;
      assert Sound(more);
      if pos + 2 + opt.length > cap {
        OverflowIsFinal(opts, i, cap);
        return NoSpace;
      }
      pos := WriteEntry(buffer, off, pos, opt);
      i := i + 1;
    }
    assert opts[..i] == opts;
    if pos + 1 > cap {
      return NoSpace;
    }
    ghost var before := buffer[off..off + pos];
    buffer[off + pos] := END;
    assert buffer[off..off + pos] == before;
    assert buffer[off..off + pos + 1] == before + [END];
    return Done(pos + 1);
  }

  // ---- writing, then finding ---------------------------------------------------------------------

  function TokenOf(o: Opt): Token
    requires Readable(o) && !Dangling(o)
  {
    Entry(o.code, Value(o))
  }

  function TokensOf(opts: seq<Opt>): (ts: seq<Token>)
    requires Sound(opts)
    ensures |ts| == |opts| && forall i | 0 <= i < |opts| :: ts[i] == TokenOf(opts[i])
  {
    seq(|opts|, i requires 0 <= i < |opts| => TokenOf(opts[i]))
  }

  predicate CodesInRange(opts: seq<Opt>) {
    forall i | 0 <= i < |opts| :: PAD < opts[i].code < END
  }

  lemma {:induction false} RenderAppend(ts: seq<Token>, t: Token)
    requires AllWellFormed(ts) && WellFormed(t)
    ensures Render(ts + [t]) == Render(ts) + RenderOne(t)
  {
    if ts == [] {
      assert ts + [t] == [t] && [t][1..] == [];
    } else {
      var first, rest := ts[0], ts[1..];
      RenderAppend(rest, t);
      assert WellFormed(first) && AllWellFormed(rest + [t]);
      RenderCons(first, rest + [t]);
      Assoc(RenderOne(first), Render(rest), RenderOne(t));
      assert ts + [t] == [first] + (rest + [t]);
    }
  }

  lemma TokensAppend(opts: seq<Opt>)
    requires Sound(opts) && opts != []
    ensures TokensOf(opts) == TokensOf(opts[..|opts| - 1]) + [TokenOf(opts[|opts| - 1])]
  {
  }

  lemma WrittenAppend(opts: seq<Opt>)
    requires Sound(opts) && CodesInRange(opts) && opts != []
    ensures Written(opts) == Written(opts[..|opts| - 1]) + RenderOne(TokenOf(opts[|opts| - 1]))
  {
    var last := opts[|opts| - 1];
    Assoc(Written(opts[..|opts| - 1]), [last.code, last.length], Value(last));
  }

  lemma {:induction false} WrittenIsRendered(opts: seq<Opt>)
    requires Sound(opts) && CodesInRange(opts)
    ensures AllWellFormed(TokensOf(opts)) && Written(opts) == Render(TokensOf(opts))
  {
    if opts != [] {
      var n := |opts| - 1;
      var last := opts[n];
      WrittenIsRendered(opts[..n]);
      RenderAppend(TokensOf(opts[..n]), TokenOf(last));
      TokensAppend(opts);
      WrittenAppend(opts);
    }
  }

  lemma {:induction false} FirstWithPresent(ts: seq<Token>, i: nat)
    requires i < |ts| && ts[i].Entry?
    ensures FirstWith(ts, ts[i].code).Some?
  {
    if i > 0 {
      FirstWithPresent(ts[1..], i - 1);
    }
  }

  predicate DistinctCodes(ts: seq<Token>) {
    forall j, k | 0 <= j < k < |ts| && ts[j].Entry? && ts[k].Entry? :: ts[j].code != ts[k].code
  }

  /** When no code occurs twice, each entry is the one that is found, so the order is free. */
  lemma {:induction false} OrderIsFree(ts: seq<Token>, i: nat)
    requires DistinctCodes(ts) && i < |ts| && ts[i].Entry?
    ensures FirstWith(ts, ts[i].code) == Some(ts[i].data)
  {
    if i > 0 {
      OrderIsFree(ts[1..], i - 1);
    }
  }

  lemma {:induction false} FirstWithOccurs(ts: seq<Token>, code: byte)
    requires FirstWith(ts, code).Some?
    ensures Entry(code, FirstWith(ts, code).value) in ts
  {
    if !(ts[0].Entry? && ts[0].code == code) {
      FirstWithOccurs(ts[1..], code);
    }
  }

  lemma {:induction false} FirstWithSum(a: seq<Token>, b: seq<Token>, code: byte)
    ensures FirstWith(a + b, code) == if FirstWith(a, code).Some? then FirstWith(a, code) else FirstWith(b, code)
  {
    if a == [] {
      assert a + b == b;
    } else {
      FirstWithSum(a[1..], b, code);
      assert (a + b)[1..] == a[1..] + b;
    }
  }

  /** The entries of an area, without its padding. */
  function Entries(ts: seq<Token>): seq<Token> {
    if ts == [] then [] else (if ts[0].Pad? then [] else [ts[0]]) + Entries(ts[1..])
  }

  /** An area that holds the given entries in any order, with any padding between them. */
  predicate Arranges(ts: seq<Token>, entries: seq<Token>) {
    multiset(Entries(ts)) == multiset(entries)
  }

  lemma {:induction false} EntriesOccur(ts: seq<Token>, t: Token)
    requires t.Entry?
    ensures t in Entries(ts) <==> t in ts
  {
    if ts != [] {
      EntriesOccur(ts[1..], t);
    }
  }

  lemma ArrangedOccur(ts: seq<Token>, entries: seq<Token>, t: Token)
    requires Arranges(ts, entries) && t.Entry?
    ensures t in ts <==> t in entries
  {
    EntriesOccur(ts, t);
    assert t in Entries(ts) <==> t in multiset(Entries(ts));
    assert t in entries <==> t in multiset(entries);
  }

  lemma ArrangedWellFormed(ts: seq<Token>, entries: seq<Token>)
    requires Arranges(ts, entries) && AllWellFormed(entries)
    ensures AllWellFormed(ts)
  {
    forall i | 0 <= i < |ts| ensures WellFormed(ts[i]) {
      if ts[i].Entry? {
        ArrangedOccur(ts, entries, ts[i]);
      }
    }
  }

  /** However entries of distinct codes are arranged and padded, every search gives the same answer. */
  lemma ArrangedFindsSame(ts: seq<Token>, entries: seq<Token>, code: byte)
    requires Arranges(ts, entries) && DistinctCodes(entries)
    ensures FirstWith(ts, code) == FirstWith(entries, code)
  {
    if FirstWith(ts, code).Some? {
      var t := Entry(code, FirstWith(ts, code).value);
      FirstWithOccurs(ts, code);
      ArrangedOccur(ts, entries, t);
      var i :| 0 <= i < |entries| && entries[i] == t;
      OrderIsFree(entries, i);
    } else if FirstWith(entries, code).Some? {
      var t := Entry(code, FirstWith(entries, code).value);
      FirstWithOccurs(entries, code);
      ArrangedOccur(ts, entries, t);
      var i :| 0 <= i < |ts| && ts[i] == t;
      FirstWithPresent(ts, i);
    }
  }

  /** What finding a code in the writer's output should answer. */
  function Expected(opts: seq<Opt>, code: byte): FindResult
    requires Sound(opts)
  {
    match FirstWith(TokensOf(opts), code) case Some(d) => Found(d) case None => Missing
  }

  lemma FindAfterWrite(opts: seq<Opt>, junk: seq<byte>, code: byte)
    requires Sound(opts) && CodesInRange(opts)
    ensures Lookup(Written(opts) + ([END] + junk), code) == Expected(opts, code)
  {
    WrittenIsRendered(opts);
    LookupRendered(TokensOf(opts), junk, code);
  }

  /** The writer accepts codes 0 and 255 as well. Its output reads back, for every code, exactly when none
      of the options uses them. */
  lemma RoundTripsExactlyInRange(opts: seq<Opt>, junk: seq<byte>)
    requires Sound(opts)
    ensures (forall c: byte :: Lookup(Written(opts) + ([END] + junk), c) == Expected(opts, c)) <==> CodesInRange(opts)
  {
    if CodesInRange(opts) {
      forall c: byte ensures Lookup(Written(opts) + ([END] + junk), c) == Expected(opts, c) {
        FindAfterWrite(opts, junk, c);
      }
    } else {
      var i :| 0 <= i < |opts| && !(PAD < opts[i].code < END);
      FirstWithPresent(TokensOf(opts), i);
      LookupRange(Written(opts) + ([END] + junk), opts[i].code);
      assert Lookup(Written(opts) + ([END] + junk), opts[i].code) != Expected(opts, opts[i].code);
    }
  }

  // ---- typed values ------------------------------------------------------------------------------

  /** `dmdhcp_option_addr_count` and `dmdhcp_option_get_addr_at` over the whole value: the complete
      four-byte groups, in order. */
  function Addresses(d: seq<byte>): (qs: seq<Quad>)
    ensures |qs| == |d| / 4
    ensures forall i | 0 <= i < |qs| :: qs[i] == d[4 * i..4 * i + 4]
  {
    seq(|d| / 4, i requires 0 <= i < |d| / 4 => d[4 * i..4 * i + 4])
  }

  function Flatten(qs: seq<Quad>): (d: seq<byte>)
    ensures |d| == 4 * |qs|
  {
    if qs == [] then [] else Flatten(qs[..|qs| - 1]) + qs[|qs| - 1]
  }

  lemma {:induction false} AddressesOfFlatten(qs: seq<Quad>)
    ensures Addresses(Flatten(qs)) == qs
  {
    if qs != [] {
      var n := |qs| - 1;
      AddressesOfFlatten(qs[..n]);
      var d, e := Flatten(qs), Flatten(qs[..n]);
      forall i | 0 <= i < |qs| ensures Addresses(d)[i] == qs[i] {
        if i < n {
          assert Addresses(e)[i] == qs[..n][i];
          assert d[4 * i..4 * i + 4] == e[4 * i..4 * i + 4];
        }
      }
    }
  }
}
