/** From captured bytes to addresses and ports, through the context kept on the handle. */
module Frames {
  import opened Text
  import opened Packets

  const DLT_EN10MB := 1
  const DLT_RAW := 12
  const ETHERTYPE_IP := 0x0800
  const ETHERTYPE_IPV6 := 0x86DD
  const IPPROTO_TCP := 6
  const IPPROTO_UDP := 17

  /** A captured frame: the length in its header, and the memory behind its pointer. The
      decoder reads at fixed offsets and never looks at how much was captured. */
  datatype Frame = Frame(len: U32, mem: nat -> Byte)

  function QuadAt(f: Frame, at: nat): Quad { Quad(f.mem(at), f.mem(at + 1), f.mem(at + 2), f.mem(at + 3)) }

  function Ip6At(f: Frame, at: nat): Ip6 {
    Ip6(QuadAt(f, at), QuadAt(f, at + 4), QuadAt(f, at + 8), QuadAt(f, at + 12))
  }

  /** A 16-bit field in network order. */
  function Net16(f: Frame, at: nat): Port { 256 * f.mem(at) + f.mem(at + 1) }

  // ---------- the context of a handle ----------

  /** The family tag and the address union that it governs. */
  datatype PcapCtx = NoContext | Context4(src: Ip4, dst: Ip4) | Context6(src6: Ip6, dst6: Ip6)

  datatype HandleState = HandleState(link: int, ctx: PcapCtx)

  class CapHandle {
    var linktype: int
    var context: PcapCtx

    ghost function View(): HandleState
      reads this
    {
      HandleState(linktype, context)
    }

    constructor (link: int)
      ensures View() == HandleState(link, NoContext)
    {
      linktype, context := link, NoContext;
    }

    method SetContext4(src: Ip4, dest: Ip4)
      modifies this`context
      ensures context == Context4(src, dest)
    {
      context := Context4(src, dest);
    }

    method SetContext6(src: Ip6, dest: Ip6)
      modifies this`context
      ensures context == Context6(src, dest)
    {
      context := Context6(src, dest);
    }
  }

  // ---------- decoding ----------

  /** Where a frame leads: the addresses to set, the protocol number, the payload offset. */
  datatype Route = Unrouted | Routed(ctx: PcapCtx, proto: Byte, payload: nat)

  function Ip4Route(f: Frame, at: nat): (r: Route)
    ensures r.Routed?
  {
    Routed(Context4(QuadAt(f, at + 12), QuadAt(f, at + 16)), f.mem(at + 9), at + 20)
  }

  function Ip6Route(f: Frame, at: nat): (r: Route)
    ensures r.Routed?
  {
    Routed(Context6(Ip6At(f, at + 8), Ip6At(f, at + 24)), f.mem(at + 6), at + 40)
  }

  function RouteOf(link: int, f: Frame): Route {
    if link == DLT_EN10MB then
      if Net16(f, 12) == ETHERTYPE_IP then Ip4Route(f, 14)
      else if Net16(f, 12) == ETHERTYPE_IPV6 then Ip6Route(f, 14)
      else Unrouted
    else if link == DLT_RAW && f.len >= 1 then
      if f.mem(0) / 16 == 4 then Ip4Route(f, 0)
      else if f.mem(0) / 16 == 6 then Ip6Route(f, 0)
      else Unrouted
    else Unrouted
  }

  datatype Kind = Tcp | Udp

  function KindOf(proto: Byte): Option<Kind> {
    if proto == IPPROTO_TCP then Some(Tcp) else if proto == IPPROTO_UDP then Some(Udp) else None
  }

  function ProtoOf(kind: Kind): Byte { if kind == Tcp then IPPROTO_TCP else IPPROTO_UDP }

  /** A call of the packet handlers, with the context it sees. */
  datatype Handling = Handling(kind: Kind, ctx: PcapCtx, sport: Port, dport: Port, len: U32)

  function HandlingAt(kind: Kind, ctx: PcapCtx, f: Frame, at: nat): Handling {
    Handling(kind, ctx, Net16(f, at), Net16(f, at + 2), f.len)
  }

  /** The call that a frame by itself should cause. */
  function HandlingOf(link: int, f: Frame): Option<Handling> {
    match RouteOf(link, f)
    case Unrouted => None
    case Routed(ctx, proto, at) =>
      var kind :- KindOf(proto);
      Some(HandlingAt(kind, ctx, f, at))
  }

  /** The frame has an IP header whose protocol number is `p`, as its link type, its Ethernet type or
      the first half of its first byte, and the byte at a fixed offset say. */
  predicate Carries(link: int, f: Frame, p: int) {
    || (link == 1 && 256 * f.mem(12) + f.mem(13) == 0x0800 && f.mem(23) == p)
    || (link == 1 && 256 * f.mem(12) + f.mem(13) == 0x86DD && f.mem(20) == p)
    || (link == 12 && f.len >= 1 && 0x40 <= f.mem(0) < 0x50 && f.mem(9) == p)
    || (link == 12 && f.len >= 1 && 0x60 <= f.mem(0) < 0x70 && f.mem(6) == p)
  }

  /** A frame, whatever its bytes, causes a call exactly if it carries protocol 6 or 17, and then it
      is a TCP call for 6 and a UDP call for 17, with the frame's length. */
  lemma CallIff(link: int, f: Frame)
    ensures HandlingOf(link, f).Some? <==> Carries(link, f, 6) || Carries(link, f, 17)
    ensures HandlingOf(link, f).Some? ==> (HandlingOf(link, f).value.kind == Tcp <==> Carries(link, f, 6))
    ensures HandlingOf(link, f).Some? ==> HandlingOf(link, f).value.len == f.len
  {
  }

  /** The addresses that the frame's bytes at these places spell. */
  predicate Spells4(f: Frame, at: nat, ctx: PcapCtx) {
    && ctx.Context4?
    && ctx.src == Quad(f.mem(at), f.mem(at + 1), f.mem(at + 2), f.mem(at + 3))
    && ctx.dst == Quad(f.mem(at + 4), f.mem(at + 5), f.mem(at + 6), f.mem(at + 7))
  }

  predicate SpellsQuad(f: Frame, at: nat, q: Quad) {
    q == Quad(f.mem(at), f.mem(at + 1), f.mem(at + 2), f.mem(at + 3))
  }

  predicate Spells6(f: Frame, at: nat, ctx: PcapCtx) {
    && ctx.Context6?
    && SpellsQuad(f, at, ctx.src6.q0) && SpellsQuad(f, at + 4, ctx.src6.q1)
    && SpellsQuad(f, at + 8, ctx.src6.q2) && SpellsQuad(f, at + 12, ctx.src6.q3)
    && SpellsQuad(f, at + 16, ctx.dst6.q0) && SpellsQuad(f, at + 20, ctx.dst6.q1)
    && SpellsQuad(f, at + 24, ctx.dst6.q2) && SpellsQuad(f, at + 28, ctx.dst6.q3)
  }

  predicate SpellsPorts(f: Frame, at: nat, h: Handling) {
    h.sport == 256 * f.mem(at) + f.mem(at + 1) && h.dport == 256 * f.mem(at + 2) + f.mem(at + 3)
  }

  /** A call has the addresses and ports at fixed places of its frame, whatever else is in it. */
  lemma CallReads(link: int, f: Frame)
    requires HandlingOf(link, f).Some?
    ensures var h := HandlingOf(link, f).value;
            && (link == 1 && Net16(f, 12) == 0x0800 ==> Spells4(f, 26, h.ctx) && SpellsPorts(f, 34, h))
            && (link == 1 && Net16(f, 12) == 0x86DD ==> Spells6(f, 22, h.ctx) && SpellsPorts(f, 54, h))
            && (link == 12 && f.mem(0) < 0x50 ==> Spells4(f, 12, h.ctx) && SpellsPorts(f, 20, h))
            && (link == 12 && f.mem(0) >= 0x60 ==> Spells6(f, 8, h.ctx) && SpellsPorts(f, 40, h))
  {
  }

  /** Any IP frame leaves its addresses in the context, also one of another protocol; other frames
      leave the context alone. */
  lemma ContextReads(h: HandleState, f: Frame)
    ensures var ctx := ContextAfter(h, f);
            if h.link == 1 && Net16(f, 12) == 0x0800 then Spells4(f, 26, ctx)
            else if h.link == 1 && Net16(f, 12) == 0x86DD then Spells6(f, 22, ctx)
            else if h.link == 12 && f.len >= 1 && 0x40 <= f.mem(0) < 0x50 then Spells4(f, 12, ctx)
            else if h.link == 12 && f.len >= 1 && 0x60 <= f.mem(0) < 0x70 then Spells6(f, 8, ctx)
            else ctx == h.ctx
  {
  }

  /** The context of a handle after a frame: any IP frame sets it, even one of another protocol. */
  function ContextAfter(h: HandleState, f: Frame): PcapCtx {
    match RouteOf(h.link, f) case Unrouted => h.ctx case Routed(ctx, _, _) => ctx
  }

  function FlowOf(ctx: PcapCtx, sport: Port, dport: Port): Option<Flow> {
    match ctx
    case NoContext => None
    case Context4(s, d) => Some(Flow(A4(s), sport, A4(d), dport))
    case Context6(s, d) => Some(Flow(A6(s), sport, A6(d), dport))
  }

  // ---------- building ----------

  function QuadBytes(q: Quad): (s: seq<Byte>)
    ensures |s| == 4
  {
    [q.b0, q.b1, q.b2, q.b3]
  }

  function Ip6Bytes(a: Ip6): (s: seq<Byte>)
    ensures |s| == 16
  {
    QuadBytes(a.q0) + QuadBytes(a.q1) + QuadBytes(a.q2) + QuadBytes(a.q3)
  }

  function NetBytes(p: Port): (s: seq<Byte>)
    ensures |s| == 2
  {
    [p / 256, p % 256]
  }

  type Bytes1 = s: seq<Byte> | |s| == 1 witness [0]
  type Bytes2 = s: seq<Byte> | |s| == 2 witness [0, 0]
  type Bytes5 = s: seq<Byte> | |s| == 5 witness [0, 0, 0, 0, 0]
  type Bytes8 = s: seq<Byte> | |s| == 8 witness [0, 0, 0, 0, 0, 0, 0, 0]
  type Bytes12 = s: seq<Byte> | |s| == 12 witness [0, 0, 0, 0, 0, 0, 0, 0, 0, 0, 0, 0]

  /** The options of an IPv4 header: whole 32-bit words, at most ten. */
  type Options4 = s: seq<Byte> | |s| % 4 == 0 && |s| <= 40 witness []

  /** An IPv4 header (section 3.1 of RFC 791): `mid` is everything from the type of service to
      the time to live, `sum` the checksum. */
  function Header4(mid: Bytes8, proto: Byte, sum: Bytes2, src: Ip4, dst: Ip4, options: Options4): seq<Byte> {
    [(0x45 + |options| / 4) as Byte] + mid + [proto] + sum + QuadBytes(src) + QuadBytes(dst) + options
  }

  /** An IPv6 header without extension headers (section 3 of RFC 8200): `mid` is the rest of the
      traffic class and flow label and the payload length. */
  function Header6(tclass: int, mid: Bytes5, next: Byte, hop: Bytes1, src: Ip6, dst: Ip6): seq<Byte>
    requires 0 <= tclass < 16
  {
    [(0x60 + tclass) as Byte] + mid + [next] + hop + Ip6Bytes(src) + Ip6Bytes(dst)
  }

  /** A TCP or UDP segment: both begin with the two ports. */
  function Segment(sport: Port, dport: Port, rest: seq<Byte>): (s: seq<Byte>)
    ensures |s| == 4 + |rest|
  {
    NetBytes(sport) + NetBytes(dport) + rest
  }

  function Ethernet(macs: Bytes12, etype: Port): (s: seq<Byte>)
    ensures |s| == 14
  {
    macs + NetBytes(etype)
  }

  /** The frame's memory holds these bytes from `at` on. */
  ghost predicate Holds(f: Frame, at: nat, bytes: seq<Byte>) {
    forall i :: 0 <= i < |bytes| ==> f.mem(at + i) == bytes[i]
  }

  lemma HoldsParts(f: Frame, at: nat, a: seq<Byte>, b: seq<Byte>)
    requires Holds(f, at, a + b)
    ensures Holds(f, at, a) && Holds(f, at + |a|, b)
  {
    assert forall i :: 0 <= i < |a| ==> (a + b)[i] == a[i];
    forall i | 0 <= i < |b| ensures f.mem(at + |a| + i) == b[i] {
      assert (a + b)[|a| + i] == b[i];
    }
  }

  lemma QuadReads(f: Frame, at: nat, q: Quad)
    requires Holds(f, at, QuadBytes(q))
    ensures QuadAt(f, at) == q
  {
    var s := QuadBytes(q);
    assert f.mem(at + 0) == s[0] && f.mem(at + 1) == s[1] && f.mem(at + 2) == s[2] && f.mem(at + 3) == s[3];
  }

  lemma Ip6Reads(f: Frame, at: nat, a: Ip6)
    requires Holds(f, at, Ip6Bytes(a))
    ensures Ip6At(f, at) == a
  {
    HoldsParts(f, at, QuadBytes(a.q0) + QuadBytes(a.q1) + QuadBytes(a.q2), QuadBytes(a.q3));
    HoldsParts(f, at, QuadBytes(a.q0) + QuadBytes(a.q1), QuadBytes(a.q2));
    HoldsParts(f, at, QuadBytes(a.q0), QuadBytes(a.q1));
    QuadReads(f, at, a.q0);
    QuadReads(f, at + 4, a.q1);
    QuadReads(f, at + 8, a.q2);
    QuadReads(f, at + 12, a.q3);
  }

  lemma Net16Reads(f: Frame, at: nat, p: Port)
    requires Holds(f, at, NetBytes(p))
    ensures Net16(f, at) == p
  {
    var s := NetBytes(p);
    assert f.mem(at + 0) == s[0] && f.mem(at + 1) == s[1];
  }

  lemma SegmentReads(f: Frame, at: nat, sport: Port, dport: Port, rest: seq<Byte>)
    requires Holds(f, at, Segment(sport, dport, rest))
    ensures Net16(f, at) == sport && Net16(f, at + 2) == dport
  {
    HoldsParts(f, at, NetBytes(sport) + NetBytes(dport), rest);
    HoldsParts(f, at, NetBytes(sport), NetBytes(dport));
    Net16Reads(f, at, sport);
    Net16Reads(f, at + 2, dport);
  }

  lemma Header4Reads(f: Frame, at: nat, mid: Bytes8, proto: Byte, sum: Bytes2, src: Ip4, dst: Ip4, options: Options4)
    requires Holds(f, at, Header4(mid, proto, sum, src, dst, options))
    ensures f.mem(at) / 16 == 4
    ensures Ip4Route(f, at) == Routed(Context4(src, dst), proto, at + 20)
  {
    var first := [(0x45 + |options| / 4) as Byte];
    HoldsParts(f, at, first + mid + [proto] + sum + QuadBytes(src) + QuadBytes(dst), options);
    HoldsParts(f, at, first + mid + [proto] + sum + QuadBytes(src), QuadBytes(dst));
    HoldsParts(f, at, first + mid + [proto] + sum, QuadBytes(src));
    HoldsParts(f, at, first + mid + [proto], sum);
    HoldsParts(f, at, first + mid, [proto]);
    HoldsParts(f, at, first, mid);
    assert f.mem(at + 0) == first[0];
    assert f.mem(at + 9 + 0) == [proto][0];
    QuadReads(f, at + 12, src);
    QuadReads(f, at + 16, dst);
  }

  lemma Header6Reads(f: Frame, at: nat, tclass: int, mid: Bytes5, next: Byte, hop: Bytes1, src: Ip6, dst: Ip6)
    requires 0 <= tclass < 16
    requires Holds(f, at, Header6(tclass, mid, next, hop, src, dst))
    ensures f.mem(at) / 16 == 6
    ensures Ip6Route(f, at) == Routed(Context6(src, dst), next, at + 40)
  {
    hide Ip6Bytes, Ip6At, Holds;
    var first := [(0x60 + tclass) as Byte];
    HoldsParts(f, at, first + mid + [next] + hop + Ip6Bytes(src), Ip6Bytes(dst));
    HoldsParts(f, at, first + mid + [next] + hop, Ip6Bytes(src));
    HoldsParts(f, at, first + mid + [next], hop);
    HoldsParts(f, at, first + mid, [next]);
    HoldsParts(f, at, first, mid);
    assert f.mem(at + 0) == first[0];
    assert f.mem(at + 6 + 0) == [next][0];
    Ip6Reads(f, at + 8, src);
    Ip6Reads(f, at + 24, dst);
  }

  lemma EthernetReads(f: Frame, macs: Bytes12, etype: Port, rest: seq<Byte>)
    requires Holds(f, 0, Ethernet(macs, etype) + rest)
    ensures Net16(f, 12) == etype && Holds(f, 14, rest)
  {
    HoldsParts(f, 0, Ethernet(macs, etype), rest);
    HoldsParts(f, 0, macs, NetBytes(etype));
    Net16Reads(f, 12, etype);
  }

  /** The bytes that a frame carries before its IP header, by link type. */
  function LinkHeader(link: int, macs: Bytes12, etype: Port): seq<Byte> {
    if link == DLT_EN10MB then Ethernet(macs, etype) else []
  }

  /** The reads of a decoder start behind the link header. */
  lemma LinkReads(link: int, f: Frame, macs: Bytes12, etype: Port, rest: seq<Byte>)
    requires link == DLT_EN10MB || link == DLT_RAW
    requires Holds(f, 0, LinkHeader(link, macs, etype) + rest)
    ensures Holds(f, if link == DLT_EN10MB then 14 else 0, rest)
    ensures link == DLT_EN10MB ==> Net16(f, 12) == etype
  {
    if link == DLT_EN10MB {
      EthernetReads(f, macs, etype, rest);
    } else {
      assert [] + rest == rest;
    }
  }

  /** Decoding a built IPv4 frame gives its addresses; the ports come from the 20th byte on,
      which is where the segment starts when there are no options. */
  lemma Decode4(link: int, f: Frame, macs: Bytes12, mid: Bytes8, kind: Kind, sum: Bytes2, src: Ip4, dst: Ip4,
                options: Options4, segment: seq<Byte>)
    requires link == DLT_EN10MB || (link == DLT_RAW && f.len >= 1)
    requires Holds(f, 0, LinkHeader(link, macs, ETHERTYPE_IP) + (Header4(mid, ProtoOf(kind), sum, src, dst, options) + segment))
    ensures var at := if link == DLT_EN10MB then 34 else 20;
            && HandlingOf(link, f) == Some(Handling(kind, Context4(src, dst), Net16(f, at), Net16(f, at + 2), f.len))
            && Holds(f, at, options + segment)
  {
    var at := if link == DLT_EN10MB then 14 else 0;
    var whole := Header4(mid, ProtoOf(kind), sum, src, dst, options);
    LinkReads(link, f, macs, ETHERTYPE_IP, whole + segment);
    HoldsParts(f, at, whole, segment);
    Header4Reads(f, at, mid, ProtoOf(kind), sum, src, dst, options);
    var fixed := whole[..20];
    assert whole == fixed + options;
    assert whole + segment == fixed + (options + segment);
    HoldsParts(f, at, fixed, options + segment);
  }

  /** With header length 5, decoding inverts building, on both link types. */
  lemma DecodeInvertsBuild4(link: int, f: Frame, macs: Bytes12, mid: Bytes8, kind: Kind, sum: Bytes2, src: Ip4, dst: Ip4,
                            sport: Port, dport: Port, rest: seq<Byte>)
    requires link == DLT_EN10MB || (link == DLT_RAW && f.len >= 1)
    requires Holds(f, 0, LinkHeader(link, macs, ETHERTYPE_IP)
                         + (Header4(mid, ProtoOf(kind), sum, src, dst, []) + Segment(sport, dport, rest)))
    ensures HandlingOf(link, f) == Some(Handling(kind, Context4(src, dst), sport, dport, f.len))
  {
    Decode4(link, f, macs, mid, kind, sum, src, dst, [], Segment(sport, dport, rest));
    assert [] + Segment(sport, dport, rest) == Segment(sport, dport, rest);
    SegmentReads(f, if link == DLT_EN10MB then 34 else 20, sport, dport, rest);
  }

  /** With options, the ports are right exactly when the first option word spells them. */
  lemma OptionsHidePorts(link: int, f: Frame, macs: Bytes12, mid: Bytes8, kind: Kind, sum: Bytes2, src: Ip4, dst: Ip4,
                         options: Options4, sport: Port, dport: Port, rest: seq<Byte>)
    requires link == DLT_EN10MB || (link == DLT_RAW && f.len >= 1)
    requires options != []
    requires Holds(f, 0, LinkHeader(link, macs, ETHERTYPE_IP)
                         + (Header4(mid, ProtoOf(kind), sum, src, dst, options) + Segment(sport, dport, rest)))
    ensures HandlingOf(link, f) == Some(Handling(kind, Context4(src, dst), sport, dport, f.len))
       <==> options[..4] == NetBytes(sport) + NetBytes(dport)
  {
    Decode4(link, f, macs, mid, kind, sum, src, dst, options, Segment(sport, dport, rest));
    var at := if link == DLT_EN10MB then 34 else 20;
    HoldsParts(f, at, options, Segment(sport, dport, rest));
    assert f.mem(at + 0) == options[0] && f.mem(at + 1) == options[1] && f.mem(at + 2) == options[2] && f.mem(at + 3) == options[3];
    Net16Is(options[0], options[1], sport);
    Net16Is(options[2], options[3], dport);
    assert options[..4] == [options[0], options[1], options[2], options[3]];
  }

  lemma Net16Is(hi: Byte, lo: Byte, p: Port)
    ensures 256 * hi + lo == p <==> [hi, lo] == NetBytes(p)
  {
  }

  lemma DecodeInvertsBuild6(link: int, f: Frame, macs: Bytes12, tclass: int, mid: Bytes5, kind: Kind, hop: Bytes1, src: Ip6, dst: Ip6,
                            sport: Port, dport: Port, rest: seq<Byte>)
    requires link == DLT_EN10MB || (link == DLT_RAW && f.len >= 1)
    requires 0 <= tclass < 16
    requires Holds(f, 0, LinkHeader(link, macs, ETHERTYPE_IPV6)
                         + (Header6(tclass, mid, ProtoOf(kind), hop, src, dst) + Segment(sport, dport, rest)))
    ensures HandlingOf(link, f) == Some(Handling(kind, Context6(src, dst), sport, dport, f.len))
  {
    hide Segment, Ip6Route, Ip6Bytes, Holds;
    var head := Header6(tclass, mid, ProtoOf(kind), hop, src, dst);
    var at := if link == DLT_EN10MB then 14 else 0;
    LinkReads(link, f, macs, ETHERTYPE_IPV6, head + Segment(sport, dport, rest));
    HoldsParts(f, at, head, Segment(sport, dport, rest));
    Header6Reads(f, at, tclass, mid, ProtoOf(kind), hop, src, dst);
    SegmentReads(f, at + 40, sport, dport, rest);
  }

  /** On the same IP bytes the two link types lead to the same call, provided the Ethernet type
      announces the version that the first byte states. */
  lemma LinkTypesAgree(e: Frame, r: Frame)
    requires e.len == r.len >= 1
    requires forall i: nat :: e.mem(14 + i) == r.mem(i)
    requires (Net16(e, 12) == ETHERTYPE_IP <==> r.mem(0) / 16 == 4)
          && (Net16(e, 12) == ETHERTYPE_IPV6 <==> r.mem(0) / 16 == 6)
    ensures HandlingOf(DLT_EN10MB, e) == HandlingOf(DLT_RAW, r)
  {
    SamePorts(e, r);
    SameRoutes(e, r);
  }

  lemma SamePorts(e: Frame, r: Frame)
    requires forall i: nat :: e.mem(14 + i) == r.mem(i)
    ensures Net16(e, 34) == Net16(r, 20) && Net16(e, 36) == Net16(r, 22)
    ensures Net16(e, 54) == Net16(r, 40) && Net16(e, 56) == Net16(r, 42)
  {
    assert e.mem(14 + 20) == r.mem(20) && e.mem(14 + 21) == r.mem(21) && e.mem(14 + 22) == r.mem(22) && e.mem(14 + 23) == r.mem(23);
    assert e.mem(14 + 40) == r.mem(40) && e.mem(14 + 41) == r.mem(41) && e.mem(14 + 42) == r.mem(42) && e.mem(14 + 43) == r.mem(43);
  }

  lemma SameQuad(e: Frame, r: Frame, at: nat)
    requires forall i: nat :: e.mem(14 + i) == r.mem(i)
    ensures QuadAt(e, 14 + at) == QuadAt(r, at)
  {
    assert e.mem(14 + at) == r.mem(at) && e.mem(14 + (at + 1)) == r.mem(at + 1);
    assert e.mem(14 + (at + 2)) == r.mem(at + 2) && e.mem(14 + (at + 3)) == r.mem(at + 3);
  }

  lemma SameRoutes(e: Frame, r: Frame)
    requires forall i: nat :: e.mem(14 + i) == r.mem(i)
    ensures Ip4Route(e, 14) == Routed(Ip4Route(r, 0).ctx, Ip4Route(r, 0).proto, 34)
    ensures Ip6Route(e, 14) == Routed(Ip6Route(r, 0).ctx, Ip6Route(r, 0).proto, 54)
  {
    assert e.mem(14 + 9) == r.mem(9) && e.mem(14 + 6) == r.mem(6);
    SameQuad(e, r, 8);
    SameQuad(e, r, 12);
    SameQuad(e, r, 16);
    SameQuad(e, r, 20);
    SameQuad(e, r, 24);
    SameQuad(e, r, 28);
    SameQuad(e, r, 32);
    SameQuad(e, r, 36);
  }
}
