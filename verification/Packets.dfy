/** A captured packet: its direction, its canonical key and the cached text of that key. */
module Packets {
  import opened Text

  /** An address together with its family. */
  datatype Addr = A4(ip4: Ip4) | A6(ip6: Ip6)

  function AddrText(pr: Printer6, a: Addr): string {
    match a
    case A4(ip) => DottedQuad(ip)
    case A6(ip) => pr(ip)
  }

  lemma AddrTextShape(pr: Printer6, a: Addr)
    ensures '-' !in AddrText(pr, a)
    ensures a.A4? ==> ':' !in AddrText(pr, a)
    ensures a.A6? ==> Colons(AddrText(pr, a)) >= 2
  {
    match a
    case A4(ip) => DottedQuadChars(ip);
    case A6(ip) => assert Ip6Text(pr(ip));
  }

  lemma AddrTextInjective(pr: Printer6, a: Addr, b: Addr)
    requires AddrText(pr, a) == AddrText(pr, b)
    ensures a == b
  {
    AddrTextShape(pr, a);
    AddrTextShape(pr, b);
    if a.A4? && b.A4? {
      QuadTextInjective(a.ip4, b.ip4);
    }
  }

  // ---------- the addresses of the monitored devices ----------

  /** The address of one device. A device of another family has none. */
  datatype LocalAddr = NoAddr | Local(addr: Addr) {
    predicate Contains(a: Addr) { this == Local(a) }

    /** The stored text. An IPv4 text is printed into 15 bytes, terminator included, so one of
        15 characters does not fit and leaves the text empty. */
    function GetStr(pr: Printer6): string {
      match this
      case NoAddr => ""
      case Local(A4(ip)) => if |DottedQuad(ip)| < 15 then DottedQuad(ip) else ""
      case Local(A6(ip)) => pr(ip)
    }
  }

  predicate IsLocal(devices: seq<LocalAddr>, a: Addr) {
    Local(a) in devices
  }

  /** The search loop over the devices, for either family. */
  method ContainsAddr(devices: seq<LocalAddr>, a: Addr) returns (found: bool)
    ensures found <==> IsLocal(devices, a)
    ensures found <==> exists idx :: 0 <= idx < |devices| && devices[idx].Contains(a)
  {
    for idx := 0 to |devices|
      invariant Local(a) !in devices[..idx]
    {
      if devices[idx].Contains(a) {
        assert devices[idx] in devices;
        return true;
      }
    }
    return false;
  }

  // ---------- flows and keys ----------

  datatype Flow = Flow(src: Addr, sport: Port, dst: Addr, dport: Port)

  function Reply(f: Flow): Flow { Flow(f.dst, f.dport, f.src, f.sport) }

  /** `source-destination`, in the order of the packet. */
  function LinkText(pr: Printer6, f: Flow): (s: string)
    ensures s != ""
  {
    JoinKey(AddrText(pr, f.src), f.sport, AddrText(pr, f.dst), f.dport)
  }

  /** `local-remote`: the sender comes first exactly when the packet is outgoing. */
  function FlowKey(pr: Printer6, f: Flow, outgoing: bool): (s: string)
    ensures s != ""
  {
    if outgoing then LinkText(pr, f) else LinkText(pr, Reply(f))
  }

  /** The key under which a packet is looked up. */
  function PacketKey(pr: Printer6, devices: seq<LocalAddr>, f: Flow): (s: string)
    ensures s != ""
  {
    FlowKey(pr, f, IsLocal(devices, f.src))
  }

  lemma LinkTextInjective(pr: Printer6, f: Flow, g: Flow)
    requires LinkText(pr, f) == LinkText(pr, g)
    ensures f == g
  {
    AddrTextShape(pr, f.src);
    AddrTextShape(pr, f.dst);
    AddrTextShape(pr, g.src);
    AddrTextShape(pr, g.dst);
    JoinKeyUnique(AddrText(pr, f.src), f.sport, AddrText(pr, f.dst), f.dport,
                  AddrText(pr, g.src), g.sport, AddrText(pr, g.dst), g.dport);
    AddrTextInjective(pr, f.src, g.src);
    AddrTextInjective(pr, f.dst, g.dst);
  }

  /** A packet and its reply share a key exactly when one end is local and the other is not,
      or when both ends are the same. */
  lemma DirectionCanonical(pr: Printer6, devices: seq<LocalAddr>, f: Flow)
    ensures PacketKey(pr, devices, f) == PacketKey(pr, devices, Reply(f))
       <==> IsLocal(devices, f.src) != IsLocal(devices, f.dst) || (f.src == f.dst && f.sport == f.dport)
  {
    if PacketKey(pr, devices, f) == PacketKey(pr, devices, Reply(f)) && IsLocal(devices, f.src) == IsLocal(devices, f.dst) {
      LinkTextInjective(pr, f, Reply(f));
    }
  }

  /** Two flows share a key only if they are the same flow or each other's reply. */
  lemma KeyNamesConversation(pr: Printer6, devices: seq<LocalAddr>, f: Flow, g: Flow)
    requires PacketKey(pr, devices, f) == PacketKey(pr, devices, g)
    ensures f == g || f == Reply(g)
  {
    var f1 := if IsLocal(devices, f.src) then f else Reply(f);
    var g1 := if IsLocal(devices, g.src) then g else Reply(g);
    LinkTextInjective(pr, f1, g1);
  }

  // ---------- packets as values ----------

  datatype Dir = Unknown | Incoming | Outgoing

  datatype Pkt = Pkt(flow: Flow, dir: Dir, len: U32, cached: string)

  /** The answer of `IsOutgoing`. */
  predicate Outgoes(devices: seq<LocalAddr>, p: Pkt) {
    p.dir == Outgoing || (p.dir == Unknown && IsLocal(devices, p.flow.src))
  }

  /** The packet once its direction has been asked for. */
  function Resolve(devices: seq<LocalAddr>, p: Pkt): Pkt {
    p.(dir := if Outgoes(devices, p) then Outgoing else Incoming)
  }

  /** The key computed afresh from the current fields. */
  function Recompute(pr: Printer6, devices: seq<LocalAddr>, p: Pkt): string {
    FlowKey(pr, p.flow, Outgoes(devices, p))
  }

  function Hashed(pr: Printer6, devices: seq<LocalAddr>, p: Pkt): Pkt {
    if p.cached != "" then p
    else Resolve(devices, p).(cached := Recompute(pr, devices, p))
  }

  function Flip(d: Dir): Dir {
    match d case Incoming => Outgoing case Outgoing => Incoming case Unknown => Unknown
  }

  function Inverted(p: Pkt): Pkt { p.(dir := Flip(p.dir), flow := Reply(p.flow)) }

  /** The direction is settled and the cache holds what the fields say. */
  predicate Coherent(pr: Printer6, devices: seq<LocalAddr>, p: Pkt) {
    p.dir != Unknown && p.cached == Recompute(pr, devices, p)
  }

  datatype Call = CallInvert | CallIsOutgoing | CallHash | CallLink

  function Apply(pr: Printer6, devices: seq<LocalAddr>, call: Call, p: Pkt): Pkt {
    match call
    case CallInvert => Inverted(p)
    case CallIsOutgoing => Resolve(devices, p)
    case CallHash => Hashed(pr, devices, p)
    case CallLink => p
  }

  function ApplyAll(pr: Printer6, devices: seq<LocalAddr>, calls: seq<Call>, p: Pkt): Pkt
    decreases |calls|
  {
    if calls == [] then p
    else Apply(pr, devices, calls[|calls| - 1], ApplyAll(pr, devices, calls[..|calls| - 1], p))
  }

  function Inversions(calls: seq<Call>): nat {
    if calls == [] then 0
    else Inversions(calls[..|calls| - 1]) + (if calls[|calls| - 1] == CallInvert then 1 else 0)
  }

  /** An inverted packet is the reply in the other direction, under the same key. */
  lemma InvertMeans(pr: Printer6, devices: seq<LocalAddr>, p: Pkt)
    ensures var q := Inverted(p);
            && q.flow.src == p.flow.dst && q.flow.sport == p.flow.dport && q.flow.dst == p.flow.src && q.flow.dport == p.flow.sport
            && LinkText(pr, q.flow) == JoinKey(AddrText(pr, p.flow.dst), p.flow.dport, AddrText(pr, p.flow.src), p.flow.sport)
            && q.len == p.len && q.cached == p.cached
    ensures p.dir != Unknown ==>
              && Inverted(p).dir != Unknown && (Outgoes(devices, Inverted(p)) <==> !Outgoes(devices, p))
              && Recompute(pr, devices, Inverted(p)) == Recompute(pr, devices, p)
  {
    assert Reply(Reply(p.flow)) == p.flow;
  }

  lemma InvertTwice(p: Pkt)
    ensures Inverted(Inverted(p)) == p
  {
  }

  lemma CallKeepsCoherent(pr: Printer6, devices: seq<LocalAddr>, call: Call, p: Pkt)
    requires Coherent(pr, devices, p)
    ensures Apply(pr, devices, call, p) == if call == CallInvert then Inverted(p) else p
    ensures Coherent(pr, devices, Apply(pr, devices, call, p))
  {
    assert Reply(Reply(p.flow)) == p.flow;
  }

  lemma {:induction false} CallsOnlyInvert(pr: Printer6, devices: seq<LocalAddr>, calls: seq<Call>, p: Pkt)
    requires Coherent(pr, devices, p)
    ensures ApplyAll(pr, devices, calls, p) == if Inversions(calls) % 2 == 0 then p else Inverted(p)
    decreases |calls|
  {
    hide Recompute;
    if calls != [] {
      var before := calls[..|calls| - 1];
      CallsOnlyInvert(pr, devices, before, p);
      CallKeepsCoherent(pr, devices, CallInvert, p);
      CallKeepsCoherent(pr, devices, calls[|calls| - 1], ApplyAll(pr, devices, before, p));
      InvertTwice(p);
    }
  }

  /** Any sequence of calls keeps the cache right and the key unchanged, and the packet is
      the original or its inversion according to the parity of the inversions made. */
  lemma CacheStaysCoherent(pr: Printer6, devices: seq<LocalAddr>, calls: seq<Call>, p: Pkt)
    requires Coherent(pr, devices, p)
    ensures ApplyAll(pr, devices, calls, p) == if Inversions(calls) % 2 == 0 then p else Inverted(p)
    ensures Coherent(pr, devices, ApplyAll(pr, devices, calls, p))
    ensures ApplyAll(pr, devices, calls, p).cached == p.cached
  {
    CallsOnlyInvert(pr, devices, calls, p);
    CallKeepsCoherent(pr, devices, CallInvert, p);
  }

  /** `Init` settles a packet exactly when the packet is fresh, or it is told a direction and
      already caches the very key it should have: `Init` does not clear the cache. */
  lemma InitCoherentIff(pr: Printer6, devices: seq<LocalAddr>, p: Pkt)
    ensures Coherent(pr, devices, Hashed(pr, devices, p))
       <==> p.cached == "" || (p.dir != Unknown && p.cached == FlowKey(pr, p.flow, p.dir == Outgoing))
    ensures p.cached == "" && p.dir == Unknown ==>
              Hashed(pr, devices, p).cached == PacketKey(pr, devices, p.flow)
  {
  }

  // ---------- the packet object ----------

  datatype Family = AfUnspec | AfInet | AfInet6

  class CapPacket {
    var sip6: Ip6
    var dip6: Ip6
    var sip: Ip4
    var dip: Ip4
    var sport: Port
    var dport: Port
    var len: U32
    var dir: Dir
    var family: Family
    var hashstring: string

    ghost function View(): Pkt
      reads this
    {
      Pkt(if family == AfInet then Flow(A4(sip), sport, A4(dip), dport) else Flow(A6(sip6), sport, A6(dip6), dport),
          dir, len, hashstring)
    }

    /** A fresh packet: only the cached text has a value. */
    constructor ()
      ensures hashstring == ""
    {
      hashstring := "";
    }

    method Init4(pr: Printer6, devices: seq<LocalAddr>, isip: Ip4, isport: Port, idip: Ip4, idport: Port, ilen: U32, idir: Dir)
      modifies this
      ensures family == AfInet
      ensures View() == Hashed(pr, devices, Pkt(Flow(A4(isip), isport, A4(idip), idport), idir, ilen, old(hashstring)))
    {
      sip, sport, dip, dport, len, dir, family := isip, isport, idip, idport, ilen, idir, AfInet;
      var _ := Hash(pr, devices);
    }

    method Init6(pr: Printer6, devices: seq<LocalAddr>, isip: Ip6, isport: Port, idip: Ip6, idport: Port, ilen: U32, idir: Dir)
      modifies this
      ensures family == AfInet6
      ensures View() == Hashed(pr, devices, Pkt(Flow(A6(isip), isport, A6(idip), idport), idir, ilen, old(hashstring)))
    {
      sip6, sport, dip6, dport, len, dir, family := isip, isport, idip, idport, ilen, idir, AfInet6;
      var _ := Hash(pr, devices);
    }

    /** The endpoints change places only in a packet whose family has been set. */
    method Invert() returns (d: Dir)
      modifies this
      ensures d == dir && family == old(family)
      ensures View() == if family == AfUnspec then old(View()).(dir := Flip(old(dir))) else Inverted(old(View()))
    {
      if dir == Incoming {
        dir := Outgoing;
      } else if dir == Outgoing {
        dir := Incoming;
      }
      if family == AfInet {
        sip, dip := dip, sip;
        sport, dport := dport, sport;
      } else if family == AfInet6 {
        sip6, dip6 := dip6, sip6;
        sport, dport := dport, sport;
      }
      return dir;
    }

    method IsOutgoing(devices: seq<LocalAddr>) returns (b: bool)
      modifies this`dir
      ensures b == Outgoes(devices, old(View()))
      ensures View() == Resolve(devices, old(View()))
    {
      match dir
      case Outgoing => return true;
      case Incoming => return false;
      case Unknown =>
        var islocal;
        if family == AfInet {
          islocal := ContainsAddr(devices, A4(sip));
        } else {
          islocal := ContainsAddr(devices, A6(sip6));
        }
        if islocal {
          dir := Outgoing;
          return true;
        } else {
          dir := Incoming;
          return false;
        }
    }

    method Hash(pr: Printer6, devices: seq<LocalAddr>) returns (h: string)
      modifies this`dir, this`hashstring
      ensures h == hashstring
      ensures View() == Hashed(pr, devices, old(View()))
    {
      hide JoinKey, DottedQuad;
      if hashstring != "" {
        return hashstring;
      }
      var local, remote;
      if family == AfInet {
        local, remote := DottedQuad(sip), DottedQuad(dip);
      } else {
        local, remote := pr(sip6), pr(dip6);
      }
      ghost var f := View().flow;
      assert local == AddrText(pr, f.src) && remote == AddrText(pr, f.dst);
      var outgoing := IsOutgoing(devices);
      assert View().flow == f;
      if outgoing {
        hashstring := JoinKey(local, sport, remote, dport);
      } else {
        hashstring := JoinKey(remote, dport, local, sport);
      }
      return hashstring;
    }

    method Link(pr: Printer6) returns (linkName: string)
      ensures linkName == LinkText(pr, View().flow)
    {
      var local, remote;
      if family == AfInet {
        local, remote := DottedQuad(sip), DottedQuad(dip);
      } else {
        local, remote := pr(sip6), pr(dip6);
      }
      linkName := JoinKey(local, sport, remote, dport);
    }
  }
}
