/** The monitor object: `Init`, `Update` and the packet handlers, each proved to do to its state
    what the functions of module Monitor say. */
module Capture {
  import opened Text
  import opened Ordered
  import opened Errors
  import opened Packets
  import opened InodeIndex
  import opened Processes
  import opened Frames
  import opened Reconcile
  import opened Monitor
  import opened Merge

  ghost function HandleViews(hs: seq<CapHandle>): (r: seq<HandleState>)
    reads hs
    ensures |r| == |hs|
    ensures forall i :: 0 <= i < |hs| ==> r[i] == hs[i].View()
  {
    seq(|hs|, i requires 0 <= i < |hs| reads hs => hs[i].View())
  }

  lemma Associate<T>(a: seq<T>, b: seq<T>, c: seq<T>)
    ensures a + b + c == a + (b + c)
  {
  }

  lemma OverwriteNext<T>(rows: seq<T>, buffer: seq<T>, i: nat)
    requires i < |rows| && i < |buffer|
    ensures (rows[..i] + buffer[i..])[i := rows[i]] == rows[..i + 1] + buffer[i + 1..]
  {
  }

  lemma OverwriteEnds<T>(rows: seq<T>, buffer: seq<T>, i: nat)
    requires i == if |rows| < |buffer| then |rows| else |buffer|
    ensures |rows[..i] + buffer[i..]| == |buffer|
    ensures |rows| <= |buffer| ==> rows[..i] + buffer[i..] == Overwrite(buffer, rows)
    ensures |rows| > |buffer| ==> rows[..i] + buffer[i..] == rows[..i] && Overwrite(buffer, rows) == rows
  {
  }

  lemma Listed(ps: seq<int>, i: nat)
    requires i < |ps|
    ensures Elements(ps[..i + 1]) == Elements(ps[..i]) + {ps[i]}
    ensures Additions(ps[..i + 1]) == Additions(ps[..i]) + [Added(ps[i])]
  {
    assert ps[..i + 1] == ps[..i] + [ps[i]];
    assert ps[..i + 1][..i] == ps[..i];
  }

  lemma NoneListed(procs: map<int, Proc>, life: seq<Life>, memory: U64, deltaCpu: U64, parsed: int -> ProcRead)
    ensures procs + BornAll(Elements([]), memory, deltaCpu, parsed) == procs && life + Additions([]) == life
  {
  }

  class CaptureCxx {
    const ntop6: Printer6
    const helper: CapInodeHelper
    var devices: seq<LocalAddr>
    var handles: seq<CapHandle>
    var pids: set<int>
    var processes: map<int, CapProcess>
    var processCallback: bool
    var packetCallback: bool
    var processData: seq<ProcessRow>
    var packetData: seq<PacketRow>
    var packetIdx: nat
    var memory: U64
    var cpu: U64
    var deltaCpu: U64
    ghost var repr: set<CapProcess>
    ghost var life: seq<Life>
    ghost var calls: seq<Handling>
    ghost var callbacks: seq<Callback>

    /** Every entry holds a process object of its own that bears its pid. */
    ghost predicate Filed()
      reads this`processes, this`repr, repr
    {
      forall k :: k in processes ==> processes[k] in repr && processes[k].pid == k
    }

    /** The entries are in order, and no handle is listed twice. */
    ghost predicate Valid()
      reads this`processes, this`repr, this`handles, repr
    {
      Filed() && forall i, j :: 0 <= i < j < |handles| ==> handles[i] != handles[j]
    }

    ghost function Tracked(): map<int, Proc>
      requires Filed()
      reads this`processes, this`repr, repr
    {
      map k | k in processes :: processes[k].View()
    }

    lemma TrackedKeys()
      requires Filed()
      ensures Tracked().Keys == processes.Keys && |Tracked()| == |processes|
    {
      assert Tracked().Keys == processes.Keys;
    }

    ghost function BooksView(): Books
      requires Filed()
      reads this`processes, this`repr, this`packetData, this`packetIdx, this`life, this`calls, repr
    {
      Books(Tracked(), packetData, packetIdx, life, calls)
    }

    ghost function DeskView(): Desk
      reads this`devices, this`memory, this`deltaCpu, this`packetCallback, helper
    {
      Desk(devices, helper.View(), memory, deltaCpu, packetCallback)
    }

    ghost function Abs(): State
      requires Valid()
      reads this, helper, handles, repr
    {
      State(Config(devices, processCallback, packetCallback, memory), HandleViews(handles), pids, helper.View(),
            Meter(cpu, deltaCpu), BooksView(), processData, callbacks)
    }

    constructor (pr: Printer6)
      ensures Valid() && Abs() == FRESH
      ensures ntop6 == pr && fresh(helper) && handles == [] && repr == {}
    {
      ntop6 := pr;
      helper := new CapInodeHelper();
      devices, handles, pids, processes := [], [], {}, map[];
      repr := {};
      processCallback, packetCallback := false, false;
      processData, packetData, packetIdx := [], [], 0;
      memory, cpu, deltaCpu := 0, 0, 0;
      life, calls, callbacks := [], [], [];
    }

    // ---------- packets ----------

    /** Builds the packet that the context and the ports describe. */
    method MakePacket(context: PcapCtx, sport: Port, dport: Port, len: U32) returns (cap: CapPacket?)
      ensures cap == null <==> context == NoContext
      ensures cap != null ==> fresh(cap)
      ensures cap != null ==>
                var f := FlowOf(context, sport, dport).value;
                cap.View() == Pkt(f, if IsLocal(devices, f.src) then Outgoing else Incoming, len, PacketKey(ntop6, devices, f))
    {
      match context
      case Context4(src, dst) =>
        cap := new CapPacket();
        cap.Init4(ntop6, devices, src, sport, dst, dport, len, Unknown);
      case Context6(src, dst) =>
        cap := new CapPacket();
        cap.Init6(ntop6, devices, src, sport, dst, dport, len, Unknown);
      case NoContext =>
        return null;
    }

    /** A process that is not tracked yet, with its first packet. */
    method MakeProcess(cap: CapPacket, pid: int, read: ProcRead) returns (ptr: CapProcess)
      modifies cap`dir
      ensures fresh(ptr)
      ensures ptr.View() == Credit(Born(pid, memory, deltaCpu, read), Outgoes(devices, old(cap.View())), cap.len)
      ensures cap.View() == Resolve(devices, old(cap.View()))
    {
      hide ParseProc, Credit, ParseTells, IsPercent;
      ptr := new CapProcess(pid);
      var _ := ptr.Parse(memory, deltaCpu, read);
      ptr.AddPacket(devices, cap);
    }

    /** Files a new process object under its pid. */
    method Insert(pid: int, ptr: CapProcess)
      requires Valid()
      requires ptr.pid == pid && ptr !in repr
      modifies this`processes, this`repr, this`life
      ensures Valid() && repr == old(repr) + {ptr}
      ensures life == old(life) + [Added(pid)]
      ensures Tracked() == old(Tracked())[pid := ptr.View()]
    {
      processes, repr, life := processes[pid := ptr], repr + {ptr}, life + [Added(pid)];
    }

    /** Credits the packet to a tracked process. */
    method AddToTracked(cap: CapPacket, pid: int)
      requires Valid() && pid in processes
      modifies repr, cap`dir
      ensures Valid()
      ensures Tracked() == old(Tracked())[pid := Credit(old(Tracked())[pid], Outgoes(devices, old(cap.View())), cap.len)]
      ensures cap.View() == Resolve(devices, old(cap.View()))
    {
      var p := processes[pid];
      assert forall k :: k in processes && k != pid ==> processes[k] != p;
      p.AddPacket(devices, cap);
    }

    /** Credits the packet to its process, which is created first if it is not tracked. */
    method AddToProcess(cap: CapPacket, pid: int, created: int -> ProcRead)
      requires Valid() && cap.dir != Unknown
      modifies this`processes, this`repr, this`life, repr, cap`dir
      ensures Valid() && fresh(repr - old(repr))
      ensures Tracked() == old(Tracked())[pid :=
                Credit(EntryFor(old(Tracked()), memory, deltaCpu, created, pid), old(cap.dir) == Outgoing, cap.len)]
      ensures life == if pid in old(processes) then old(life) else old(life) + [Added(pid)]
    {
      if pid !in processes {
        var ptr := MakeProcess(cap, pid, created(pid));
        BornPid(pid, memory, deltaCpu, created(pid));
        Insert(pid, ptr);
      } else {
        AddToTracked(cap, pid);
      }
    }

    /** Writes the packet's row into the next slot; a slot that is reused is marked TCP by both handlers. */
    method FilePacket(link: string, len: U32, kind: Kind)
      modifies this`packetData, this`packetIdx
      ensures packetIdx == old(packetIdx) + 1
      ensures packetData == FileRow(old(packetData), old(packetIdx), kind, link, len)
    {
      if packetIdx < |packetData| {
        packetData := packetData[packetIdx := PacketRow(Field(link, 127), Tcp, len)];
        packetIdx := packetIdx + 1;
      } else {
        packetData := packetData + [PacketRow(Field(link, 127), kind, len)];
        packetIdx := packetIdx + 1;
      }
    }

    method ProcessTcp(context: PcapCtx, f: Frame, at: nat, created: int -> ProcRead) returns (ret: int)
      requires Valid()
      modifies this`processes, this`repr, this`life, this`calls, this`packetData, this`packetIdx, repr
      ensures Valid() && fresh(repr - old(repr))
      ensures BooksView() == Deliver(ntop6, DeskView(), old(BooksView()), created, HandlingAt(Tcp, context, f, at))
      ensures ret == HandleCode(ntop6, devices, helper.View(), HandlingAt(Tcp, context, f, at))
    {
      ret := Process(context, f, at, created, Tcp);
    }

    /** As for TCP, except that a new slot is marked UDP. */
    method ProcessUdp(context: PcapCtx, f: Frame, at: nat, created: int -> ProcRead) returns (ret: int)
      requires Valid()
      modifies this`processes, this`repr, this`life, this`calls, this`packetData, this`packetIdx, repr
      ensures Valid() && fresh(repr - old(repr))
      ensures BooksView() == Deliver(ntop6, DeskView(), old(BooksView()), created, HandlingAt(Udp, context, f, at))
      ensures ret == HandleCode(ntop6, devices, helper.View(), HandlingAt(Udp, context, f, at))
    {
      ret := Process(context, f, at, created, Udp);
    }

    /** The common text of the two handlers. */
    method Process(context: PcapCtx, f: Frame, at: nat, created: int -> ProcRead, kind: Kind) returns (ret: int)
      requires Valid()
      modifies this`processes, this`repr, this`life, this`calls, this`packetData, this`packetIdx, repr
      ensures Valid() && fresh(repr - old(repr))
      ensures BooksView() == Deliver(ntop6, DeskView(), old(BooksView()), created, HandlingAt(kind, context, f, at))
      ensures ret == HandleCode(ntop6, devices, helper.View(), HandlingAt(kind, context, f, at))
    {
      hide HitOf, HandleCode, DeliverFound;
      var cap, pid, link;
      ghost var found;
      ret, cap, pid, link, found := Identify(context, f, at, kind);
      Settle(ret, cap, pid, link, f.len, created, kind, found, HandlingAt(kind, context, f, at));
    }

    /** Ends the call after a failed lookup, and records the packet after a successful one. */
    method Settle(ret: int, cap: CapPacket?, pid: int, link: string, len: U32, created: int -> ProcRead,
                  kind: Kind, ghost found: Option<Hit>, ghost h: Handling)
      requires Valid()
      requires ret == 0 <==> found.Some?
      requires found.Some? ==> cap != null && cap.len == len && found.value == Hit(pid, found.value.outgoing, kind, link, len)
                               && cap.dir == (if found.value.outgoing then Outgoing else Incoming)
      modifies this`processes, this`repr, this`life, this`calls, this`packetData, this`packetIdx, repr, cap
      ensures Valid() && fresh(repr - old(repr))
      ensures BooksView() == DeliverFound(DeskView(), old(BooksView()), created, h, found)
    {
      calls := calls + [h];
      if ret != 0 {
        return;
      }
      Record(cap, pid, link, len, created, kind, found.value);
      DeliverFoundParts(DeskView(), old(BooksView()), created, h, found.value);
    }

    /** Builds the packet, asks the index for its process and prints its link text. */
    method Identify(context: PcapCtx, f: Frame, at: nat, ghost kind: Kind)
      returns (ret: int, cap: CapPacket?, pid: int, link: string, ghost found: Option<Hit>)
      ensures found == HitOf(ntop6, devices, helper.View(), HandlingAt(kind, context, f, at))
      ensures ret == HandleCode(ntop6, devices, helper.View(), HandlingAt(kind, context, f, at))
      ensures ret == 0 <==> found.Some?
      ensures cap != null ==> fresh(cap)
      ensures found.Some? ==> cap != null && cap.len == f.len
                              && cap.dir == (if found.value.outgoing then Outgoing else Incoming)
                              && found.value == Hit(pid, found.value.outgoing, kind, link, f.len)
    {
      hide PacketKey, LinkText;
      pid, link, found := -1, "", None;
      cap := MakePacket(context, Net16(f, at), Net16(f, at + 2), f.len);
      if cap == null {
        return CAP_NET_UNKNOW, cap, pid, link, found;
      }
      ghost var flow := cap.View().flow;
      var hash := cap.Hash(ntop6, devices);
      ret, pid := helper.GetPidByIp(hash, -1);
      if ret == 0 {
        link := cap.Link(ntop6);
        found := Some(Hit(pid, IsLocal(devices, flow.src), kind, link, f.len));
      }
    }

    /** Credits the packet and files its row if packets are reported. */
    method Record(cap: CapPacket, pid: int, link: string, len: U32, created: int -> ProcRead, kind: Kind,
                  ghost hit: Hit)
      requires Valid()
      requires hit == Hit(pid, hit.outgoing, kind, link, len)
      requires cap.len == len && cap.dir == (if hit.outgoing then Outgoing else Incoming)
      modifies this`processes, this`repr, this`life, this`packetData, this`packetIdx, repr, cap`dir
      ensures Valid() && fresh(repr - old(repr))
      ensures Tracked() == old(Tracked())[hit.pid :=
                Credit(EntryFor(old(Tracked()), memory, deltaCpu, created, hit.pid), hit.outgoing, hit.len)]
      ensures life == if hit.pid in old(processes) then old(life) else old(life) + [Added(hit.pid)]
      ensures packetData == if packetCallback
                            then FileRow(old(packetData), old(packetIdx), hit.kind, hit.link, hit.len)
                            else old(packetData)
      ensures packetIdx == if packetCallback then old(packetIdx) + 1 else old(packetIdx)
    {
      AddToProcess(cap, pid, created);
      if packetCallback {
        FilePacket(link, len, kind);
      }
    }

    // ---------- frames ----------

    method Parse(h: CapHandle, f: Frame, created: int -> ProcRead) returns (ret: int)
      requires Valid()
      modifies this`processes, this`repr, this`life, this`calls, this`packetData, this`packetIdx, repr, h`context
      ensures Valid() && fresh(repr - old(repr))
      ensures Lane(h.View(), BooksView()) == FrameStep(ntop6, DeskView(), Lane(old(h.View()), old(BooksView())), created, f)
      ensures ret == 0
    {
      if h.linktype == DLT_EN10MB {
        ProtocolEN10MB(h, f, created);
      } else if h.linktype == DLT_RAW {
        ProtocolIp(h, f, created);
      }
      return 0;
    }

    method ProtocolIp(h: CapHandle, f: Frame, created: int -> ProcRead)
      requires Valid()
      modifies this`processes, this`repr, this`life, this`calls, this`packetData, this`packetIdx, repr, h`context
      ensures Valid() && fresh(repr - old(repr))
      ensures Lane(h.View(), BooksView())
           == RouteStep(ntop6, DeskView(), Lane(old(h.View()), old(BooksView())), created, f, RouteOf(DLT_RAW, f))
    {
      if f.len < 1 {
        return;
      }
      var version := f.mem(0) / 16;
      if version == 4 {
        ProtocolIp4(h, f, 0, created);
      } else if version == 6 {
        ProtocolIp6(h, f, 0, created);
      }
    }

    method ProtocolEN10MB(h: CapHandle, f: Frame, created: int -> ProcRead)
      requires Valid()
      modifies this`processes, this`repr, this`life, this`calls, this`packetData, this`packetIdx, repr, h`context
      ensures Valid() && fresh(repr - old(repr))
      ensures Lane(h.View(), BooksView())
           == RouteStep(ntop6, DeskView(), Lane(old(h.View()), old(BooksView())), created, f, RouteOf(DLT_EN10MB, f))
    {
      var protocol := Net16(f, 12);
      if protocol == ETHERTYPE_IP {
        ProtocolIp4(h, f, 14, created);
      } else if protocol == ETHERTYPE_IPV6 {
        ProtocolIp6(h, f, 14, created);
      }
    }

    method ProtocolIp4(h: CapHandle, f: Frame, at: nat, created: int -> ProcRead)
      requires Valid()
      modifies this`processes, this`repr, this`life, this`calls, this`packetData, this`packetIdx, repr, h`context
      ensures Valid() && fresh(repr - old(repr))
      ensures Lane(h.View(), BooksView())
           == RouteStep(ntop6, DeskView(), Lane(old(h.View()), old(BooksView())), created, f, Ip4Route(f, at))
    {
      hide Deliver;
      h.SetContext4(QuadAt(f, at + 12), QuadAt(f, at + 16));
      HandOver(h, f, f.mem(at + 9), at + 20, created);
    }

    method ProtocolIp6(h: CapHandle, f: Frame, at: nat, created: int -> ProcRead)
      requires Valid()
      modifies this`processes, this`repr, this`life, this`calls, this`packetData, this`packetIdx, repr, h`context
      ensures Valid() && fresh(repr - old(repr))
      ensures Lane(h.View(), BooksView())
           == RouteStep(ntop6, DeskView(), Lane(old(h.View()), old(BooksView())), created, f, Ip6Route(f, at))
    {
      hide Deliver, Ip6At;
      h.SetContext6(Ip6At(f, at + 8), Ip6At(f, at + 24));
      HandOver(h, f, f.mem(at + 6), at + 40, created);
    }

    /** Calls the handler for the protocol number with the handle's current context. */
    method HandOver(h: CapHandle, f: Frame, proto: Byte, payload: nat, created: int -> ProcRead)
      requires Valid()
      modifies this`processes, this`repr, this`life, this`calls, this`packetData, this`packetIdx, repr
      ensures Valid() && fresh(repr - old(repr))
      ensures BooksView() ==
                if KindOf(proto).None? then old(BooksView())
                else Deliver(ntop6, DeskView(), old(BooksView()), created, HandlingAt(KindOf(proto).value, h.context, f, payload))
    {
      if proto == IPPROTO_TCP {
        var _ := ProcessTcp(h.context, f, payload, created);
      } else if proto == IPPROTO_UDP {
        var _ := ProcessUdp(h.context, f, payload, created);
      }
    }

    /** One dispatch: the frames of a handle, one after the other. */
    method DispatchHandle(h: CapHandle, frames: seq<Frame>, created: int -> ProcRead)
      requires Valid()
      modifies this`processes, this`repr, this`life, this`calls, this`packetData, this`packetIdx, repr, h`context
      ensures Valid() && fresh(repr - old(repr))
      ensures Lane(h.View(), BooksView()) == FrameSteps(ntop6, DeskView(), Lane(old(h.View()), old(BooksView())), created, frames)
    {
      hide FrameStep;
      for n := 0 to |frames|
        invariant Valid() && fresh(repr - old(repr))
        invariant Lane(h.View(), BooksView())
               == FrameSteps(ntop6, DeskView(), Lane(old(h.View()), old(BooksView())), created, frames[..n])
      {
        var _ := Parse(h, frames[n], created);
        assert frames[..n + 1][..n] == frames[..n];
      }
      assert frames[..|frames|] == frames;
    }

    // ---------- the end of a round ----------

    method GetCpuTotal(c: CpuRead) returns (ret: int)
      modifies this`cpu, this`deltaCpu
      ensures Meter(cpu, deltaCpu) == ReadTotal(Meter(old(cpu), old(deltaCpu)), c)
      ensures ret == if c.CpuUnopened? then CAP_PROCESS_OPEN else 0
    {
      match c
      case CpuUnopened =>
        return CAP_PROCESS_OPEN;
      case CpuNoLine =>
        return 0;
      case CpuLine(now) =>
        deltaCpu := (now - cpu) % TWO64;
        cpu := now;
        return 0;
    }

    /** Erases one entry, reporting it if processes are reported. */
    method Erase(k: int)
      requires Valid() && k in processes
      modifies this`processes, this`life, this`callbacks
      ensures Valid()
      ensures Tracked() == old(Tracked()) - {k}
      ensures life == old(life) + [ErasureOf(k, old(Tracked())[k])]
      ensures callbacks == if processCallback then old(callbacks) + [Removed(k)] else old(callbacks)
    {
      if processCallback {
        callbacks := callbacks + [Removed(k)];
      }
      life := life + [Erased(k, processes[k].recv, processes[k].send)];
      processes := processes - {k};
    }

    /** Parses one tracked process again. */
    method Reparse(k: int, read: ProcRead)
      requires Valid() && k in processes
      modifies repr
      ensures Valid()
      ensures Tracked() == old(Tracked())[k := ParseProc(old(Tracked())[k], memory, deltaCpu, read)]
    {
      hide ParseProc, ParseTells, IsPercent;
      var p := processes[k];
      assert forall n :: n in processes && n != k ==> processes[n] != p;
      ParseKeepsCounters(p.View(), memory, deltaCpu, read);
      var _ := p.Parse(memory, deltaCpu, read);
    }

    /** Runs the merge when the numbers of live and tracked pids differ. */
    method ReconcileLoop(parsed: int -> ProcRead)
      requires Valid()
      modifies this`processes, this`life, this`callbacks, repr
      ensures Valid()
      ensures var doomed := Doomed(pids, old(Tracked()));
              if |pids| == |old(Tracked())|
              then Tracked() == old(Tracked()) && life == old(life) && callbacks == old(callbacks)
              else
                && Tracked() == Reparsed(old(Tracked()), pids, doomed, memory, deltaCpu, parsed)
                && life == old(life) + Erasures(old(Tracked()), doomed)
                && callbacks == if processCallback then old(callbacks) + Removals(doomed) else old(callbacks)
    {
      hide Reparsed, Walk, Tracked;
      TrackedKeys();
      if |pids| != |processes| {
        MergeLoop(Sorted(pids), Sorted(processes.Keys), parsed);
      }
    }

    /** The merge: two iterators over the live pids and the tracked ones, both ascending. */
    method MergeLoop(ps: seq<int>, ks: seq<int>, parsed: int -> ProcRead)
      requires Valid() && Iterated(ps, ks, Tracked()) && Elements(ps) == pids
      modifies this`processes, this`life, this`callbacks, repr
      ensures Valid() && Within(Walk(ps, ks), old(Tracked()))
      ensures Tracked() == Reparsed(old(Tracked()), pids, Walk(ps, ks), memory, deltaCpu, parsed)
      ensures life == old(life) + Erasures(old(Tracked()), Walk(ps, ks))
      ensures callbacks == if processCallback then old(callbacks) + Removals(Walk(ps, ks)) else old(callbacks)
    {
      hide Merging, Reparsed, Walk;
      ghost var before := Tracked();
      var i, j := 0, 0;
      ghost var gone: seq<int> := [];
      MergeStart(ps, ks, before, memory, deltaCpu, parsed);
      while i < |ps| && j < |ks|
        invariant i <= |ps| && j <= |ks|
        invariant Valid() && Halfway(ps, ks, i, j, gone, before, parsed, old(life), old(callbacks))
        decreases |ks| - j
      {
        if ps[i] != ks[j] {
          EraseAt(ps, ks, i, j, gone, before, parsed, old(life), old(callbacks));
          gone := gone + [ks[j]];
          j := j + 1;
        } else {
          KeepAt(ps, ks, i, j, gone, before, parsed, old(life), old(callbacks));
          i, j := i + 1, j + 1;
        }
      }
      MergeEnd(pids, ps, ks, i, j, gone, before, Tracked(), memory, deltaCpu, parsed);
    }

    /** The loop half way, with the traces as they were when it began. */
    ghost predicate Halfway(ps: seq<int>, ks: seq<int>, i: nat, j: nat, gone: seq<int>, before: map<int, Proc>,
                            parsed: int -> ProcRead, life0: seq<Life>, callbacks0: seq<Callback>)
      requires Valid()
      reads this, repr
    {
      && Within(gone, before) && Merging(ps, ks, i, j, gone, before, Tracked(), memory, deltaCpu, parsed)
      && life == life0 + Erasures(before, gone)
      && callbacks == if processCallback then callbacks0 + Removals(gone) else callbacks0
    }

    /** The tracked iterator is at a pid that is not the live one: erase it. */
    method EraseAt(ps: seq<int>, ks: seq<int>, i: nat, j: nat, ghost gone: seq<int>, ghost before: map<int, Proc>,
                   ghost parsed: int -> ProcRead, ghost life0: seq<Life>, ghost callbacks0: seq<Callback>)
      requires Valid() && Iterated(ps, ks, before) && Halfway(ps, ks, i, j, gone, before, parsed, life0, callbacks0)
      requires i < |ps| && j < |ks| && ps[i] != ks[j]
      modifies this`processes, this`life, this`callbacks
      ensures Valid() && Halfway(ps, ks, i, j + 1, gone + [ks[j]], before, parsed, life0, callbacks0)
    {
      hide Merging, Erasures, Removals, Iterated;
      ghost var now := Tracked();
      MergeErase(ps, ks, i, j, gone, before, now, memory, deltaCpu, parsed);
      TracesGrow(before, gone, ks[j]);
      Erase(ks[j]);
      assert Tracked() == now - {ks[j]};
      assert life == life0 + Erasures(before, gone + [ks[j]]) by {
        Associate(life0, Erasures(before, gone), [ErasureOf(ks[j], before[ks[j]])]);
      }
      assert processCallback ==> callbacks == callbacks0 + Removals(gone + [ks[j]]) by {
        Associate(callbacks0, Removals(gone), [Removed(ks[j])]);
      }
    }

    /** Both iterators are at the same pid: parse its process. */
    method KeepAt(ps: seq<int>, ks: seq<int>, i: nat, j: nat, ghost gone: seq<int>, ghost before: map<int, Proc>,
                  parsed: int -> ProcRead, ghost life0: seq<Life>, ghost callbacks0: seq<Callback>)
      requires Valid() && Iterated(ps, ks, before) && Halfway(ps, ks, i, j, gone, before, parsed, life0, callbacks0)
      requires i < |ps| && j < |ks| && ps[i] == ks[j]
      modifies repr
      ensures Valid() && Halfway(ps, ks, i + 1, j + 1, gone, before, parsed, life0, callbacks0)
    {
      hide Merging, Erasures, Removals, Iterated, ParseProc;
      MergeKeep(ps, ks, i, j, gone, before, Tracked(), memory, deltaCpu, parsed);
      Reparse(ks[j], parsed(ks[j]));
    }

    /** Overwrites the rows that the buffer already has. */
    method OverwriteRows(ks: seq<int>, ghost rows: seq<ProcessRow>) returns (idx: nat)
      requires Valid() && RowsFor(ks, Tracked(), rows)
      modifies this`processData
      ensures idx == if |ks| < |old(processData)| then |ks| else |old(processData)|
      ensures processData == rows[..idx] + old(processData)[idx..]
    {
      idx := 0;
      while idx < |ks| && idx < |processData|
        invariant idx <= |ks| && idx <= |old(processData)|
        invariant processData == rows[..idx] + old(processData)[idx..]
      {
        OverwriteNext(rows, old(processData), idx);
        processData := processData[idx := RowOf(processes[ks[idx]].View())];
        idx := idx + 1;
      }
    }

    /** Appends the rows that the buffer lacks. */
    method AppendRows(ks: seq<int>, from: nat, ghost rows: seq<ProcessRow>)
      requires Valid() && RowsFor(ks, Tracked(), rows) && from <= |ks| && processData == rows[..from]
      modifies this`processData
      ensures processData == rows
    {
      for idx := from to |ks|
        invariant processData == rows[..idx]
      {
        assert rows[..idx + 1] == rows[..idx] + [rows[idx]];
        processData := processData + [RowOf(processes[ks[idx]].View())];
      }
      assert rows[..|ks|] == rows;
    }

    /** Writes the rows into the buffer that never shrinks. */
    method FillBuffer(ks: seq<int>, ghost rows: seq<ProcessRow>)
      requires Valid() && RowsFor(ks, Tracked(), rows) && |ks| == |processes|
      modifies this`processData
      ensures processData == Overwrite(old(processData), rows)
    {
      var idx := OverwriteRows(ks, rows);
      OverwriteEnds(rows, old(processData), idx);
      if |processData| < |processes| {
        AppendRows(ks, idx, rows);
      }
    }

    method PublishRows(ghost rows: seq<ProcessRow>)
      requires Valid() && RowsFor(Sorted(processes.Keys), Tracked(), rows)
      modifies this`processData, this`callbacks
      ensures processCallback ==> processData == Overwrite(old(processData), rows)
      ensures processCallback ==> callbacks == old(callbacks) + [Updated(processData, |processes| % TWO32)]
      ensures !processCallback ==> processData == old(processData) && callbacks == old(callbacks)
    {
      if processCallback {
        FillBuffer(Sorted(processes.Keys), rows);
        callbacks := callbacks + [Updated(processData, |processes| % TWO32)];
      }
    }

    method PublishPacketRows(ret: int)
      modifies this`callbacks
      ensures callbacks == if packetCallback && ret > 0 && packetData != []
                           then old(callbacks) + [Reported(packetData, ret)] else old(callbacks)
    {
      if packetCallback && ret > 0 && packetData != [] {
        callbacks := callbacks + [Reported(packetData, ret)];
      }
    }

    // ---------- Init ----------

    /** Opens a handle on every device that allows it. */
    method OpenHandles(links: nat -> Option<int>)
      requires Valid()
      modifies this`handles
      ensures Valid()
      ensures HandleViews(handles) == old(HandleViews(handles)) + Opened(links, |devices|)
      ensures forall j :: 0 <= j < |handles| ==> handles[j] in old(handles) || fresh(handles[j])
    {
      for idx := 0 to |devices|
        invariant Valid()
        invariant old(handles) <= handles
        invariant forall j :: 0 <= j < |handles| ==> handles[j] in old(handles) || fresh(handles[j])
        invariant HandleViews(handles) == old(HandleViews(handles)) + Opened(links, idx)
      {
        if links(idx).Some? {
          var handle := new CapHandle(links(idx).value);
          handles := handles + [handle];
        }
      }
    }

    /** Creates an entry for every listed pid. */
    method TrackListed(parsed: int -> ProcRead)
      requires Valid()
      modifies this`processes, this`repr, this`life
      ensures Valid() && fresh(repr - old(repr))
      ensures Tracked() == old(Tracked()) + BornAll(pids, memory, deltaCpu, parsed)
      ensures life == old(life) + Additions(Sorted(pids))
    {
      hide Sorted, BornAll, Additions, Tracked;
      var ps := Sorted(pids);
      NoneListed(Tracked(), life, memory, deltaCpu, parsed);
      assert ps[..0] == [];
      for i := 0 to |ps|
        invariant Valid() && fresh(repr - old(repr))
        invariant Tracked() == old(Tracked()) + BornAll(Elements(ps[..i]), memory, deltaCpu, parsed)
        invariant life == old(life) + Additions(ps[..i])
      {
        TrackOne(ps[i], parsed(ps[i]));
        BornStep(old(Tracked()), Elements(ps[..i]), ps[i], memory, deltaCpu, parsed);
        Listed(ps, i);
        Associate(old(life), Additions(ps[..i]), [Added(ps[i])]);
      }
      assert ps[..|ps|] == ps;
    }

    method TrackOne(pid: int, read: ProcRead)
      requires Valid()
      modifies this`processes, this`repr, this`life
      ensures Valid() && fresh(repr - old(repr))
      ensures Tracked() == old(Tracked())[pid := Born(pid, memory, deltaCpu, read)]
      ensures life == old(life) + [Added(pid)]
    {
      hide Born;
      var ptr := BearProcess(pid, read);
      Insert(pid, ptr);
    }

    /** A new process, parsed once. */
    method BearProcess(pid: int, read: ProcRead) returns (ptr: CapProcess)
      ensures fresh(ptr) && ptr.pid == pid && ptr.View() == Born(pid, memory, deltaCpu, read)
    {
      hide ParseProc, ParseTells, IsPercent;
      ptr := new CapProcess(pid);
      var _ := ptr.Parse(memory, deltaCpu, read);
    }

    method UpdatePids(listing: Option<set<Pid>>)
      modifies this`pids
      ensures pids == if listing.Some? then listing.value else {}
    {
      pids := {};
      if listing.Some? {
        pids := listing.value;
      }
    }

    /** Lists the pids and rebuilds the index. */
    method Look(listing: Option<set<Pid>>, tables: Tables, fds: FdDirs)
      requires Valid()
      modifies this`pids, helper
      ensures Valid() && Abs() == Observe(ntop6, old(Abs()), listing, tables, fds)
    {
      hide BooksView, BuildIndex, HandleViews;
      UpdatePids(listing);
      var _ := helper.Refresh(ntop6, devices, tables, pids, fds);
    }

    method TakeConfig(b: Boot)
      requires Valid()
      modifies this`processCallback, this`packetCallback, this`devices, this`memory
      ensures Valid() && Abs() == old(Abs()).(cfg := Configure(old(Abs()).cfg, b))
    {
      hide BooksView, HandleViews, Filed, CapInodeHelper.View;
      processCallback, packetCallback, devices := b.processCb, b.packetCb, devices + b.devices;
      memory := if b.memory.Some? then b.memory.value else memory;
      assert BooksView() == old(BooksView()) && HandleViews(handles) == old(HandleViews(handles)) && helper.View() == old(helper.View());
    }

    method OpenAll(links: nat -> Option<int>)
      requires Valid()
      modifies this`handles
      ensures Valid() && forall j :: 0 <= j < |handles| ==> handles[j] in old(handles) || fresh(handles[j])
      ensures Abs() == old(Abs()).(handles := old(Abs()).handles + Opened(links, |devices|))
    {
      hide BooksView, Opened;
      OpenHandles(links);
    }

    method TrackAllListed(parsed: int -> ProcRead)
      requires Valid()
      modifies this`processes, this`repr, this`life
      ensures Valid() && fresh(repr - old(repr))
      ensures Abs() == old(Abs()).(books := TrackAll(old(BooksView()), pids, memory, deltaCpu, parsed))
    {
      hide BornAll, Additions, Sorted, HandleViews, Tracked;
      TrackListed(parsed);
    }

    method Init(b: Boot) returns (ret: int)
      requires Valid()
      modifies this, helper
      ensures Valid() && fresh(repr - old(repr)) && forall j :: 0 <= j < |handles| ==> handles[j] in old(handles) || fresh(handles[j])
      ensures Abs() == Monitor.Init(ntop6, old(Abs()), b)
      ensures ret == if old(devices) == [] && b.devices == [] then CAP_DEVICE_INIT else 0
    {
      hide BooksView, HandleViews, Opened, Observe, TrackAll;
      TakeConfig(b);
      if devices == [] {
        return CAP_DEVICE_INIT;
      }
      OpenAll(b.links);
      Look(b.listing, b.tables, b.fds);
      TrackAllListed(b.parsed);
      return 0;
    }

    // ---------- Update ----------

    method BeginRound(env: Env)
      requires Valid()
      modifies this`packetIdx, this`pids, helper
      ensures Valid() && Abs() == StartRound(ntop6, old(Abs()), env)
    {
      hide BuildIndex;
      packetIdx := 0;
      Look(env.listing, env.tables, env.fds);
    }

    method DispatchAt(i: nat, env: Env)
      requires Valid() && i < |handles|
      modifies this`processes, this`repr, this`life, this`calls, this`packetData, this`packetIdx, repr, handles
      ensures Valid() && fresh(repr - old(repr))
      ensures Abs() == DispatchOne(ntop6, old(Abs()), env, i)
    {
      hide FrameSteps;
      DispatchHandle(handles[i], env.dispatch(i).frames, env.created);
      assert HandleViews(handles) == old(HandleViews(handles))[i := handles[i].View()];
    }

    /** Dispatches every handle in turn; the last one's result is the one that is kept. */
    method DispatchAll(env: Env) returns (ret: int)
      requires Valid()
      modifies this`processes, this`repr, this`life, this`calls, this`packetData, this`packetIdx, repr, handles
      ensures Valid() && fresh(repr - old(repr))
      ensures Abs() == DispatchTo(ntop6, old(Abs()), env, |old(Abs()).handles|)
      ensures ret == LastRet(old(Abs()), env) == if old(handles) == [] then 0 else env.dispatch(|old(handles)| - 1).ret
    {
      hide DispatchOne;
      ret := 0;
      for i := 0 to |handles|
        invariant Valid() && fresh(repr - old(repr))
        invariant Abs() == DispatchTo(ntop6, old(Abs()), env, i)
        invariant ret == if i == 0 then 0 else env.dispatch(i - 1).ret
      {
        DispatchAt(i, env);
        ret := env.dispatch(i).ret;
      }
    }

    method ReadCpu(c: CpuRead) returns (ret: int)
      requires Valid()
      modifies this`cpu, this`deltaCpu
      ensures Valid() && Abs() == old(Abs()).(meter := ReadTotal(old(Abs()).meter, c))
      ensures ret == if c.CpuUnopened? then CAP_PROCESS_OPEN else 0
    {
      ret := GetCpuTotal(c);
    }

    method ReconcileAll(parsed: int -> ProcRead)
      requires Valid()
      modifies this`processes, this`life, this`callbacks, repr
      ensures Valid() && Abs() == ReconcileStep(old(Abs()), parsed)
    {
      hide Reparsed, Erasures, Removals, Doomed, HandleViews, CapInodeHelper.View;
      ReconcileLoop(parsed);
    }

    method Publish()
      requires Valid()
      modifies this`processData, this`callbacks
      ensures Valid() && Abs() == PublishProcesses(old(Abs()))
    {
      hide Project, Overwrite, RowsFor, Sorted, Tracked, HandleViews;
      TrackedKeys();
      ProjectRows(Tracked());
      PublishRows(Project(Tracked()));
    }

    method ReportPackets(ret: int)
      requires Valid()
      modifies this`callbacks
      ensures Valid() && Abs() == PublishPackets(old(Abs()), ret)
    {
      PublishPacketRows(ret);
    }

    method Update(env: Env) returns (ret: int)
      requires Valid()
      modifies this, helper, handles, repr
      ensures Valid() && fresh(repr - old(repr)) && handles == old(handles)
      ensures Abs() == Monitor.Update(ntop6, old(Abs()), env)
      ensures ret == if env.cpu.CpuUnopened? then CAP_PROCESS_OPEN else 0
    {
      hide Abs, Valid, StartRound, DispatchTo, ReconcileStep, PublishProcesses, PublishPackets;
      StartKeepsHandles(ntop6, Abs(), env);
      BeginRound(env);
      var last := DispatchAll(env);
      ret := ReadCpu(env.cpu);
      if ret != 0 {
        return;
      }
      ReconcileAll(env.parsed);
      Publish();
      ReportPackets(last);
    }
  }

  /** A client: one `Init`, then any number of rounds. The object goes through the states of a run. */
  method Drive(pr: Printer6, b: Boot, envs: seq<Env>) returns (m: CaptureCxx)
    ensures fresh(m) && m.Valid() && m.Abs() == Run(pr, b, envs)
  {
    hide Monitor.Init, Monitor.Update, CaptureCxx.Abs, CaptureCxx.Valid;
    m := new CaptureCxx(pr);
    var _ := m.Init(b);
    for i := 0 to |envs|
      invariant fresh(m) && fresh(m.helper) && fresh(m.repr) && m.ntop6 == pr
      invariant forall j :: 0 <= j < |m.handles| ==> fresh(m.handles[j])
      invariant m.Valid() && m.Abs() == Run(pr, b, envs[..i])
    {
      var _ := m.Update(envs[i]);
      assert envs[..i + 1][..i] == envs[..i];
    }
    assert envs[..|envs|] == envs;
  }
}
