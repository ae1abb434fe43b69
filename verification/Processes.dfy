/** A tracked process: byte counters, CPU readings and what a parse of /proc/pid changes. */
module Processes {
  import opened Text
  import opened Packets
  import opened Errors

  // ---------- cumulative CPU counters ----------

  /** A counter that remembers its last reading and the step to it, both as `uint64_t`. */
  datatype Meter = Meter(cpu: U64, delta: U64)

  function Read(m: Meter, now: U64): Meter { Meter(now, (now - m.cpu) % TWO64) }

  function ReadAll(m: Meter, readings: seq<U64>): Meter {
    if readings == [] then m else Read(ReadAll(m, readings[..|readings| - 1]), readings[|readings| - 1])
  }

  /** The sum of the steps reported along the readings. */
  function DeltaSum(m: Meter, readings: seq<U64>): nat {
    if readings == [] then 0
    else DeltaSum(m, readings[..|readings| - 1]) + ReadAll(m, readings).delta
  }

  predicate NeverBackwards(from: U64, readings: seq<U64>) {
    && (forall i :: 0 <= i < |readings| ==> from <= readings[i])
    && (forall i, j :: 0 <= i <= j < |readings| ==> readings[i] <= readings[j])
  }

  /** The steps add up to the distance covered, modulo 2^64 for any readings and exactly for
      readings that never go backwards. */
  lemma {:induction false} DeltasTelescope(m: Meter, readings: seq<U64>)
    ensures (DeltaSum(m, readings) - (ReadAll(m, readings).cpu - m.cpu)) % TWO64 == 0
    ensures NeverBackwards(m.cpu, readings) ==> DeltaSum(m, readings) == ReadAll(m, readings).cpu - m.cpu
    ensures readings != [] ==> ReadAll(m, readings).cpu == readings[|readings| - 1]
  {
    if readings != [] {
      var before := readings[..|readings| - 1];
      DeltasTelescope(m, before);
      var last, now := ReadAll(m, before).cpu, readings[|readings| - 1];
      NextDelta(DeltaSum(m, before), m.cpu, last, now);
      if before == [] {
        assert last == m.cpu;
      } else {
        assert last == readings[|readings| - 2];
      }
    }
  }

  lemma NextDelta(sum: int, from: U64, last: U64, now: U64)
    requires (sum - (last - from)) % TWO64 == 0
    ensures (sum + (now - last) % TWO64 - (now - from)) % TWO64 == 0
    ensures last <= now ==> (now - last) % TWO64 == now - last
  {
    var x := now - last;
    assert x == x / TWO64 * TWO64 + x % TWO64;
    var turns := (sum - (last - from)) / TWO64;
    assert sum + x % TWO64 - (now - from) == (turns - x / TWO64) * TWO64;
  }

  // ---------- process values ----------

  /** The fields that are copied from /proc without further use here. */
  datatype Descr = Descr(name: string, cmdline: string, user: string, group: string, uid: U32, gid: U32,
                         fdCnt: U32, memory: U64, ioRead: U64, ioWrite: U64)

  const NO_DESCR := Descr("", "", "", "", 0, 0, 0, 0, 0, 0)

  datatype Proc = Proc(pid: int, descr: Descr, cpuPercent: real, memPercent: real,
                       recv: U64, send: U64, cpu: U64, deltaCpu: U64)

  function NewProc(pid: int): Proc { Proc(pid, NO_DESCR, 0.0, 0.0, 0, 0, 0, 0) }

  /** How far one parse gets, with the copied fields as the stages that ran left them. */
  datatype ProcRead =
    | StatusFailed
    | CmdlineFailed(descr: Descr)
    | StatFailed(descr: Descr)
    | Complete(descr: Descr, readings: seq<U64>)

  /** A percentage whose numerator is multiplied in 64 bits. */
  function Percent(part: U64, whole: U64): real {
    if whole == 0 then 0.0 else (part * 100 % TWO64) as real / whole as real
  }

  function ParseProc(p: Proc, memory: U64, deltaCpu: U64, read: ProcRead): Proc {
    if p.pid == -1 then p
    else match read
         case StatusFailed => p
         case CmdlineFailed(d) => p.(descr := d)
         case StatFailed(d) => p.(descr := d, memPercent := Percent(d.memory, memory))
         case Complete(d, readings) =>
           var m := ReadAll(Meter(p.cpu, p.deltaCpu), readings);
           p.(descr := d, memPercent := Percent(d.memory, memory),
              cpu := m.cpu, deltaCpu := m.delta, cpuPercent := Percent(m.delta, deltaCpu))
  }

  /** A packet is credited to one counter, which wraps at 2^64. */
  function Credit(p: Proc, outgoing: bool, len: U32): Proc {
    if outgoing then p.(send := (p.send + len) % TWO64) else p.(recv := (p.recv + len) % TWO64)
  }

  function Bytes(p: Proc): nat { p.recv + p.send }

  /** A parse, complete or not, leaves the identity and the byte counters alone; one that fails
      at any stage leaves the CPU reading and the share of the last complete one. */
  lemma ParseKeepsCounters(p: Proc, memory: U64, deltaCpu: U64, read: ProcRead)
    ensures var q := ParseProc(p, memory, deltaCpu, read);
            && q.pid == p.pid && q.recv == p.recv && q.send == p.send
            && (!read.Complete? ==> q.cpu == p.cpu && q.deltaCpu == p.deltaCpu && q.cpuPercent == p.cpuPercent)
  {
  }

  /** `x` is the percentage of `whole` that `part` is, with the numerator cut to 64 bits; 0 of nothing. */
  predicate IsPercent(x: real, part: U64, whole: U64) {
    if whole == 0 then x == 0.0 else x * whole as real == (100 * part % TWO64) as real
  }

  lemma PercentIs(part: U64, whole: U64)
    ensures IsPercent(Percent(part, whole), part, whole)
  {
    if whole > 0 { DivTimes((part * 100 % TWO64) as real, whole as real); }
  }

  /** As long as the numerator does not wrap, a percentage times its base is a hundred times the part. */
  lemma PercentIsExact(part: U64, whole: U64)
    requires whole > 0 && part * 100 < TWO64
    ensures Percent(part, whole) * whole as real == 100.0 * part as real
  {
    PercentIs(part, whole);
    assert 100 * part % TWO64 == 100 * part;
  }

  /** What a parse of an entry `p` makes of the copied fields and the memory share, stage by stage:
      a stage that fails leaves what the later ones would have set. */
  predicate ParseTells(p: Proc, q: Proc, memory: U64, read: ProcRead) {
    && (read.StatusFailed? ==> q.descr == p.descr && q.memPercent == p.memPercent)
    && (read.CmdlineFailed? ==> q.descr == read.descr && q.memPercent == p.memPercent)
    && (read.StatFailed? || read.Complete? ==> q.descr == read.descr && IsPercent(q.memPercent, read.descr.memory, memory))
  }

  lemma ParseTellsAll(p: Proc, memory: U64, deltaCpu: U64, read: ProcRead)
    requires p.pid != -1
    ensures ParseTells(p, ParseProc(p, memory, deltaCpu, read), memory, read)
    ensures var q := ParseProc(p, memory, deltaCpu, read);
            if read.Complete? then IsPercent(q.cpuPercent, q.deltaCpu, deltaCpu) else q.cpuPercent == p.cpuPercent
  {
    hide Percent, IsPercent;
    if read.StatFailed? || read.Complete? { PercentIs(read.descr.memory, memory); }
    if read.Complete? { PercentIs(ParseProc(p, memory, deltaCpu, read).deltaCpu, deltaCpu); }
  }

  lemma DivTimes(x: real, w: real)
    requires w > 0.0
    ensures x / w * w == x
  {
  }

  /** What a packet adds to the bytes of its process, up to one wrap of the counter. */
  lemma CreditAdds(p: Proc, outgoing: bool, len: U32)
    ensures Bytes(Credit(p, outgoing, len)) == Bytes(p) + len || Bytes(Credit(p, outgoing, len)) == Bytes(p) + len - TWO64
    ensures Credit(p, outgoing, len) == p.(recv := Credit(p, outgoing, len).recv, send := Credit(p, outgoing, len).send)
  {
    var x := (if outgoing then p.send else p.recv) + len;
    assert x % TWO64 == if x < TWO64 then x else x - TWO64;
  }

  // ---------- the process object ----------

  class CapProcess {
    var pid: int
    var descr: Descr
    var cpuPercent: real
    var memPercent: real
    var recv: U64
    var send: U64
    var cpu: U64
    var deltaCpu: U64

    function View(): Proc
      reads this
    {
      Proc(pid, descr, cpuPercent, memPercent, recv, send, cpu, deltaCpu)
    }

    constructor (ipid: int)
      ensures View() == NewProc(ipid)
    {
      pid, descr, cpuPercent, memPercent := ipid, NO_DESCR, 0.0, 0.0;
      recv, send, cpu, deltaCpu := 0, 0, 0, 0;
    }

    method Parse(imemory: U64, ideltacpu: U64, read: ProcRead) returns (ret: int)
      modifies this
      ensures View() == ParseProc(old(View()), imemory, ideltacpu, read)
      ensures ret == if pid == -1 then CAP_PROCESS_INIT else if read.Complete? then 0 else CAP_PROCESS_OPEN
      ensures pid == old(pid) && (pid != -1 ==> ParseTells(old(View()), View(), imemory, read))
      ensures pid != -1 && read.Complete? ==> IsPercent(cpuPercent, deltaCpu, ideltacpu)
    {
      hide IsPercent, Percent, ReadAll;
      if pid != -1 { ParseTellsAll(View(), imemory, ideltacpu, read); }
      if pid == -1 {
        return CAP_PROCESS_INIT;
      }
      if read.StatusFailed? {
        return CAP_PROCESS_OPEN;
      }
      descr := read.descr;
      if read.CmdlineFailed? {
        return CAP_PROCESS_OPEN;
      }
      memPercent := Percent(descr.memory, imemory);
      ret := ParseStat(read);
      if ret != 0 {
        return;
      }
      cpuPercent := Percent(deltaCpu, ideltacpu);
    }

    /** One step of the counter per line of /proc/pid/stat. */
    method ParseStat(read: ProcRead) returns (ret: int)
      modifies this`cpu, this`deltaCpu
      ensures ret == if read.Complete? then 0 else CAP_PROCESS_OPEN
      ensures Meter(cpu, deltaCpu) ==
                if read.Complete? then ReadAll(Meter(old(cpu), old(deltaCpu)), read.readings)
                else Meter(old(cpu), old(deltaCpu))
    {
      if !read.Complete? {
        return CAP_PROCESS_OPEN;
      }
      var lines := read.readings;
      for i := 0 to |lines|
        invariant Meter(cpu, deltaCpu) == ReadAll(Meter(old(cpu), old(deltaCpu)), lines[..i])
      {
        var now := lines[i];
        deltaCpu := (now - cpu) % TWO64;
        cpu := now;
        assert lines[..i + 1][..i] == lines[..i];
      }
      assert lines[..|lines|] == lines;
      return 0;
    }

    method AddPacket(devices: seq<LocalAddr>, ptr: CapPacket)
      modifies this`recv, this`send, ptr`dir
      ensures View() == Credit(old(View()), Outgoes(devices, old(ptr.View())), ptr.len)
      ensures ptr.View() == Resolve(devices, old(ptr.View()))
    {
      var outgoing := ptr.IsOutgoing(devices);
      if outgoing {
        send := (send + ptr.len) % TWO64;
      } else {
        recv := (recv + ptr.len) % TWO64;
      }
    }
  }
}
