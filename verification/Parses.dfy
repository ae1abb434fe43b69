/** The parses of /proc/pid that make an entry what it is: those that reach it over a run. */
module Parses {
  import opened Text
  import opened Ordered
  import opened Packets
  import opened InodeIndex
  import opened Processes
  import opened Reconcile
  import opened Monitor
  import opened Deliveries
  import opened Runs
  import opened Tracking

  // ---------- entries but for their byte counters ----------

  /** The CPU counter of an entry. */
  function MeterOf(p: Proc): Meter { Meter(p.cpu, p.deltaCpu) }

  /** The CPU readings that a parse takes. */
  function Lines(read: ProcRead): seq<U64> { if read.Complete? then read.readings else [] }

  predicate SameButBytes(p: Proc, q: Proc) {
    p.(recv := 0, send := 0) == q.(recv := 0, send := 0)
  }

  lemma {:induction false} HitsKeepRest(d: Desk, b: Books, created: int -> ProcRead, hits: seq<Hit>, k: int)
    requires k in b.procs
    ensures k in TakeHits(d, b, created, hits).procs
    ensures SameButBytes(TakeHits(d, b, created, hits).procs[k], b.procs[k])
    decreases |hits|
  {
    hide FileRow, Born;
    if hits != [] {
      HitsKeepRest(d, b, created, hits[..|hits| - 1], k);
    }
  }

  /** Packets leave the tracked entries in place, but for their byte counters. */
  lemma PacketsKeepRest(pr: Printer6, s: State, env: Env, k: int)
    requires k in s.books.procs
    ensures k in Dispatched(pr, s, env).books.procs
    ensures SameButBytes(Dispatched(pr, s, env).books.procs[k], s.books.procs[k])
  {
    hide Dispatched, RoundHits, TakeHits, StartRound, Links, SameButBytes;
    PacketPhase(pr, s, env);
    HitsKeepRest(DeskOf(StartRound(pr, s, env)), s.books.(packetIdx := 0), env.created,
                 RoundHits(pr, s.cfg.devices, Links(s.handles), env), k);
  }

  lemma {:induction false} HitsCreate(d: Desk, b: Books, created: int -> ProcRead, hits: seq<Hit>, k: int)
    requires k !in b.procs && k in TakeHits(d, b, created, hits).procs
    ensures SameButBytes(TakeHits(d, b, created, hits).procs[k], Born(k, d.memory, d.deltaCpu, created(k)))
    decreases |hits|
  {
    hide FileRow, Born;
    if hits != [] {
      var before := hits[..|hits| - 1];
      if k in TakeHits(d, b, created, before).procs {
        HitsCreate(d, b, created, before, k);
      }
    }
  }

  /** An entry that a packet creates is parsed with the system delta of an earlier round. */
  lemma CreatedEntry(pr: Printer6, s: State, env: Env, k: int)
    requires k !in s.books.procs && k in Dispatched(pr, s, env).books.procs
    ensures SameButBytes(Dispatched(pr, s, env).books.procs[k], Born(k, s.cfg.memory, s.meter.delta, env.created(k)))
  {
    hide Dispatched, RoundHits, TakeHits, Links, SameButBytes, Born, BuildIndex;
    PacketPhase(pr, s, env);
    HitsCreate(DeskOf(StartRound(pr, s, env)), s.books.(packetIdx := 0), env.created,
               RoundHits(pr, s.cfg.devices, Links(s.handles), env), k);
  }

  /** The round's reconcile visits the process and finds it alive. */
  predicate ParsedAgain(pr: Printer6, s: State, env: Env, pid: int) {
    var m := Measured(pr, s, env);
    && !env.cpu.CpuUnopened? && |m.pids| != |m.books.procs|
    && pid in m.pids && pid in After(m.pids, m.books.procs.Keys)
  }

  lemma ReconcileEntry(s: State, parsed: int -> ProcRead, k: int)
    requires k in ReconcileStep(s, parsed).books.procs
    ensures k in s.books.procs
    ensures ReconcileStep(s, parsed).books.procs[k] ==
              if |s.pids| != |s.books.procs| && k in s.pids
              then ParseProc(s.books.procs[k], s.cfg.memory, s.meter.delta, parsed(k))
              else s.books.procs[k]
  {
    hide ParseProc, Doomed, Erasures, Removals;
  }

  lemma ParseIgnoresBytes(p: Proc, q: Proc, memory: U64, deltaCpu: U64, read: ProcRead)
    requires SameButBytes(p, q)
    ensures SameButBytes(ParseProc(p, memory, deltaCpu, read), ParseProc(q, memory, deltaCpu, read))
  {
    hide Percent, ReadAll;
  }

  lemma CompleteParse(q: Proc, p: Proc, memory: U64, deltaCpu: U64, read: ProcRead)
    requires SameButBytes(q, ParseProc(p, memory, deltaCpu, read))
    ensures p.pid != -1 ==> MeterOf(q) == ReadAll(MeterOf(p), Lines(read))
    ensures p.pid != -1 && read.Complete? ==> q.cpuPercent == Percent(MeterOf(q).delta, deltaCpu)
  {
    hide Percent;
  }

  // ---------- readings ----------

  lemma OneReading(m: Meter, now: U64)
    ensures ReadAll(m, [now]) == Read(m, now)
  {
    assert [now][..0] == [];
    assert ReadAll(m, []) == m;
  }

  lemma {:induction false} ReadAllAppend(m: Meter, a: seq<U64>, b: seq<U64>)
    ensures ReadAll(m, a + b) == ReadAll(ReadAll(m, a), b)
    decreases |b|
  {
    if b == [] {
      assert a + b == a;
    } else {
      ReadAllAppend(m, a, b[..|b| - 1]);
      assert (a + b)[..|a + b| - 1] == a + b[..|b| - 1];
    }
  }

  lemma BornMeter(pid: int, memory: U64, deltaCpu: U64, read: ProcRead)
    requires pid != -1
    ensures MeterOf(Born(pid, memory, deltaCpu, read)) == ReadAll(Meter(0, 0), Lines(read))
    ensures read.Complete? ==>
              Born(pid, memory, deltaCpu, read).cpuPercent == Percent(ReadAll(Meter(0, 0), read.readings).delta, deltaCpu)
  {
    hide Percent;
  }

  // ---------- all parses of an entry ----------

  /** One parse, with the system delta that it is given. */
  datatype Parse = Parse(read: ProcRead, delta: U64)

  /** An entry after several parses. */
  function ParseEach(p: Proc, memory: U64, parses: seq<Parse>): Proc
    decreases |parses|
  {
    if parses == [] then p
    else
      var last := parses[|parses| - 1];
      ParseProc(ParseEach(p, memory, parses[..|parses| - 1]), memory, last.delta, last.read)
  }

  /** The parses that reach an entry in a round: that of its creation, with an earlier round's
      delta, and that of the merge, with this round's. */
  function RoundParses(pr: Printer6, s: State, env: Env, pid: int, before: seq<Parse>): seq<Parse> {
    (if pid in s.books.procs then before else [Parse(env.created(pid), s.meter.delta)])
    + (if ParsedAgain(pr, s, env, pid) then [Parse(env.parsed(pid), Update(pr, s, env).meter.delta)] else [])
  }

  /** All parses that reach the current entry of a process, from its creation on. */
  function RunParses(pr: Printer6, b: Boot, envs: seq<Env>, pid: int): seq<Parse>
    decreases |envs|
  {
    if envs == [] then [Parse(b.parsed(pid), 0)]
    else
      var before := envs[..|envs| - 1];
      RoundParses(pr, Run(pr, b, before), envs[|envs| - 1], pid, RunParses(pr, b, before, pid))
  }

  /** The CPU readings of several parses. */
  function ReadingsOf(parses: seq<Parse>): seq<U64> {
    if parses == [] then []
    else ReadingsOf(parses[..|parses| - 1]) + Lines(parses[|parses| - 1].read)
  }

  lemma {:induction false} EachReads(p: Proc, memory: U64, parses: seq<Parse>)
    requires p.pid != -1
    ensures ParseEach(p, memory, parses).pid == p.pid
    ensures MeterOf(ParseEach(p, memory, parses)) == ReadAll(MeterOf(p), ReadingsOf(parses))
    decreases |parses|
  {
    hide ReadAll, ParseProc, Lines;
    if parses == [] {
      NothingRead(MeterOf(p));
    } else {
      var before, last := parses[..|parses| - 1], parses[|parses| - 1];
      var q := ParseEach(p, memory, before);
      EachReads(p, memory, before);
      ParseKeepsCounters(q, memory, last.delta, last.read);
      CompleteParse(ParseProc(q, memory, last.delta, last.read), q, memory, last.delta, last.read);
      ReadAllAppend(MeterOf(p), ReadingsOf(before), Lines(last.read));
    }
  }

  lemma NothingRead(m: Meter)
    ensures ReadAll(m, []) == m
  {
  }

  lemma EachAppend(p: Proc, memory: U64, parses: seq<Parse>, last: Parse)
    ensures ParseEach(p, memory, parses + [last]) == ParseProc(ParseEach(p, memory, parses), memory, last.delta, last.read)
  {
    assert (parses + [last])[..|parses|] == parses;
  }

  lemma EachOne(p: Proc, memory: U64, one: Parse)
    ensures ParseEach(p, memory, [one]) == ParseProc(p, memory, one.delta, one.read)
  {
    assert [one][..0] == [];
    assert ParseEach(p, memory, []) == p;
  }

  /** The entry after the packets of a round. */
  lemma EntryAfterPackets(pr: Printer6, s: State, env: Env, pid: int, before: seq<Parse>)
    requires pid in Dispatched(pr, s, env).books.procs
    requires pid in s.books.procs ==> SameButBytes(s.books.procs[pid], ParseEach(NewProc(pid), s.cfg.memory, before))
    ensures SameButBytes(Dispatched(pr, s, env).books.procs[pid],
                         ParseEach(NewProc(pid), s.cfg.memory, if pid in s.books.procs then before else [Parse(env.created(pid), s.meter.delta)]))
  {
    hide Dispatched, ParseProc, ParseEach;
    if pid in s.books.procs {
      PacketsKeepRest(pr, s, env, pid);
    } else {
      CreatedEntry(pr, s, env, pid);
      EachOne(NewProc(pid), s.cfg.memory, Parse(env.created(pid), s.meter.delta));
    }
  }

  lemma EntryAfterRound(pr: Printer6, s: State, env: Env, t: State, pid: int, before: seq<Parse>)
    requires t == Update(pr, s, env) && pid in t.books.procs
    requires pid in s.books.procs ==> SameButBytes(s.books.procs[pid], ParseEach(NewProc(pid), s.cfg.memory, before))
    ensures SameButBytes(t.books.procs[pid], ParseEach(NewProc(pid), s.cfg.memory, RoundParses(pr, s, env, pid, before)))
  {
    hide Update, Dispatched, ReconcileStep, After, ParseProc, ParseEach, SameButBytes, Links;
    UpdateParts(pr, s, env);
    DispatchKeepsFrame(pr, s, env);
    var start := if pid in s.books.procs then before else [Parse(env.created(pid), s.meter.delta)];
    var m := Measured(pr, s, env);
    if !env.cpu.CpuUnopened? {
      ReconcileKeys(m, env.parsed);
      ReconcileEntry(m, env.parsed, pid);
    }
    EntryAfterPackets(pr, s, env, pid, before);
    var p := Dispatched(pr, s, env).books.procs[pid];
    if ParsedAgain(pr, s, env, pid) {
      EachAppend(NewProc(pid), s.cfg.memory, start, Parse(env.parsed(pid), t.meter.delta));
      ParseIgnoresBytes(p, ParseEach(NewProc(pid), s.cfg.memory, start), s.cfg.memory, t.meter.delta, env.parsed(pid));
    } else {
      assert start + [] == start;
    }
  }

  /** The memory size that `Init` reads, if it can. */
  function MemoryOf(b: Boot): U64 { if b.memory.Some? then b.memory.value else 0 }

  lemma BootMemory(b: Boot)
    ensures Configure(FRESH.cfg, b).memory == MemoryOf(b)
  {
  }

  lemma InitEntry(pr: Printer6, b: Boot, pid: int)
    requires pid in Init(pr, FRESH, b).books.procs
    ensures SameButBytes(Init(pr, FRESH, b).books.procs[pid], ParseEach(NewProc(pid), MemoryOf(b), [Parse(b.parsed(pid), 0)]))
  {
    hide Init, ParseProc, ParseEach, Sorted, Additions, Links, BootLinks, Configure;
    InitParts(pr, b);
    BootMemory(b);
    EachOne(NewProc(pid), MemoryOf(b), Parse(b.parsed(pid), 0));
  }

  /** In every run an entry is, but for its byte counters, what its own parses made of a new
      process, with the memory size that `Init` read. */
  lemma {:induction false} RunMakesEntry(pr: Printer6, b: Boot, envs: seq<Env>, pid: int)
    requires pid in Run(pr, b, envs).books.procs
    ensures SameButBytes(Run(pr, b, envs).books.procs[pid], ParseEach(NewProc(pid), MemoryOf(b), RunParses(pr, b, envs, pid)))
    decreases |envs|
  {
    hide Init, Update, RoundParses, ParseEach, SameButBytes, Configure, Links, BootLinks;
    if envs == [] {
      InitEntry(pr, b, pid);
    } else {
      var before := envs[..|envs| - 1];
      RunKeepsFrame(pr, b, before);
      BootMemory(b);
      if pid in Run(pr, b, before).books.procs {
        RunMakesEntry(pr, b, before, pid);
      }
      EntryAfterRound(pr, Run(pr, b, before), envs[|envs| - 1], Run(pr, b, envs), pid, RunParses(pr, b, before, pid));
    }
  }

  // ---------- what the parses leave ----------

  /** Which parses set the copied fields, and which come to the memory share. */
  predicate SetsDescr(parse: Parse) { parse.read.CmdlineFailed? || SetsMemory(parse) }

  predicate SetsMemory(parse: Parse) { parse.read.StatFailed? || SetsShare(parse) }

  predicate SetsShare(parse: Parse) { parse.read.Complete? }

  /** Parse `i` is the last of its kind. */
  predicate IsLast(parses: seq<Parse>, i: int, kind: Parse -> bool) {
    0 <= i < |parses| && kind(parses[i]) && forall j :: i < j < |parses| ==> !kind(parses[j])
  }

  predicate HasNone(parses: seq<Parse>, kind: Parse -> bool) {
    forall j :: 0 <= j < |parses| ==> !kind(parses[j])
  }

  /** The step of the CPU counter at parse `i`. */
  function StepAt(parses: seq<Parse>, i: int): U64
    requires 0 <= i < |parses|
  {
    ReadAll(Meter(0, 0), ReadingsOf(parses[..i + 1])).delta
  }

  /** The copied fields are those of the last parse that set them. */
  ghost predicate DescrTells(d: Descr, parses: seq<Parse>) {
    && (HasNone(parses, SetsDescr) ==> d == NO_DESCR)
    && forall i :: IsLast(parses, i, SetsDescr) ==> d == parses[i].read.descr
  }

  /** The memory share is that of the last parse that came to it. */
  ghost predicate MemoryTells(share: real, memory: U64, parses: seq<Parse>) {
    && (HasNone(parses, SetsMemory) ==> share == 0.0)
    && forall i :: IsLast(parses, i, SetsMemory) ==> IsPercent(share, parses[i].read.descr.memory, memory)
  }

  /** The CPU share is that of the last complete parse: its step over the delta it was given. */
  ghost predicate ShareTells(share: real, parses: seq<Parse>) {
    && (HasNone(parses, SetsShare) ==> share == 0.0)
    && forall i :: IsLast(parses, i, SetsShare) ==> IsPercent(share, StepAt(parses, i), parses[i].delta)
  }

  lemma LastAppend(parses: seq<Parse>, last: Parse, i: int, kind: Parse -> bool)
    ensures IsLast(parses + [last], i, kind) <==> if kind(last) then i == |parses| else IsLast(parses, i, kind)
    ensures HasNone(parses + [last], kind) <==> !kind(last) && HasNone(parses, kind)
  {
    var more := parses + [last];
    assert more[|parses|] == last;
    assert forall j :: 0 <= j < |parses| ==> more[j] == parses[j];
  }

  lemma DescrAppend(d: Descr, parses: seq<Parse>, last: Parse)
    requires if SetsDescr(last) then d == last.read.descr else DescrTells(d, parses)
    ensures DescrTells(d, parses + [last])
  {
    forall i ensures IsLast(parses + [last], i, SetsDescr) <==> if SetsDescr(last) then i == |parses| else IsLast(parses, i, SetsDescr) {
      LastAppend(parses, last, i, SetsDescr);
    }
    LastAppend(parses, last, 0, SetsDescr);
  }

  lemma MemoryAppend(share: real, memory: U64, parses: seq<Parse>, last: Parse)
    requires if SetsMemory(last) then IsPercent(share, last.read.descr.memory, memory) else MemoryTells(share, memory, parses)
    ensures MemoryTells(share, memory, parses + [last])
  {
    hide IsPercent;
    forall i ensures IsLast(parses + [last], i, SetsMemory) <==> if SetsMemory(last) then i == |parses| else IsLast(parses, i, SetsMemory) {
      LastAppend(parses, last, i, SetsMemory);
    }
    LastAppend(parses, last, 0, SetsMemory);
  }

  lemma ShareAppend(share: real, parses: seq<Parse>, last: Parse)
    requires if SetsShare(last) then IsPercent(share, ReadAll(Meter(0, 0), ReadingsOf(parses + [last])).delta, last.delta)
             else ShareTells(share, parses)
    ensures ShareTells(share, parses + [last])
  {
    hide IsPercent, IsLast, HasNone, StepAt, ReadAll, ReadingsOf;
    var more := parses + [last];
    forall i ensures IsLast(more, i, SetsShare) <==> if SetsShare(last) then i == |parses| else IsLast(parses, i, SetsShare) {
      LastAppend(parses, last, i, SetsShare);
    }
    LastAppend(parses, last, 0, SetsShare);
    StepsAppend(parses, last);
    forall i | IsLast(parses, i, SetsShare) ensures 0 <= i < |parses| { LastInRange(parses, i, SetsShare); }
  }

  lemma LastInRange(parses: seq<Parse>, i: int, kind: Parse -> bool)
    requires IsLast(parses, i, kind)
    ensures 0 <= i < |parses|
  {
  }

  lemma StepsAppend(parses: seq<Parse>, last: Parse)
    ensures StepAt(parses + [last], |parses|) == ReadAll(Meter(0, 0), ReadingsOf(parses + [last])).delta
    ensures forall i :: 0 <= i < |parses| ==> StepAt(parses + [last], i) == StepAt(parses, i)
  {
    hide ReadAll, ReadingsOf;
    var more := parses + [last];
    assert more[..|parses| + 1] == more;
    forall i | 0 <= i < |parses| ensures StepAt(more, i) == StepAt(parses, i) {
      assert more[..i + 1] == parses[..i + 1];
    }
  }

  /** What any parses make of a new process. */
  lemma {:induction false} EachTells(pid: int, memory: U64, parses: seq<Parse>)
    requires pid != -1
    ensures var p := ParseEach(NewProc(pid), memory, parses);
            DescrTells(p.descr, parses) && MemoryTells(p.memPercent, memory, parses) && ShareTells(p.cpuPercent, parses)
    decreases |parses|
  {
    hide ParseProc, IsPercent, DescrTells, MemoryTells, ShareTells, ReadAll, ReadingsOf;
    if parses == [] {
      NoParses(memory);
    } else {
      var before, last := parses[..|parses| - 1], parses[|parses| - 1];
      assert before + [last] == parses;
      EachTells(pid, memory, before);
      EachReads(NewProc(pid), memory, before);
      EachReads(NewProc(pid), memory, parses);
      var p := ParseEach(NewProc(pid), memory, before);
      var q := ParseProc(p, memory, last.delta, last.read);
      ParseTellsAll(p, memory, last.delta, last.read);
      DescrAppend(q.descr, before, last);
      MemoryAppend(q.memPercent, memory, before, last);
      ShareAppend(q.cpuPercent, before, last);
    }
  }

  lemma NoParses(memory: U64)
    ensures DescrTells(NO_DESCR, []) && MemoryTells(0.0, memory, []) && ShareTells(0.0, [])
  {
  }

  /** In every run an entry holds the fields and shares of the last of its parses that set them. */
  lemma EntryTells(pr: Printer6, b: Boot, envs: seq<Env>, pid: int)
    requires pid in Run(pr, b, envs).books.procs
    ensures var p := Run(pr, b, envs).books.procs[pid];
            var parses := RunParses(pr, b, envs, pid);
            DescrTells(p.descr, parses) && MemoryTells(p.memPercent, MemoryOf(b), parses) && ShareTells(p.cpuPercent, parses)
  {
    hide Run, RunParses, ParseEach, DescrTells, MemoryTells, ShareTells;
    EntriesAreFiled(pr, b, envs);
    RunMakesEntry(pr, b, envs, pid);
    EachTells(pid, MemoryOf(b), RunParses(pr, b, envs, pid));
  }
}
