/** CPU readings over a run: the deltas telescope, a steady set of processes is never read again,
    and a process that is read again gets a bounded share. */
module CpuShare {
  import opened Text
  import opened Ordered
  import opened Packets
  import opened InodeIndex
  import opened Processes
  import opened Reconcile
  import opened Monitor
  import opened Deliveries
  import opened Runs
  import opened Tracking
  import opened Parses

  // ---------- the system total ----------

  /** The totals that the rounds read. */
  function Totals(envs: seq<Env>): seq<U64> {
    if envs == [] then []
    else
      Totals(envs[..|envs| - 1])
      + (match envs[|envs| - 1].cpu case CpuLine(t) => [t] case CpuUnopened => [] case CpuNoLine => [])
  }

  lemma {:induction false} RunReadsTotals(pr: Printer6, b: Boot, envs: seq<Env>)
    ensures Run(pr, b, envs).meter == ReadAll(Meter(0, 0), Totals(envs))
    decreases |envs|
  {
    hide Init, Update, Dispatched, Measured, ReconcileStep, Links, BootLinks, TrackAll;
    if envs == [] {
      InitParts(pr, b);
    } else {
      var before := envs[..|envs| - 1];
      RunReadsTotals(pr, b, before);
      UpdateParts(pr, Run(pr, b, before), envs[|envs| - 1]);
      match envs[|envs| - 1].cpu
      case CpuLine(t) => assert (Totals(before) + [t])[..|Totals(before)|] == Totals(before);
      case CpuUnopened => assert Totals(before) + [] == Totals(before);
      case CpuNoLine => assert Totals(before) + [] == Totals(before);
    }
  }

  /** Over any run the deltas of the system total add up to the latest total: always modulo 2^64,
      and exactly when the totals never go backwards. */
  lemma SystemDeltasTelescope(pr: Printer6, b: Boot, envs: seq<Env>)
    ensures var sum := DeltaSum(Meter(0, 0), Totals(envs));
            && (sum - Run(pr, b, envs).meter.cpu) % TWO64 == 0
            && (NeverBackwards(0, Totals(envs)) ==> sum == Run(pr, b, envs).meter.cpu)
  {
    hide Run;
    RunReadsTotals(pr, b, envs);
    DeltasTelescope(Meter(0, 0), Totals(envs));
  }

  // ---------- a steady set of processes ----------

  predicate IdleRows(rows: seq<ProcessRow>) {
    forall i :: 0 <= i < |rows| ==> rows[i].cpuPercent == 0.0
  }

  predicate IdleReports(callbacks: seq<Callback>) {
    forall i :: 0 <= i < |callbacks| ==> callbacks[i].Updated? ==> IdleRows(callbacks[i].rows)
  }

  /** The entries are those of `origin` but for their byte counters, and none ever used any CPU. */
  predicate Idle(procs: map<int, Proc>, origin: map<int, Proc>) {
    && procs.Keys == origin.Keys
    && (forall k :: k in procs ==> SameButBytes(procs[k], origin[k]) && procs[k].cpuPercent == 0.0)
  }

  lemma SteadyPackets(pr: Printer6, s: State, env: Env, origin: map<int, Proc>)
    requires Idle(s.books.procs, origin) && Live(env.listing) == origin.Keys
    ensures Idle(Dispatched(pr, s, env).books.procs, origin)
  {
    hide Dispatched, RoundHits, TakeHits, StartRound, Links;
    var t := Dispatched(pr, s, env).books.procs;
    forall k | k in s.books.procs ensures k in t && SameButBytes(t[k], s.books.procs[k]) {
      PacketsKeepRest(pr, s, env, k);
    }
    PacketPhase(pr, s, env);
    HitsAreLive(pr, s.cfg.devices, Links(s.handles), env);
    HitKeys(DeskOf(StartRound(pr, s, env)), s.books.(packetIdx := 0), env.created,
            RoundHits(pr, s.cfg.devices, Links(s.handles), env), Live(env.listing));
    assert t.Keys == origin.Keys;
  }

  lemma SteadyReconcile(s: State, parsed: int -> ProcRead)
    requires s.pids == s.books.procs.Keys
    ensures ReconcileStep(s, parsed) == s
  {
    assert |s.books.procs.Keys| == |s.books.procs|;
  }

  lemma SteadyPublish(s: State, ret: int, origin: map<int, Proc>)
    requires Idle(s.books.procs, origin) && IdleRows(s.processData) && IdleReports(s.callbacks)
    ensures var t := PublishPackets(PublishProcesses(s), ret);
            t.books == s.books && IdleRows(t.processData) && IdleReports(t.callbacks)
  {
    hide Project, Idle, IdleRows, Overwrite, RowOf;
    IdleProjection(s.books.procs, origin);
    IdleOverwrite(s.processData, Project(s.books.procs));
  }

  lemma IdleOverwrite(buffer: seq<ProcessRow>, rows: seq<ProcessRow>)
    requires IdleRows(buffer) && IdleRows(rows)
    ensures IdleRows(Overwrite(buffer, rows))
  {
  }

  lemma IdleProjection(procs: map<int, Proc>, origin: map<int, Proc>)
    requires Idle(procs, origin)
    ensures IdleRows(Project(procs))
  {
    hide Project, Sorted;
    ProjectRows(procs);
  }

  lemma SteadyRound(pr: Printer6, s: State, env: Env, origin: map<int, Proc>)
    requires Idle(s.books.procs, origin) && Live(env.listing) == origin.Keys
    requires IdleRows(s.processData) && IdleReports(s.callbacks)
    ensures var t := Update(pr, s, env);
            Idle(t.books.procs, origin) && IdleRows(t.processData) && IdleReports(t.callbacks)
  {
    hide Dispatched, ReconcileStep, PublishPackets, PublishProcesses, IdleRows, IdleReports;
    SteadyPackets(pr, s, env, origin);
    DispatchKeepsFrame(pr, s, env);
    if !env.cpu.CpuUnopened? {
      var m := Measured(pr, s, env);
      SteadyReconcile(m, env.parsed);
      SteadyPublish(m, LastRet(s, env), origin);
    }
  }

  lemma BornIdle(pid: int, memory: U64, read: ProcRead)
    ensures Born(pid, memory, 0, read).cpuPercent == 0.0
  {
  }

  lemma BornAllIdle(pids: set<int>, memory: U64, parsed: int -> ProcRead)
    ensures var m := map[] + BornAll(pids, memory, 0, parsed); Idle(m, m) && m.Keys == pids
  {
    hide Born;
    forall k ensures Born(k, memory, 0, parsed(k)).cpuPercent == 0.0 {
      BornIdle(k, memory, parsed(k));
    }
  }

  lemma InitIdle(pr: Printer6, b: Boot)
    requires b.devices != []
    ensures var t := Init(pr, FRESH, b);
            && Idle(t.books.procs, t.books.procs) && t.books.procs.Keys == Live(b.listing)
            && IdleRows(t.processData) && IdleReports(t.callbacks)
  {
    hide Init, BornAll, Sorted, Configure, Additions, Links, BootLinks, Idle;
    InitParts(pr, b);
    BornAllIdle(Live(b.listing), Init(pr, FRESH, b).cfg.memory, b.parsed);
  }

  /** If every round lists the pids that `Init` listed, no process is ever parsed again: each
      entry stays as `Init` made it, but for its byte counters, and every row of every update
      reports no CPU use at all. */
  lemma {:induction false} SteadyMonitorSeesNoCpu(pr: Printer6, b: Boot, envs: seq<Env>)
    requires b.devices != []
    requires forall i :: 0 <= i < |envs| ==> Live(envs[i].listing) == Live(b.listing)
    ensures var t := Run(pr, b, envs);
            && Idle(t.books.procs, Init(pr, FRESH, b).books.procs)
            && IdleRows(t.processData) && IdleReports(t.callbacks)
    decreases |envs|
  {
    hide Init, Update, Idle, IdleRows, IdleReports;
    InitIdle(pr, b);
    if envs != [] {
      SteadyMonitorSeesNoCpu(pr, b, envs[..|envs| - 1]);
      SteadyRound(pr, Run(pr, b, envs[..|envs| - 1]), envs[|envs| - 1], Init(pr, FRESH, b).books.procs);
    }
  }

  // ---------- a process that is parsed again ----------

  /** A round that does not parse a process leaves its CPU reading alone. */
  lemma QuietRound(pr: Printer6, s: State, env: Env, pid: int)
    requires pid in s.books.procs && pid in Update(pr, s, env).books.procs
    requires !ParsedAgain(pr, s, env, pid)
    ensures SameButBytes(Update(pr, s, env).books.procs[pid], s.books.procs[pid])
  {
    hide Update, Dispatched, ReconcileStep, After, SameButBytes, ParseProc;
    UpdateParts(pr, s, env);
    PacketsKeepRest(pr, s, env, pid);
    if !env.cpu.CpuUnopened? {
      ReconcileKeys(Measured(pr, s, env), env.parsed);
      ReconcileEntry(Measured(pr, s, env), env.parsed, pid);
    }
  }

  /** The process of entry `p` is parsed by the round from `s` to `t`. */
  predicate ParsingRound(pr: Printer6, s: State, env: Env, t: State, pid: int, p: Proc) {
    && t == Update(pr, s, env) && ParsedAgain(pr, s, env, pid)
    && pid in s.books.procs && s.books.procs[pid] == p
  }

  /** It is reported with the last step along the readings over this round's system delta. */
  predicate StepReported(t: State, pid: int, p: Proc, readings: seq<U64>) {
    var m := ReadAll(MeterOf(p), readings);
    pid in t.books.procs && MeterOf(t.books.procs[pid]) == m && t.books.procs[pid].cpuPercent == Percent(m.delta, t.meter.delta)
  }

  /** A parse in the merge, however far it gets, makes of the entry what it would have made of it
      before the packets, and a complete one reports the last step it reads, whatever the number
      of lines: with none, the old step over the new system delta. */
  lemma ParsingReportsStep(pr: Printer6, s: State, env: Env, t: State, pid: int, p: Proc)
    requires ParsingRound(pr, s, env, t, pid, p)
    ensures pid in t.books.procs
    ensures SameButBytes(t.books.procs[pid], ParseProc(p, s.cfg.memory, t.meter.delta, env.parsed(pid)))
    ensures env.parsed(pid).Complete? && p.pid != -1 ==> StepReported(t, pid, p, env.parsed(pid).readings)
  {
    hide Update, Dispatched, ReconcileStep, After, Percent, ReadAll, ParseProc, SameButBytes, Links;
    UpdateParts(pr, s, env);
    DispatchKeepsFrame(pr, s, env);
    PacketsKeepRest(pr, s, env, pid);
    var m := Measured(pr, s, env);
    ReconcileKeys(m, env.parsed);
    ReconcileEntry(m, env.parsed, pid);
    ParseIgnoresBytes(m.books.procs[pid], p, m.cfg.memory, m.meter.delta, env.parsed(pid));
    CompleteParse(t.books.procs[pid], p, s.cfg.memory, t.meter.delta, env.parsed(pid));
  }

  /** The process stays tracked through the rounds and none of them parses it. */
  predicate Quiet(pr: Printer6, s: State, envs: seq<Env>, pid: int)
    decreases |envs|
  {
    if envs == [] then pid in s.books.procs
    else
      var before := envs[..|envs| - 1];
      && Quiet(pr, s, before, pid)
      && !ParsedAgain(pr, Steps(pr, s, before), envs[|envs| - 1], pid)
      && pid in Steps(pr, s, envs).books.procs
  }

  lemma {:induction false} QuietRounds(pr: Printer6, s: State, envs: seq<Env>, pid: int)
    requires Quiet(pr, s, envs, pid)
    ensures pid in s.books.procs && pid in Steps(pr, s, envs).books.procs
    ensures SameButBytes(Steps(pr, s, envs).books.procs[pid], s.books.procs[pid])
    decreases |envs|
  {
    hide Update, ParsedAgain;
    if envs != [] {
      var before := envs[..|envs| - 1];
      QuietRounds(pr, s, before, pid);
      QuietRound(pr, Steps(pr, s, before), envs[|envs| - 1], pid);
    }
  }

  /** In every round the process uses no more CPU time than the whole system does; `used[i]` is
      what it had used after `i` rounds. */
  predicate WithinSystem(pr: Printer6, s: State, envs: seq<Env>, used: seq<U64>) {
    && |used| == |envs| + 1
    && forall i :: 0 <= i < |envs| ==>
         0 <= used[i + 1] - used[i] <= Steps(pr, s, envs[..i + 1]).meter.cpu - Steps(pr, s, envs[..i]).meter.cpu
  }

  lemma {:induction false} UsedWithin(pr: Printer6, s: State, envs: seq<Env>, used: seq<U64>, n: nat)
    requires WithinSystem(pr, s, envs, used) && n <= |envs|
    ensures 0 <= used[n] - used[0] <= Steps(pr, s, envs[..n]).meter.cpu - s.meter.cpu
  {
    hide Update;
    if n == 0 {
      assert envs[..0] == [];
      assert Steps(pr, s, []) == s;
    } else {
      UsedWithin(pr, s, envs, used, n - 1);
      assert used[n - 1 + 1] - used[n - 1] <= Steps(pr, s, envs[..n - 1 + 1]).meter.cpu - Steps(pr, s, envs[..n - 1]).meter.cpu;
    }
  }

  /** A hundred times one stretch of system time over another. */
  function ShareLimit(since: int, delta: int): real
    requires delta > 0
  {
    (100 * since) as real / delta as real
  }

  lemma PercentBound(part: U64, limit: nat, whole: U64)
    requires part <= limit && whole > 0
    ensures Percent(part, whole) <= ShareLimit(limit, whole)
  {
    var p := part * 100 % TWO64;
    assert p <= part * 100;
    DivMonotone(p as real, (100 * limit) as real, whole as real);
  }

  lemma DivMonotone(x: real, y: real, w: real)
    requires x <= y && w > 0.0
    ensures x / w <= y / w
  {
  }

  /** From `s`, where the process was last read together with the system total, the rounds `envs`
      leave it alone and lead to `t0`; then `last` sees the total advance, parses the process and
      leads to `t`. `used` is the CPU time the process had used, from `s` on, round by round. */
  predicate ReadAgain(pr: Printer6, s: State, envs: seq<Env>, last: Env, t0: State, t: State, pid: int, d: Descr, used: seq<U64>) {
    && t0 == Steps(pr, s, envs) && t == Update(pr, t0, last)
    && pid in s.books.procs && s.books.procs[pid].pid != -1 && Quiet(pr, s, envs, pid)
    && ParsedAgain(pr, t0, last, pid) && t0.meter.cpu < t.meter.cpu
    && WithinSystem(pr, s, envs + [last], used) && used[0] == s.books.procs[pid].cpu
    && last.parsed(pid) == Complete(d, [used[|envs| + 1]])
  }

  /** What the parse reports: the CPU time used since the last reading, over the last round's delta. */
  lemma ShareReported(pr: Printer6, s: State, envs: seq<Env>, last: Env, t0: State, t: State, pid: int, d: Descr, used: seq<U64>)
    returns (part: U64, since: nat, delta: U64)
    requires ReadAgain(pr, s, envs, last, t0, t, pid, d, used)
    ensures pid in t.books.procs
    ensures since == t.meter.cpu - s.meter.cpu && delta == t.meter.cpu - t0.meter.cpu
    ensures part <= since
    ensures t.books.procs[pid].cpuPercent == Percent(part, delta)
  {
    hide Update, ParsedAgain, Percent, Quiet, Steps, WithinSystem;
    var n := |envs| + 1;
    QuietRounds(pr, s, envs, pid);
    WithinLength(pr, s, envs + [last], used);
    LastStep(pr, s, envs, last);
    UsedWithin(pr, s, envs + [last], used, n);
    assert (envs + [last])[..n] == envs + [last];
    assert t0.books.procs[pid].cpu == used[0];
    ParsingReportsStep(pr, t0, last, t, pid, t0.books.procs[pid]);
    OneReading(MeterOf(t0.books.procs[pid]), used[n]);
    SmallStep(used[0], used[n]);
    DeltaOf(pr, t0, last, t);
    part, since, delta := used[n] - used[0], t.meter.cpu - s.meter.cpu, t.meter.delta;
  }

  /** The round from `s` to `t` makes an update, and in it the row of the process shows this share. */
  ghost predicate ShareShown(s: State, t: State, pid: int, share: real) {
    && |s.callbacks| <= |t.callbacks| && Updated(t.processData, |t.books.procs| % TWO32) in t.callbacks[|s.callbacks|..]
    && exists i :: 0 <= i < |t.books.procs| && i < |t.processData|
                   && t.processData[i].pid == pid && t.processData[i].cpuPercent == share
  }

  lemma RoundShowsShare(pr: Printer6, s: State, env: Env, t: State, pid: int)
    requires s.cfg.processCb && !env.cpu.CpuUnopened? && t == Update(pr, s, env)
    requires pid in t.books.procs && t.books.procs[pid].pid == pid
    ensures ShareShown(s, t, pid, t.books.procs[pid].cpuPercent)
  {
    hide Update, Measured, Gone, Removals, PacketPart, Project, Sorted;
    RoundPublishes(pr, s, env, t);
    var rows := Project(t.books.procs);
    ProjectRows(t.books.procs);
    SortedMembers(t.books.procs.Keys);
    var i :| 0 <= i < |Sorted(t.books.procs.Keys)| && Sorted(t.books.procs.Keys)[i] == pid;
    assert rows[i] == RowOf(t.books.procs[pid]);
    assert t.processData[i] == t.processData[..|t.books.procs|][i];
    assert t.callbacks[|s.callbacks|..]
        == Removals(Gone(Measured(pr, s, env))) + [UpdateOf(t.processData, t.books.procs)] + PacketPart(s, env, t);
  }

  lemma SmallStep(from: U64, to: U64)
    requires from <= to
    ensures (to - from) % TWO64 == to - from
  {
  }

  lemma DeltaOf(pr: Printer6, t0: State, last: Env, t: State)
    requires t == Update(pr, t0, last) && t0.meter.cpu < t.meter.cpu
    ensures t.meter.delta == t.meter.cpu - t0.meter.cpu
  {
    hide Update, Dispatched, Measured, ReconcileStep, Links;
    UpdateParts(pr, t0, last);
    if last.cpu.CpuLine? {
      SmallStep(t0.meter.cpu, last.cpu.total);
    }
  }

  /** If in no round a process uses more CPU time than the system, the share reported when it is
      parsed again is at most a hundred times the system time since its last reading over that
      of the last round, and so at most 100 if the last reading was in the round before. */
  lemma ShareIsBounded(pr: Printer6, s: State, envs: seq<Env>, last: Env, t0: State, t: State, pid: int, d: Descr, used: seq<U64>)
    requires ReadAgain(pr, s, envs, last, t0, t, pid, d, used)
    ensures pid in t.books.procs
    ensures t.books.procs[pid].cpuPercent <= ShareLimit(t.meter.cpu - s.meter.cpu, t.meter.cpu - t0.meter.cpu)
    ensures envs == [] ==> t.books.procs[pid].cpuPercent <= 100.0
    ensures t0.cfg.processCb && s.books.procs[pid].pid == pid ==> ShareShown(t0, t, pid, t.books.procs[pid].cpuPercent)
  {
    hide Update, ParsedAgain, Percent, Quiet, WithinSystem, ShareLimit, Steps, ShareShown;
    NoSteps(pr, s);
    if t0.cfg.processCb && s.books.procs[pid].pid == pid {
      ReadAgainShown(pr, s, envs, last, t0, t, pid, d, used);
    }
    var part, since, delta := ShareReported(pr, s, envs, last, t0, t, pid, d, used);
    BoundOf(t.books.procs[pid], part, since, delta);
  }

  lemma ReadAgainShown(pr: Printer6, s: State, envs: seq<Env>, last: Env, t0: State, t: State, pid: int, d: Descr, used: seq<U64>)
    requires ReadAgain(pr, s, envs, last, t0, t, pid, d, used)
    requires t0.cfg.processCb && s.books.procs[pid].pid == pid
    ensures pid in t.books.procs && ShareShown(t0, t, pid, t.books.procs[pid].cpuPercent)
  {
    hide Update, Quiet, WithinSystem, Steps, ShareShown, ParseProc, Measured, After;
    QuietRounds(pr, s, envs, pid);
    ParsingReportsStep(pr, t0, last, t, pid, t0.books.procs[pid]);
    ParseKeepsCounters(t0.books.procs[pid], t0.cfg.memory, t.meter.delta, last.parsed(pid));
    RoundShowsShare(pr, t0, last, t, pid);
  }

  lemma BoundOf(p: Proc, part: U64, limit: nat, whole: U64)
    requires p.cpuPercent == Percent(part, whole) && part <= limit && whole > 0
    ensures p.cpuPercent <= ShareLimit(limit, whole)
    ensures limit == whole ==> p.cpuPercent <= 100.0
  {
    hide Percent, ShareLimit;
    PercentBound(part, limit, whole);
    WholeShare(whole);
  }

  lemma WithinLength(pr: Printer6, s: State, envs: seq<Env>, used: seq<U64>)
    requires WithinSystem(pr, s, envs, used)
    ensures |used| == |envs| + 1
  {
  }

  lemma WholeShare(w: nat)
    requires w > 0
    ensures ShareLimit(w, w) == 100.0
  {
    Cancel(100.0, w as real);
  }

  lemma Cancel(c: real, x: real)
    requires x > 0.0
    ensures c * x / x == c
  {
  }

  // ---------- the readings of one process over a run ----------

  /** All readings that reach the current entry of a process. */
  function RunReadings(pr: Printer6, b: Boot, envs: seq<Env>, pid: int): seq<U64> {
    ReadingsOf(RunParses(pr, b, envs, pid))
  }

  /** In every run the counter of a tracked process has gone through exactly its own readings. */
  lemma RunReadsProcess(pr: Printer6, b: Boot, envs: seq<Env>, pid: int)
    requires pid in Run(pr, b, envs).books.procs
    ensures MeterOf(Run(pr, b, envs).books.procs[pid]) == ReadAll(Meter(0, 0), RunReadings(pr, b, envs, pid))
  {
    hide Run, RunParses;
    EntriesAreFiled(pr, b, envs);
    RunMakesEntry(pr, b, envs, pid);
    EachReads(NewProc(pid), MemoryOf(b), RunParses(pr, b, envs, pid));
  }

  /** Over any run the CPU deltas of a tracked process, over all parses of its current entry
      however far apart, add up to its latest utime+stime: always modulo 2^64, and exactly when its
      readings never go backwards. */
  lemma ProcessDeltasTelescope(pr: Printer6, b: Boot, envs: seq<Env>, pid: int)
    requires pid in Run(pr, b, envs).books.procs
    ensures var cpu := Run(pr, b, envs).books.procs[pid].cpu;
            var readings := RunReadings(pr, b, envs, pid);
            var sum := DeltaSum(Meter(0, 0), readings);
            && (sum - cpu) % TWO64 == 0
            && (NeverBackwards(0, readings) ==> sum == cpu)
  {
    hide Run, RunReadings;
    RunReadsProcess(pr, b, envs, pid);
    DeltasTelescope(Meter(0, 0), RunReadings(pr, b, envs, pid));
  }

  // ---------- a process that a packet makes known ----------

  lemma PercentExceeds(part: U64, whole: U64)
    requires part * 100 < TWO64
    ensures Percent(part, whole) > 100.0 <==> 0 < whole < part
  {
    if whole > 0 {
      PercentIsExact(part, whole);
      Exceeds(Percent(part, whole), part as real, whole as real);
    }
  }

  lemma Exceeds(x: real, p: real, w: real)
    requires w > 0.0 && x * w == 100.0 * p
    ensures x > 100.0 <==> w < p
  {
    if x > 100.0 { assert x * w > 100.0 * w; }
    if x <= 100.0 { assert x * w <= 100.0 * w; }
  }

  /** The share of a process that a packet made known, and that this round does not parse again,
      is its whole lifetime's CPU time over an earlier round's system delta: it exceeds 100 exactly
      when the process ever used more than that delta. */
  lemma CreatedShare(pr: Printer6, s: State, env: Env, t: State, pid: int, d: Descr, now: U64)
    requires t == Update(pr, s, env) && pid != -1
    requires pid !in s.books.procs && pid in t.books.procs && !ParsedAgain(pr, s, env, pid)
    requires env.created(pid) == Complete(d, [now])
    ensures t.books.procs[pid].cpu == now && t.books.procs[pid].cpuPercent == Percent(now, s.meter.delta)
    ensures now * 100 < TWO64 ==> (t.books.procs[pid].cpuPercent > 100.0 <==> 0 < s.meter.delta < now)
    ensures s.cfg.processCb && !env.cpu.CpuUnopened? ==> ShareShown(s, t, pid, Percent(now, s.meter.delta))
  {
    hide Update, Dispatched, ReconcileStep, After, Percent, ReadAll, ParseProc, Links, Born, ShareShown;
    BornPid(pid, s.cfg.memory, s.meter.delta, env.created(pid));
    UpdateParts(pr, s, env);
    if !env.cpu.CpuUnopened? {
      ReconcileKeys(Measured(pr, s, env), env.parsed);
      ReconcileEntry(Measured(pr, s, env), env.parsed, pid);
    }
    CreatedEntry(pr, s, env, pid);
    BornMeter(pid, s.cfg.memory, s.meter.delta, env.created(pid));
    OneReading(Meter(0, 0), now);
    SmallStep(0, now);
    if now * 100 < TWO64 { PercentExceeds(now, s.meter.delta); }
    if s.cfg.processCb && !env.cpu.CpuUnopened? { RoundShowsShare(pr, s, env, t, pid); }
  }

  // ---------- an instance ----------

  /** Processes 1 and 2 are tracked, at system time 0 and with no CPU time used. */
  function TwoTracked(): State {
    FRESH.(cfg := FRESH.cfg.(processCb := true), books := FRESH.books.(procs := map[1 := NewProc(1), 2 := NewProc(2)]))
  }

  /** A round in which process 2 is gone, the system has advanced by 10 and process 1 by 5. */
  function SecondGone(): Env {
    Env(Some({1}), NoTables(), map[], i => Dispatch([], 0), CpuLine(10), p => StatusFailed, p => Complete(NO_DESCR, [5]))
  }

  function NoTables(): Tables { Tables(None, None, None, None) }

  lemma InstanceMeasured(pr: Printer6)
    ensures var m := Measured(pr, TwoTracked(), SecondGone());
            m.pids == {1} && m.books.procs == map[1 := NewProc(1), 2 := NewProc(2)] && m.meter == Meter(10, 10)
  {
    hide BuildIndex;
    assert (10 - 0) % TWO64 == 10;
  }

  lemma InstanceParsed(pr: Printer6)
    ensures ParsedAgain(pr, TwoTracked(), SecondGone(), 1)
  {
    hide Measured, After;
    InstanceMeasured(pr);
    OneGoneOfTwo();
    var m := Measured(pr, TwoTracked(), SecondGone());
    assert m.books.procs.Keys == {1, 2};
    assert |m.books.procs| == |m.books.procs.Keys|;
  }

  lemma InstanceMeter(pr: Printer6)
    ensures Update(pr, TwoTracked(), SecondGone()).meter == Meter(10, 10)
  {
    hide Update, Dispatched, Measured, ReconcileStep, Links;
    UpdateParts(pr, TwoTracked(), SecondGone());
    assert (10 - 0) % TWO64 == 10;
  }

  lemma InstanceWithin(pr: Printer6, s: State, env: Env)
    requires s.meter.cpu == 0 && Update(pr, s, env).meter.cpu == 10
    ensures WithinSystem(pr, s, [] + [env], [0, 5])
  {
    hide Update;
    LastStep(pr, s, [], env);
    NoSteps(pr, s);
    assert ([] + [env])[..1] == [] + [env] && ([] + [env])[..0] == [];
  }

  lemma HalfIsFifty()
    ensures Percent((5 - 0) % TWO64, 10) == 50.0
  {
    assert 5 % TWO64 == 5 && 500 % TWO64 == 500;
  }

  /** The hypotheses of the bound are met, and process 1 is reported with half the system's time. */
  lemma ShareInstance(pr: Printer6, s: State, t: State)
    requires s == TwoTracked() && t == Update(pr, s, SecondGone())
    ensures ReadAgain(pr, s, [], SecondGone(), s, t, 1, NO_DESCR, [0, 5])
    ensures 1 in t.books.procs && t.books.procs[1].cpuPercent == 50.0 && ShareShown(s, t, 1, 50.0)
  {
    hide Update, Measured, ParsedAgain, WithinSystem, Percent, ShareShown;
    InstanceParsed(pr);
    InstanceMeter(pr);
    InstanceWithin(pr, s, SecondGone());
    NoSteps(pr, s);
    ParsingReportsStep(pr, s, SecondGone(), t, 1, NewProc(1));
    OneReading(Meter(0, 0), 5);
    HalfIsFifty();
    ShareIsBounded(pr, s, [], SecondGone(), s, t, 1, NO_DESCR, [0, 5]);
  }

  lemma OneGoneOfTwo()
    ensures |{1}| == 1 && |{1, 2}| == 2 && 1 in After({1}, {1, 2})
  {
    assert |{1, 2}| == 2;
    assert Survives({1}, {1, 2}, 1);
  }
}
