/** Which processes are tracked over a run, and what is published about them. */
module Tracking {
  import opened Text
  import opened Ordered
  import opened Packets
  import opened InodeIndex
  import opened Processes
  import opened Reconcile
  import opened Monitor
  import opened Deliveries
  import opened Runs

  // ---------- additions and erasures alternate ----------

  function Balance(life: seq<Life>, pid: int): int {
    if life == [] then 0
    else
      Balance(life[..|life| - 1], pid)
      + (match life[|life| - 1]
         case Added(p) => if p == pid then 1 else 0
         case Erased(p, _, _) => if p == pid then -1 else 0)
  }

  /** Every addition of `pid` finds it absent and every erasure finds it present. */
  predicate Alternates(life: seq<Life>, pid: int) {
    life == [] ||
    (var before := life[..|life| - 1];
     && Alternates(before, pid)
     && match life[|life| - 1]
        case Added(p) => p == pid ==> Balance(before, pid) == 0
        case Erased(p, _, _) => p == pid ==> Balance(before, pid) == 1)
  }

  /** The trace and the entries agree about `pid`. */
  predicate Agrees(b: Books, pid: int) {
    Alternates(b.life, pid) && Balance(b.life, pid) == if pid in b.procs then 1 else 0
  }

  lemma AddOne(life: seq<Life>, p: int, pid: int)
    requires Alternates(life, pid) && (p == pid ==> Balance(life, pid) == 0)
    ensures Alternates(life + [Added(p)], pid)
    ensures Balance(life + [Added(p)], pid) == Balance(life, pid) + if p == pid then 1 else 0
  {
    assert (life + [Added(p)])[..|life|] == life;
  }

  lemma EraseOne(life: seq<Life>, p: int, q: Proc, pid: int)
    requires Alternates(life, pid) && (p == pid ==> Balance(life, pid) == 1)
    ensures Alternates(life + [ErasureOf(p, q)], pid)
    ensures Balance(life + [ErasureOf(p, q)], pid) == Balance(life, pid) - if p == pid then 1 else 0
  {
    assert (life + [ErasureOf(p, q)])[..|life|] == life;
  }

  lemma {:induction false} AddAll(life: seq<Life>, ps: seq<int>, pid: int)
    requires Ascending(ps) && Alternates(life, pid) && (pid in ps ==> Balance(life, pid) == 0)
    ensures Alternates(life + Additions(ps), pid)
    ensures Balance(life + Additions(ps), pid) == Balance(life, pid) + if pid in ps then 1 else 0
    decreases |ps|
  {
    hide Alternates, Balance;
    if ps == [] {
      assert life + Additions(ps) == life;
    } else {
      var n := |ps| - 1;
      AddAll(life, ps[..n], pid);
      AddOne(life + Additions(ps[..n]), ps[n], pid);
      assert ps == ps[..n] + [ps[n]];
      assert life + Additions(ps) == life + Additions(ps[..n]) + [Added(ps[n])];
    }
  }

  lemma {:induction false} EraseAll(life: seq<Life>, procs: map<int, Proc>, ks: seq<int>, pid: int)
    requires Ascending(ks) && Within(ks, procs) && Alternates(life, pid) && (pid in ks ==> Balance(life, pid) == 1)
    ensures Alternates(life + Erasures(procs, ks), pid)
    ensures Balance(life + Erasures(procs, ks), pid) == Balance(life, pid) - if pid in ks then 1 else 0
    decreases |ks|
  {
    hide Alternates, Balance;
    if ks == [] {
      assert life + Erasures(procs, ks) == life;
    } else {
      var n := |ks| - 1;
      assert ks == ks[..n] + [ks[n]];
      EraseAll(life, procs, ks[..n], pid);
      EraseOne(life + Erasures(procs, ks[..n]), ks[n], procs[ks[n]], pid);
      assert life + Erasures(procs, ks) == life + Erasures(procs, ks[..n]) + [ErasureOf(ks[n], procs[ks[n]])];
    }
  }

  lemma {:induction false} HitsAgree(d: Desk, b: Books, created: int -> ProcRead, hits: seq<Hit>, pid: int)
    requires Agrees(b, pid)
    ensures Agrees(TakeHits(d, b, created, hits), pid)
    decreases |hits|
  {
    hide Credit, EntryFor, FileRow, Alternates, Balance;
    if hits != [] {
      var hit := hits[|hits| - 1];
      var t := TakeHits(d, b, created, hits[..|hits| - 1]);
      HitsAgree(d, b, created, hits[..|hits| - 1], pid);
      if hit.pid !in t.procs {
        AddOne(t.life, hit.pid, pid);
      }
    }
  }

  lemma ReconcileAgrees(s: State, parsed: int -> ProcRead, pid: int)
    requires Agrees(s.books, pid)
    ensures Agrees(ReconcileStep(s, parsed).books, pid)
  {
    hide ParseProc, Alternates, Balance, Doomed, Removals, Erasures;
    if |s.pids| != |s.books.procs| {
      var doomed := Doomed(s.pids, s.books.procs);
      EraseAll(s.books.life, s.books.procs, doomed, pid);
    }
  }

  lemma RoundAgrees(pr: Printer6, s: State, env: Env, pid: int)
    requires Agrees(s.books, pid)
    ensures Agrees(Update(pr, s, env).books, pid)
  {
    hide Alternates, Balance, Dispatched, ReconcileStep, Update, RoundHits, TakeHits, StartRound, Links;
    PacketPhase(pr, s, env);
    HitsAgree(DeskOf(StartRound(pr, s, env)), s.books.(packetIdx := 0), env.created,
              RoundHits(pr, s.cfg.devices, Links(s.handles), env), pid);
    UpdateParts(pr, s, env);
    ReconcileAgrees(Measured(pr, s, env), env.parsed, pid);
  }

  lemma InitAgrees(pr: Printer6, b: Boot, pid: int)
    ensures Agrees(Init(pr, FRESH, b).books, pid)
  {
    hide Init, Sorted, Born, Configure;
    InitParts(pr, b);
    SortedMembers(Live(b.listing));
    AddAll([], Sorted(Live(b.listing)), pid);
  }

  /** In the trace of every run each pid's additions and erasures alternate, beginning with an
      addition, and one addition is outstanding exactly when the pid is tracked. */
  lemma {:induction false} TrackingAlternates(pr: Printer6, b: Boot, envs: seq<Env>, pid: int)
    ensures var t := Run(pr, b, envs).books;
            && Alternates(t.life, pid)
            && Balance(t.life, pid) == (if pid in t.procs then 1 else 0)
    decreases |envs|
  {
    hide Init, Update, Alternates, Balance;
    if envs == [] {
      InitAgrees(pr, b, pid);
    } else {
      TrackingAlternates(pr, b, envs[..|envs| - 1], pid);
      RoundAgrees(pr, Run(pr, b, envs[..|envs| - 1]), envs[|envs| - 1], pid);
    }
  }

  // ---------- entries ----------

  /** Every entry is filed under its own pid, and that pid is one of `known`. */
  ghost predicate WellFiled(procs: map<int, Proc>, known: set<int>) {
    forall k :: k in procs ==> procs[k].pid == k && k in known
  }

  /** All pids listed by `Init` and the rounds. */
  function EverListed(b: Boot, envs: seq<Env>): (known: set<int>)
    ensures forall k :: k in known ==> 0 <= k < 0x8000_0000
    decreases |envs|
  {
    if envs == [] then Live(b.listing)
    else EverListed(b, envs[..|envs| - 1]) + Live(envs[|envs| - 1].listing)
  }

  lemma {:induction false} HitsFiled(d: Desk, b: Books, created: int -> ProcRead, hits: seq<Hit>, known: set<int>)
    requires WellFiled(b.procs, known)
    requires forall i :: 0 <= i < |hits| ==> hits[i].pid in known
    ensures WellFiled(TakeHits(d, b, created, hits).procs, known)
    decreases |hits|
  {
    hide FileRow, Born;
    if hits != [] {
      var hit := hits[|hits| - 1];
      var t := TakeHits(d, b, created, hits[..|hits| - 1]);
      HitsFiled(d, b, created, hits[..|hits| - 1], known);
      BornPid(hit.pid, d.memory, d.deltaCpu, created(hit.pid));
      CreditAdds(EntryFor(t.procs, d.memory, d.deltaCpu, created, hit.pid), hit.outgoing, hit.len);
    }
  }

  lemma ReconcileFiled(s: State, parsed: int -> ProcRead, known: set<int>)
    requires WellFiled(s.books.procs, known)
    ensures WellFiled(ReconcileStep(s, parsed).books.procs, known)
  {
    hide ParseProc, Doomed, Removals, Erasures;
    forall k | k in s.books.procs ensures ParseProc(s.books.procs[k], s.cfg.memory, s.meter.delta, parsed(k)).pid == k {
      ParseKeepsCounters(s.books.procs[k], s.cfg.memory, s.meter.delta, parsed(k));
    }
  }

  lemma RoundFiled(pr: Printer6, s: State, env: Env, known: set<int>)
    requires WellFiled(s.books.procs, known)
    ensures WellFiled(Update(pr, s, env).books.procs, known + Live(env.listing))
  {
    hide Dispatched, ReconcileStep, Update, RoundHits, TakeHits, StartRound, Links;
    var more := known + Live(env.listing);
    PacketPhase(pr, s, env);
    HitsAreLive(pr, s.cfg.devices, Links(s.handles), env);
    HitsFiled(DeskOf(StartRound(pr, s, env)), s.books.(packetIdx := 0), env.created,
              RoundHits(pr, s.cfg.devices, Links(s.handles), env), more);
    UpdateParts(pr, s, env);
    ReconcileFiled(Measured(pr, s, env), env.parsed, more);
  }

  /** In every run each entry holds the process it is filed under, and only pids that `Init` or
      some round listed are ever tracked. */
  lemma {:induction false} EntriesAreFiled(pr: Printer6, b: Boot, envs: seq<Env>)
    ensures WellFiled(Run(pr, b, envs).books.procs, EverListed(b, envs))
    decreases |envs|
  {
    hide Init, Update, Born, Configure;
    if envs == [] {
      InitParts(pr, b);
      forall k ensures Born(k, Init(pr, FRESH, b).cfg.memory, 0, b.parsed(k)).pid == k {
        BornPid(k, Init(pr, FRESH, b).cfg.memory, 0, b.parsed(k));
      }
    } else {
      EntriesAreFiled(pr, b, envs[..|envs| - 1]);
      RoundFiled(pr, Run(pr, b, envs[..|envs| - 1]), envs[|envs| - 1], EverListed(b, envs[..|envs| - 1]));
    }
  }

  /** A round tracks a new process only if the round listed it. */
  lemma NewEntriesAreLive(pr: Printer6, s: State, env: Env)
    ensures forall k :: k in Update(pr, s, env).books.procs && k !in s.books.procs ==> k in Live(env.listing)
  {
    hide Dispatched, ReconcileStep, Update, RoundHits, TakeHits, StartRound, Links;
    PacketPhase(pr, s, env);
    HitsAreLive(pr, s.cfg.devices, Links(s.handles), env);
    HitKeys(DeskOf(StartRound(pr, s, env)), s.books.(packetIdx := 0), env.created,
            RoundHits(pr, s.cfg.devices, Links(s.handles), env), Live(env.listing));
    UpdateParts(pr, s, env);
    ReconcileKeys(Measured(pr, s, env), env.parsed);
  }

  lemma {:induction false} HitKeys(d: Desk, b: Books, created: int -> ProcRead, hits: seq<Hit>, pids: set<int>)
    requires forall i :: 0 <= i < |hits| ==> hits[i].pid in pids
    ensures b.procs.Keys <= TakeHits(d, b, created, hits).procs.Keys <= b.procs.Keys + pids
    decreases |hits|
  {
    hide FileRow, EntryFor, Credit;
    if hits != [] {
      HitKeys(d, b, created, hits[..|hits| - 1], pids);
    }
  }

  /** What a reconcile keeps, in terms of the two sets. */
  lemma ReconcileKeys(s: State, parsed: int -> ProcRead)
    ensures ReconcileStep(s, parsed).books.procs.Keys == After(s.pids, s.books.procs.Keys)
  {
    hide ParseProc, Removals, Erasures, Kept, Walk, Sorted;
    var K := s.books.procs.Keys;
    assert |K| == |s.books.procs|;
    if |s.pids| != |K| {
      WalkMeaning(s.pids, K);
      SortedMembers(K - Kept(s.pids, K));
      KeptAreTracked(s.pids, K);
    }
  }

  lemma KeptAreTracked(P: set<int>, K: set<int>)
    ensures Kept(P, K) <= K
  {
  }

  // ---------- erasures and REMOVE callbacks ----------

  /** The tracked pids that a reconcile does not keep, ascending. */
  function Gone(s: State): seq<int> {
    Sorted(s.books.procs.Keys - After(s.pids, s.books.procs.Keys))
  }

  /** A reconcile erases exactly the tracked pids that do not stay, each once and by ascending
      pid, and with a process callback reports exactly these. */
  lemma RemovalsAreErasures(s: State, parsed: int -> ProcRead)
    ensures var gone := Gone(s);
            var t := ReconcileStep(s, parsed);
            && Within(gone, s.books.procs)
            && t.books.life == s.books.life + Erasures(s.books.procs, gone)
            && t.callbacks == s.callbacks + (if s.cfg.processCb then Removals(gone) else [])
  {
    hide Reparsed, Doomed, After, Sorted, Erasures, Removals;
    DoomedIs(s.pids, s.books.procs);
    if |s.pids| == |s.books.procs| {
      NothingDoomed(s.pids, s.books.procs);
      assert s.books.life + [] == s.books.life;
    }
    assert s.callbacks + [] == s.callbacks;
  }

  lemma DoomedIs(pids: set<int>, procs: map<int, Proc>)
    ensures Doomed(pids, procs) == Sorted(procs.Keys - After(pids, procs.Keys))
  {
    hide Kept, Walk, Sorted;
    assert |procs.Keys| == |procs|;
    if |pids| == |procs| {
      assert procs.Keys - procs.Keys == {};
      NoneSorted();
    } else {
      WalkMeaning(pids, procs.Keys);
    }
  }

  lemma NothingDoomed(pids: set<int>, procs: map<int, Proc>)
    requires |pids| == |procs|
    ensures Doomed(pids, procs) == [] && Erasures(procs, []) == [] && Removals([]) == []
  {
  }

  lemma NoneSorted()
    ensures Sorted({}) == []
  {
  }

  /** The pids of the REMOVE callbacks, in order. */
  function RemovedPids(callbacks: seq<Callback>): seq<int> {
    if callbacks == [] then []
    else
      RemovedPids(callbacks[..|callbacks| - 1])
      + (match callbacks[|callbacks| - 1] case Removed(pid) => [pid] case Updated(_, _) => [] case Reported(_, _) => [])
  }

  /** The pids of the erasures, in order. */
  function ErasedPids(life: seq<Life>): seq<int> {
    if life == [] then []
    else
      ErasedPids(life[..|life| - 1])
      + (match life[|life| - 1] case Added(_) => [] case Erased(pid, _, _) => [pid])
  }

  lemma {:induction false} RemovedAppend(a: seq<Callback>, b: seq<Callback>)
    ensures RemovedPids(a + b) == RemovedPids(a) + RemovedPids(b)
    decreases |b|
  {
    if b == [] {
      assert a + b == a;
    } else {
      RemovedAppend(a, b[..|b| - 1]);
      assert (a + b)[..|a + b| - 1] == a + b[..|b| - 1];
    }
  }

  lemma {:induction false} ErasedAppend(a: seq<Life>, b: seq<Life>)
    ensures ErasedPids(a + b) == ErasedPids(a) + ErasedPids(b)
    decreases |b|
  {
    if b == [] {
      assert a + b == a;
    } else {
      ErasedAppend(a, b[..|b| - 1]);
      assert (a + b)[..|a + b| - 1] == a + b[..|b| - 1];
    }
  }

  lemma {:induction false} RemovalPids(ks: seq<int>)
    ensures RemovedPids(Removals(ks)) == ks
  {
    if ks != [] {
      RemovalPids(ks[..|ks| - 1]);
      assert Removals(ks)[..|Removals(ks)| - 1] == Removals(ks[..|ks| - 1]);
    }
  }

  lemma {:induction false} ErasurePids(procs: map<int, Proc>, ks: seq<int>)
    requires Within(ks, procs)
    ensures ErasedPids(Erasures(procs, ks)) == ks
  {
    if ks != [] {
      hide ErasedPids;
      var n := |ks| - 1;
      ErasurePids(procs, ks[..n]);
      ErasedAppend(Erasures(procs, ks[..n]), [ErasureOf(ks[n], procs[ks[n]])]);
      OneErased(ks[n], procs[ks[n]]);
    }
  }

  lemma OneErased(k: int, p: Proc)
    ensures ErasedPids([ErasureOf(k, p)]) == [k]
  {
    assert ErasedPids([]) == [];
  }

  lemma {:induction false} AdditionsEraseNone(ps: seq<int>)
    ensures ErasedPids(Additions(ps)) == []
  {
    if ps != [] {
      AdditionsEraseNone(ps[..|ps| - 1]);
      assert Additions(ps)[..|Additions(ps)| - 1] == Additions(ps[..|ps| - 1]);
    }
  }

  lemma {:induction false} HitsEraseNone(d: Desk, b: Books, created: int -> ProcRead, hits: seq<Hit>)
    ensures ErasedPids(TakeHits(d, b, created, hits).life) == ErasedPids(b.life)
    decreases |hits|
  {
    hide FileRow, EntryFor, Credit, ErasedPids;
    if hits != [] {
      var hit := hits[|hits| - 1];
      var t := TakeHits(d, b, created, hits[..|hits| - 1]);
      HitsEraseNone(d, b, created, hits[..|hits| - 1]);
      ErasedAppend(t.life, [Added(hit.pid)]);
      AddedErasesNone(hit.pid);
    }
  }

  lemma AddedErasesNone(pid: int)
    ensures ErasedPids([Added(pid)]) == []
  {
    assert ErasedPids([]) == [];
  }

  /** The packet report of a full round from `s` to `t`. */
  function PacketPart(s: State, env: Env, t: State): seq<Callback> {
    if s.cfg.packetCb && s.handles != [] && env.dispatch(|s.handles| - 1).ret > 0 && t.books.packetData != []
    then [Reported(t.books.packetData, env.dispatch(|s.handles| - 1).ret)] else []
  }

  /** The update of `procs` from the buffer. */
  function UpdateOf(rows: seq<ProcessRow>, procs: map<int, Proc>): Callback { Updated(rows, |procs| % TWO32) }

  /** The callbacks of a full round: its removals, its update, its packet report. */
  lemma RoundCallbacks(pr: Printer6, s: State, env: Env, t: State)
    requires s.cfg.processCb && !env.cpu.CpuUnopened? && t == Update(pr, s, env)
    ensures t.callbacks == s.callbacks + Removals(Gone(Measured(pr, s, env)))
                           + [UpdateOf(t.processData, t.books.procs)] + PacketPart(s, env, t)
  {
    hide Dispatched, ReconcileStep, Project, Overwrite, Removals, Erasures, Gone, Links;
    DispatchKeepsFrame(pr, s, env);
    ReconcileKeepsFrame(Measured(pr, s, env), env.parsed);
    RemovalsAreErasures(Measured(pr, s, env), env.parsed);
  }

  /** Callbacks and trace agree about who was erased. */
  predicate TellsErasures(s: State) {
    RemovedPids(s.callbacks) == if s.cfg.processCb then ErasedPids(s.books.life) else []
  }

  lemma PublishRemovesNone(rows: seq<ProcessRow>, size: U32, packets: seq<PacketRow>, n: int)
    ensures RemovedPids([Updated(rows, size)]) == [] && RemovedPids([Reported(packets, n)]) == [] && RemovedPids([]) == []
  {
    assert RemovedPids([]) == [];
  }

  lemma ReconcileTells(s: State, parsed: int -> ProcRead)
    requires TellsErasures(s)
    ensures TellsErasures(ReconcileStep(s, parsed))
  {
    hide ReconcileStep, RemovedPids, ErasedPids, Removals, Erasures, Gone;
    var gone := Gone(s);
    RemovalsAreErasures(s, parsed);
    ReconcileKeepsFrame(s, parsed);
    ErasedAppend(s.books.life, Erasures(s.books.procs, gone));
    ErasurePids(s.books.procs, gone);
    RemovedAppend(s.callbacks, Removals(gone));
    RemovalPids(gone);
    assert s.callbacks + [] == s.callbacks;
  }

  lemma PublishTells(s: State, ret: int)
    requires TellsErasures(s)
    ensures TellsErasures(PublishPackets(PublishProcesses(s), ret))
  {
    hide RemovedPids, ErasedPids, Project, Overwrite;
    var p := PublishProcesses(s);
    PublishRemovesNone(p.processData, |s.books.procs| % TWO32, p.books.packetData, ret);
    RemovedAppend(s.callbacks, [Updated(p.processData, |s.books.procs| % TWO32)]);
    RemovedAppend(p.callbacks, [Reported(p.books.packetData, ret)]);
  }

  lemma RoundTells(pr: Printer6, s: State, env: Env)
    requires TellsErasures(s)
    ensures TellsErasures(Update(pr, s, env))
  {
    hide Dispatched, ReconcileStep, PublishProcesses, PublishPackets, RoundHits, TakeHits, StartRound, Links, RemovedPids, ErasedPids;
    DispatchKeepsFrame(pr, s, env);
    PacketPhase(pr, s, env);
    HitsEraseNone(DeskOf(StartRound(pr, s, env)), s.books.(packetIdx := 0), env.created,
                  RoundHits(pr, s.cfg.devices, Links(s.handles), env));
    if !env.cpu.CpuUnopened? {
      var m := Measured(pr, s, env);
      ReconcileTells(m, env.parsed);
      PublishTells(ReconcileStep(m, env.parsed), LastRet(s, env));
    }
  }

  lemma InitTells(pr: Printer6, b: Boot)
    ensures TellsErasures(Init(pr, FRESH, b))
  {
    hide Init, Sorted, BornAll, Additions, Links, BootLinks;
    InitParts(pr, b);
    AdditionsEraseNone(Sorted(Live(b.listing)));
    assert [] + Additions(Sorted(Live(b.listing))) == Additions(Sorted(Live(b.listing)));
  }

  /** Over every run with a process callback the REMOVE callbacks are exactly the erasures, in
      order; without one there are none. */
  lemma {:induction false} RunRemovalsAreErasures(pr: Printer6, b: Boot, envs: seq<Env>)
    ensures var t := Run(pr, b, envs);
            RemovedPids(t.callbacks) == if b.processCb then ErasedPids(t.books.life) else []
    decreases |envs|
  {
    hide Init, Update, RemovedPids, ErasedPids;
    RunKeepsFrame(pr, b, envs);
    if envs == [] {
      InitTells(pr, b);
    } else {
      RunKeepsFrame(pr, b, envs[..|envs| - 1]);
      RunRemovalsAreErasures(pr, b, envs[..|envs| - 1]);
      RoundTells(pr, Run(pr, b, envs[..|envs| - 1]), envs[|envs| - 1]);
    }
  }

  // ---------- without callbacks ----------

  /** Only what has a callback is reported, or buffered. */
  ghost predicate Silent(s: State) {
    && (forall i :: 0 <= i < |s.callbacks| ==> if s.callbacks[i].Reported? then s.cfg.packetCb else s.cfg.processCb)
    && (!s.cfg.packetCb ==> s.books.packetData == [])
    && (!s.cfg.processCb ==> s.processData == [])
  }

  lemma {:induction false} HitsNotFiled(d: Desk, b: Books, created: int -> ProcRead, hits: seq<Hit>)
    requires !d.packetCb
    ensures TakeHits(d, b, created, hits).packetData == b.packetData
    decreases |hits|
  {
    hide Credit, EntryFor;
    if hits != [] { HitsNotFiled(d, b, created, hits[..|hits| - 1]); }
  }

  lemma DispatchedIsSilent(pr: Printer6, s: State, env: Env)
    requires Silent(s)
    ensures Silent(Dispatched(pr, s, env))
  {
    hide Dispatched, RoundHits, TakeHits, Links, BuildIndex;
    DispatchKeepsFrame(pr, s, env);
    PacketPhase(pr, s, env);
    if !s.cfg.packetCb {
      HitsNotFiled(DeskOf(StartRound(pr, s, env)), s.books.(packetIdx := 0), env.created,
                   RoundHits(pr, s.cfg.devices, Links(s.handles), env));
    }
  }

  lemma ReconcileIsSilent(s: State, parsed: int -> ProcRead)
    requires Silent(s)
    ensures Silent(ReconcileStep(s, parsed))
  {
    hide ReconcileStep, Gone, Erasures;
    RemovalsAreErasures(s, parsed);
    ReconcileKeepsFrame(s, parsed);
    RemovalsRemove(Gone(s));
  }

  lemma {:induction false} RemovalsRemove(ks: seq<int>)
    ensures forall i :: 0 <= i < |Removals(ks)| ==> Removals(ks)[i].Removed?
  {
    if ks != [] { RemovalsRemove(ks[..|ks| - 1]); }
  }

  lemma PublishIsSilent(s: State, ret: int)
    requires Silent(s)
    ensures Silent(PublishPackets(PublishProcesses(s), ret))
  {
    hide Project, Overwrite;
  }

  lemma RoundIsSilent(pr: Printer6, s: State, env: Env)
    requires Silent(s)
    ensures Silent(Update(pr, s, env))
  {
    hide Dispatched, ReconcileStep, PublishPackets, PublishProcesses;
    DispatchedIsSilent(pr, s, env);
    if !env.cpu.CpuUnopened? {
      ReconcileIsSilent(Measured(pr, s, env), env.parsed);
      PublishIsSilent(ReconcileStep(Measured(pr, s, env), env.parsed), LastRet(s, env));
    }
  }

  /** Over every run there is no removal and no update without a process callback, and no packet
      report without a packet callback. */
  lemma {:induction false} RunIsSilent(pr: Printer6, b: Boot, envs: seq<Env>)
    ensures var t := Run(pr, b, envs);
            && (!b.processCb ==> t.processData == [] && forall i :: 0 <= i < |t.callbacks| ==> t.callbacks[i].Reported?)
            && (!b.packetCb ==> t.books.packetData == [] && forall i :: 0 <= i < |t.callbacks| ==> !t.callbacks[i].Reported?)
            && Silent(t)
    decreases |envs|
  {
    hide Init, Update, Links, BootLinks, BornAll, Additions, Sorted;
    RunKeepsFrame(pr, b, envs);
    if envs == [] {
      InitParts(pr, b);
    } else {
      RunIsSilent(pr, b, envs[..|envs| - 1]);
      RoundIsSilent(pr, Run(pr, b, envs[..|envs| - 1]), envs[|envs| - 1]);
    }
  }

  // ---------- an unchanged listing ----------

  /** The rounds list the given pids and accept no packet. */
  ghost predicate Unchanging(pr: Printer6, cfg: Config, links: seq<int>, envs: seq<Env>, pids: set<int>) {
    forall i :: 0 <= i < |envs| ==> Live(envs[i].listing) == pids && RoundHits(pr, cfg.devices, links, envs[i]) == []
  }

  lemma NoHitsNoChange(pr: Printer6, s: State, env: Env)
    requires RoundHits(pr, s.cfg.devices, Links(s.handles), env) == []
    ensures var b := Dispatched(pr, s, env).books; b.procs == s.books.procs && b.life == s.books.life
  {
    hide Dispatched, RoundHits, StartRound, Links, FileHit, CreditHit;
    PacketPhase(pr, s, env);
  }

  lemma SettledRound(pr: Printer6, s: State, env: Env)
    requires After(Live(env.listing), s.books.procs.Keys) == s.books.procs.Keys
    requires RoundHits(pr, s.cfg.devices, Links(s.handles), env) == []
    ensures var t := Update(pr, s, env); t.books.procs.Keys == s.books.procs.Keys && t.books.life == s.books.life
  {
    hide Update, Dispatched, ReconcileStep, After, RoundHits, Links, Erasures, Removals, Sorted;
    NoHitsNoChange(pr, s, env);
    UpdateParts(pr, s, env);
    if !env.cpu.CpuUnopened? {
      var m := Measured(pr, s, env);
      DispatchKeepsFrame(pr, s, env);
      ReconcileKeys(m, env.parsed);
      RemovalsAreErasures(m, env.parsed);
      NobodyGone(m.books, m.books.life);
    }
  }

  lemma NobodyGone(b: Books, life: seq<Life>)
    ensures var gone := Sorted(b.procs.Keys - b.procs.Keys); Within(gone, b.procs) && life + Erasures(b.procs, gone) == life
  {
    NoneSorted();
    assert b.procs.Keys - b.procs.Keys == {};
  }

  lemma {:induction false} SettledRounds(pr: Printer6, s: State, envs: seq<Env>, pids: set<int>)
    requires After(pids, s.books.procs.Keys) == s.books.procs.Keys
    requires Unchanging(pr, s.cfg, Links(s.handles), envs, pids)
    ensures var t := Steps(pr, s, envs);
            && t.books.procs.Keys == s.books.procs.Keys && t.books.life == s.books.life
            && t.cfg == s.cfg && Links(t.handles) == Links(s.handles)
    decreases |envs|
  {
    hide Update, After, RoundHits, Links;
    if envs != [] {
      var before := envs[..|envs| - 1];
      SettledRounds(pr, s, before, pids);
      SettledRound(pr, Steps(pr, s, before), envs[|envs| - 1]);
      UpdateParts(pr, Steps(pr, s, before), envs[|envs| - 1]);
    }
  }

  /** After a full round from any state, further rounds that list the same pids and accept no
      packet neither add nor erase anything: a dead process that the round left behind is tracked
      as long as the listing stays, and a live one that it lost is not tracked again. */
  lemma UnchangedListingSettles(pr: Printer6, s: State, env: Env, envs: seq<Env>, t: State)
    requires !env.cpu.CpuUnopened? && t == Update(pr, s, env)
    requires Unchanging(pr, t.cfg, Links(t.handles), envs, Live(env.listing))
    ensures var u := Steps(pr, t, envs); u.books.procs.Keys == t.books.procs.Keys && u.books.life == t.books.life
  {
    hide Update, Dispatched, ReconcileStep, After, RoundHits, Links, Unchanging, Steps;
    var m := Measured(pr, s, env);
    UpdateParts(pr, s, env);
    DispatchKeepsFrame(pr, s, env);
    ReconcileKeys(m, env.parsed);
    AfterIsFinal(m.pids, m.books.procs.Keys);
    SettledRounds(pr, t, envs, Live(env.listing));
  }

  // ---------- publishing ----------

  lemma OverwriteStarts<T>(buffer: seq<T>, rows: seq<T>)
    ensures |Overwrite(buffer, rows)| == (if |buffer| < |rows| then |rows| else |buffer|)
    ensures Overwrite(buffer, rows)[..|rows|] == rows
  {
  }

  /** A buffer that had `was` rows and now starts with the report of the entries from scratch. */
  predicate Published(was: nat, rows: seq<ProcessRow>, procs: map<int, Proc>) {
    && |rows| == (if was < |procs| then |procs| else was)
    && rows[..|procs|] == Project(procs)
  }

  /** A full round with a process callback makes one update, after its removals, whose first rows
      are the report built from scratch, whatever larger report the buffer held. */
  lemma RoundPublishes(pr: Printer6, s: State, env: Env, t: State)
    requires s.cfg.processCb && !env.cpu.CpuUnopened? && t == Update(pr, s, env)
    ensures t.callbacks == s.callbacks + Removals(Gone(Measured(pr, s, env)))
                           + [UpdateOf(t.processData, t.books.procs)] + PacketPart(s, env, t)
    ensures Published(|s.processData|, t.processData, t.books.procs)
  {
    hide Update, Measured, Gone, Removals, PacketPart, Published;
    RoundCallbacks(pr, s, env, t);
    BufferPublished(pr, s, env, t);
  }

  lemma BufferPublished(pr: Printer6, s: State, env: Env, t: State)
    requires s.cfg.processCb && !env.cpu.CpuUnopened? && t == Update(pr, s, env)
    ensures Published(|s.processData|, t.processData, t.books.procs)
  {
    hide Dispatched, ReconcileStep, Project, Overwrite;
    DispatchKeepsFrame(pr, s, env);
    var r := ReconcileStep(Measured(pr, s, env), env.parsed);
    ReconcileKeepsFrame(Measured(pr, s, env), env.parsed);
    OverwriteStarts(r.processData, Project(r.books.procs));
  }

  /** The report built from scratch has one row per entry, by strictly ascending pid. */
  lemma ProjectionOrder(procs: map<int, Proc>, known: set<int>)
    requires WellFiled(procs, known)
    ensures var rows := Project(procs);
            && |rows| == |procs|
            && (forall i :: 0 <= i < |rows| ==> rows[i].pid in procs && rows[i] == RowOf(procs[rows[i].pid]))
            && (forall i, j :: 0 <= i < j < |rows| ==> rows[i].pid < rows[j].pid)
  {
    hide Project;
    ProjectRows(procs);
    SortedMembers(procs.Keys);
  }

  /** In every run the size given with an update is the number of tracked processes. */
  lemma SizeIsExact(pr: Printer6, b: Boot, envs: seq<Env>)
    ensures |Run(pr, b, envs).books.procs| % TWO32 == |Run(pr, b, envs).books.procs|
  {
    hide Run;
    EntriesAreFiled(pr, b, envs);
    BoundedSize(Run(pr, b, envs).books.procs.Keys, 0x8000_0000);
  }
}
