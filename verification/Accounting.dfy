/** Conservation of bytes: what the tracked processes hold, together with what erased ones held,
    is what the accepted packets brought. */
module Accounting {
  import opened Text
  import opened Ordered
  import opened Packets
  import opened Processes
  import opened Monitor
  import opened Deliveries
  import opened Runs

  /** The bytes of all entries. */
  ghost function TotalBytes(m: map<int, Proc>): nat
    decreases |m|
  {
    if m == map[] then 0
    else
      SomeKey(m);
      var k :| k in m;
      Bytes(m[k]) + TotalBytes(m - {k})
  }

  lemma SomeKey(m: map<int, Proc>)
    requires m != map[]
    ensures exists k :: k in m
  {
    assert (forall k :: k !in m) ==> m == map[];
  }

  lemma {:induction false} TotalWithout(m: map<int, Proc>, k: int)
    requires k in m
    ensures TotalBytes(m) == Bytes(m[k]) + TotalBytes(m - {k})
    decreases |m|
  {
    SomeKey(m);
    var c :| c in m && TotalBytes(m) == Bytes(m[c]) + TotalBytes(m - {c});
    if c != k {
      TotalWithout(m - {c}, k);
      TotalWithout(m - {k}, c);
      assert m - {c} - {k} == m - {k} - {c};
    }
  }

  lemma TotalWith(m: map<int, Proc>, k: int, p: Proc)
    ensures TotalBytes(m[k := p]) == TotalBytes(m) + Bytes(p) - (if k in m then Bytes(m[k]) else 0)
  {
    TotalWithout(m[k := p], k);
    assert m[k := p] - {k} == m - {k};
    if k in m {
      TotalWithout(m, k);
    } else {
      assert m - {k} == m;
    }
  }

  lemma {:induction false} TotalAgrees(m: map<int, Proc>, n: map<int, Proc>)
    requires m.Keys == n.Keys
    requires forall k :: k in m ==> Bytes(m[k]) == Bytes(n[k])
    ensures TotalBytes(m) == TotalBytes(n)
    decreases |m|
  {
    if m != map[] {
      SomeKey(m);
      var k :| k in m;
      TotalWithout(m, k);
      TotalWithout(n, k);
      TotalAgrees(m - {k}, n - {k});
    } else {
      assert n == map[];
    }
  }

  /** The bytes that entries held when they were erased. */
  function ErasedBytes(life: seq<Life>): nat {
    if life == [] then 0
    else
      ErasedBytes(life[..|life| - 1])
      + (match life[|life| - 1] case Added(_) => 0 case Erased(_, recv, send) => recv + send)
  }

  lemma {:induction false} ErasedBytesAppend(a: seq<Life>, b: seq<Life>)
    ensures ErasedBytes(a + b) == ErasedBytes(a) + ErasedBytes(b)
    decreases |b|
  {
    if b == [] {
      assert a + b == a;
    } else {
      ErasedBytesAppend(a, b[..|b| - 1]);
      assert (a + b)[..|a + b| - 1] == a + b[..|b| - 1];
    }
  }

  ghost function Held(b: Books): nat { TotalBytes(b.procs) + ErasedBytes(b.life) }

  function LenSum(hits: seq<Hit>): nat {
    if hits == [] then 0 else LenSum(hits[..|hits| - 1]) + hits[|hits| - 1].len
  }

  /** `held` is `total` up to counters that went round at 2^64. */
  predicate Accounts(held: int, total: int) { held <= total && (total - held) % TWO64 == 0 }

  lemma OneHit(d: Desk, b: Books, created: int -> ProcRead, hit: Hit, total: int)
    requires Accounts(Held(b), total)
    ensures Accounts(Held(CreditHit(d, b, created, hit)), total + hit.len)
  {
    hide Credit, Born;
    var p := EntryFor(b.procs, d.memory, d.deltaCpu, created, hit.pid);
    if hit.pid !in b.procs {
      BornPid(hit.pid, d.memory, d.deltaCpu, created(hit.pid));
      ErasedBytesAppend(b.life, [Added(hit.pid)]);
      assert ErasedBytes([Added(hit.pid)]) == 0;
    }
    CreditAdds(p, hit.outgoing, hit.len);
    TotalWith(b.procs, hit.pid, Credit(p, hit.outgoing, hit.len));
  }

  lemma {:induction false} HitsAccounted(d: Desk, b: Books, created: int -> ProcRead, hits: seq<Hit>, total: int)
    requires Accounts(Held(b), total)
    ensures Accounts(Held(TakeHits(d, b, created, hits)), total + LenSum(hits))
    decreases |hits|
  {
    hide CreditHit, Accounts, FileRow;
    if hits != [] {
      var before := hits[..|hits| - 1];
      var hit := hits[|hits| - 1];
      HitsAccounted(d, b, created, before, total);
      OneHit(d, TakeHits(d, b, created, before), created, hit, total + LenSum(before));
    }
  }

  /** Erasing entries moves their bytes to the trace. */
  lemma {:induction false} ErasuresMoveBytes(procs: map<int, Proc>, ks: seq<int>)
    requires Ascending(ks) && Within(ks, procs)
    ensures TotalBytes(procs - Elements(ks)) + ErasedBytes(Erasures(procs, ks)) == TotalBytes(procs)
    decreases |ks|
  {
    hide Bytes;
    if ks == [] {
      assert procs - Elements(ks) == procs;
    } else {
      var n := |ks| - 1;
      var before := ks[..n];
      ErasuresMoveBytes(procs, before);
      assert forall x :: x in Elements(ks) <==> x in Elements(before) || x == ks[n];
      assert ks[n] !in Elements(before);
      var rest := procs - Elements(before);
      TotalWithout(rest, ks[n]);
      assert rest - {ks[n]} == procs - Elements(ks);
      ErasedBytesAppend(Erasures(procs, before), [ErasureOf(ks[n], procs[ks[n]])]);
      ErasureHolds(ks[n], procs[ks[n]]);
    }
  }

  lemma ErasureHolds(k: int, p: Proc)
    ensures ErasedBytes([ErasureOf(k, p)]) == Bytes(p)
  {
    assert [ErasureOf(k, p)][..0] == [];
    assert ErasedBytes([]) == 0;
  }

  lemma ReconcileConserves(s: State, parsed: int -> ProcRead)
    ensures Held(ReconcileStep(s, parsed).books) == Held(s.books)
  {
    hide ParseProc, Bytes, TotalBytes, ErasedBytes, Doomed, Removals;
    if |s.pids| != |s.books.procs| {
      var procs := s.books.procs;
      var doomed := Doomed(s.pids, procs);
      var after := Reparsed(procs, s.pids, doomed, s.cfg.memory, s.meter.delta, parsed);
      ErasuresMoveBytes(procs, doomed);
      ErasedBytesAppend(s.books.life, Erasures(procs, doomed));
      forall k | k in after ensures Bytes(after[k]) == Bytes(procs[k]) {
        ParseKeepsBytes(procs[k], s.cfg.memory, s.meter.delta, parsed(k));
      }
      TotalAgrees(after, procs - Elements(doomed));
    }
  }

  lemma ParseKeepsBytes(p: Proc, memory: U64, deltaCpu: U64, read: ProcRead)
    ensures Bytes(ParseProc(p, memory, deltaCpu, read)) == Bytes(p)
  {
    ParseKeepsCounters(p, memory, deltaCpu, read);
  }

  /** One round accounts for its accepted packets, whether or not it ended early. */
  lemma RoundAccounted(pr: Printer6, s: State, env: Env, total: int)
    requires Accounts(Held(s.books), total)
    ensures Accounts(Held(Update(pr, s, env).books), total + LenSum(RoundHits(pr, s.cfg.devices, Links(s.handles), env)))
  {
    hide Accounts, TotalBytes, ErasedBytes, RoundHits, TakeHits, Dispatched, Update, ReconcileStep, StartRound, Links;
    PacketPhase(pr, s, env);
    HitsAccounted(DeskOf(StartRound(pr, s, env)), s.books.(packetIdx := 0), env.created,
                  RoundHits(pr, s.cfg.devices, Links(s.handles), env), total);
    UpdateParts(pr, s, env);
    ReconcileConserves(Measured(pr, s, env), env.parsed);
  }

  /** The bytes of all packets accepted over a run, from what the rounds read. */
  function AcceptedBytes(pr: Printer6, b: Boot, envs: seq<Env>): nat
    decreases |envs|
  {
    if envs == [] then 0
    else AcceptedBytes(pr, b, envs[..|envs| - 1]) + LenSum(RoundHits(pr, b.devices, BootLinks(b), envs[|envs| - 1]))
  }

  lemma {:induction false} BornHoldNothing(pids: set<int>, memory: U64, parsed: int -> ProcRead)
    ensures TotalBytes(BornAll(pids, memory, 0, parsed)) == 0
    decreases |pids|
  {
    hide Born, Bytes;
    var m := BornAll(pids, memory, 0, parsed);
    if m != map[] {
      SomeKey(m);
      var k :| k in m;
      TotalWithout(m, k);
      BornPid(k, memory, 0, parsed(k));
      assert m - {k} == BornAll(pids - {k}, memory, 0, parsed);
      BornHoldNothing(pids - {k}, memory, parsed);
    }
  }

  lemma {:induction false} AdditionsErase(ps: seq<int>)
    ensures ErasedBytes(Additions(ps)) == 0
  {
    if ps != [] {
      AdditionsErase(ps[..|ps| - 1]);
      ErasedBytesAppend(Additions(ps[..|ps| - 1]), [Added(ps[|ps| - 1])]);
      assert ErasedBytes([Added(ps[|ps| - 1])]) == 0;
    }
  }

  lemma InitHoldsNothing(pr: Printer6, b: Boot)
    ensures Held(Init(pr, FRESH, b).books) == 0
  {
    hide Init, BornAll, Additions, TotalBytes, ErasedBytes, Sorted, Configure;
    InitParts(pr, b);
    var pids := Live(b.listing);
    var memory := Init(pr, FRESH, b).cfg.memory;
    BornHoldNothing(pids, memory, b.parsed);
    AdditionsErase(Sorted(pids));
    assert map[] + BornAll(pids, memory, 0, b.parsed) == BornAll(pids, memory, 0, b.parsed);
    assert [] + Additions(Sorted(pids)) == Additions(Sorted(pids));
    NothingYet();
  }

  lemma NothingYet()
    ensures Held(FRESH.books) == 0
  {
  }

  lemma {:induction false} RunAccounted(pr: Printer6, b: Boot, envs: seq<Env>)
    ensures Accounts(Held(Run(pr, b, envs).books), AcceptedBytes(pr, b, envs))
    decreases |envs|
  {
    hide Init, Update, Held, RoundHits, LenSum, Links;
    if envs == [] {
      InitHoldsNothing(pr, b);
    } else {
      var before := envs[..|envs| - 1];
      RunAccounted(pr, b, before);
      RunKeepsFrame(pr, b, before);
      RoundAccounted(pr, Run(pr, b, before), envs[|envs| - 1], AcceptedBytes(pr, b, before));
    }
  }

  /** Over every run after one `Init`, including rounds that end early and parses that fail:
      the bytes of the tracked processes and of all entries ever erased are those of the
      accepted packets, exactly as long as these are fewer than 2^64, and modulo 2^64 always. */
  lemma BytesAreConserved(pr: Printer6, b: Boot, envs: seq<Env>)
    ensures var held := TotalBytes(Run(pr, b, envs).books.procs) + ErasedBytes(Run(pr, b, envs).books.life);
            var total := AcceptedBytes(pr, b, envs);
            && held % TWO64 == total % TWO64
            && (total < TWO64 ==> held == total)
  {
    hide Run, AcceptedBytes, TotalBytes, ErasedBytes;
    RunAccounted(pr, b, envs);
  }
}
