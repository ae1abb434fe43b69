/** Conservation per process and direction: each process is credited with its own packets only,
    what it sends as sent and what it receives as received. */
module Ledger {
  import opened Text
  import opened Ordered
  import opened Packets
  import opened Processes
  import opened Monitor
  import opened Deliveries
  import opened Runs
  import opened Accounting

  function Count(p: Proc, outgoing: bool): nat { if outgoing then p.send else p.recv }

  /** What the entry of `pid` holds now, if there is one. */
  function CountOf(procs: map<int, Proc>, pid: int, outgoing: bool): nat {
    if pid in procs then Count(procs[pid], outgoing) else 0
  }

  /** What the erased entries of `pid` held. */
  function ErasedOf(life: seq<Life>, pid: int, outgoing: bool): nat {
    if life == [] then 0
    else
      ErasedOf(life[..|life| - 1], pid, outgoing)
      + (match life[|life| - 1]
         case Added(_) => 0
         case Erased(p, recv, send) => if p != pid then 0 else if outgoing then send else recv)
  }

  /** What the packets of `pid` in this direction bring. */
  function LenOf(hits: seq<Hit>, pid: int, outgoing: bool): nat {
    if hits == [] then 0
    else
      var hit := hits[|hits| - 1];
      LenOf(hits[..|hits| - 1], pid, outgoing) + (if hit.pid == pid && hit.outgoing == outgoing then hit.len else 0)
  }

  function HeldBy(b: Books, pid: int, outgoing: bool): nat {
    CountOf(b.procs, pid, outgoing) + ErasedOf(b.life, pid, outgoing)
  }

  lemma AddedHoldsNothing(life: seq<Life>, p: int, pid: int, outgoing: bool)
    ensures ErasedOf(life + [Added(p)], pid, outgoing) == ErasedOf(life, pid, outgoing)
  {
    assert (life + [Added(p)])[..|life|] == life;
  }

  lemma ErasureHoldsCount(life: seq<Life>, k: int, p: Proc, pid: int, outgoing: bool)
    ensures ErasedOf(life + [ErasureOf(k, p)], pid, outgoing)
         == ErasedOf(life, pid, outgoing) + if k == pid then Count(p, outgoing) else 0
  {
    assert (life + [ErasureOf(k, p)])[..|life|] == life;
  }

  lemma CreditCounts(p: Proc, credited: bool, len: U32, outgoing: bool)
    ensures var q := Credit(p, credited, len);
            if credited == outgoing
            then Count(q, outgoing) == Count(p, outgoing) + len || Count(q, outgoing) == Count(p, outgoing) + len - TWO64
            else Count(q, outgoing) == Count(p, outgoing)
  {
    var x := Count(p, credited) + len;
    assert x % TWO64 == if x < TWO64 then x else x - TWO64;
  }

  lemma OneHitCounted(d: Desk, b: Books, created: int -> ProcRead, hit: Hit, pid: int, outgoing: bool, total: int)
    requires Accounts(HeldBy(b, pid, outgoing), total)
    ensures Accounts(HeldBy(CreditHit(d, b, created, hit), pid, outgoing),
                     total + if hit.pid == pid && hit.outgoing == outgoing then hit.len else 0)
  {
    hide Credit, Born, ErasedOf;
    if hit.pid !in b.procs {
      BornPid(hit.pid, d.memory, d.deltaCpu, created(hit.pid));
      AddedHoldsNothing(b.life, hit.pid, pid, outgoing);
    }
    CreditCounts(EntryFor(b.procs, d.memory, d.deltaCpu, created, hit.pid), hit.outgoing, hit.len, outgoing);
  }

  lemma {:induction false} HitsCounted(d: Desk, b: Books, created: int -> ProcRead, hits: seq<Hit>, pid: int, outgoing: bool, total: int)
    requires Accounts(HeldBy(b, pid, outgoing), total)
    ensures Accounts(HeldBy(TakeHits(d, b, created, hits), pid, outgoing), total + LenOf(hits, pid, outgoing))
    decreases |hits|
  {
    hide CreditHit, Accounts, FileRow, ErasedOf, CountOf;
    if hits != [] {
      var before := hits[..|hits| - 1];
      HitsCounted(d, b, created, before, pid, outgoing, total);
      OneHitCounted(d, TakeHits(d, b, created, before), created, hits[|hits| - 1], pid, outgoing,
                    total + LenOf(before, pid, outgoing));
    }
  }

  lemma {:induction false} ErasuresMoveCount(life: seq<Life>, procs: map<int, Proc>, ks: seq<int>, pid: int, outgoing: bool)
    requires Ascending(ks) && Within(ks, procs)
    ensures ErasedOf(life + Erasures(procs, ks), pid, outgoing)
         == ErasedOf(life, pid, outgoing) + if pid in ks then CountOf(procs, pid, outgoing) else 0
    decreases |ks|
  {
    hide Count;
    if ks == [] {
      assert life + Erasures(procs, ks) == life;
    } else {
      var n := |ks| - 1;
      ErasuresMoveCount(life, procs, ks[..n], pid, outgoing);
      ErasureHoldsCount(life + Erasures(procs, ks[..n]), ks[n], procs[ks[n]], pid, outgoing);
      assert life + Erasures(procs, ks) == life + Erasures(procs, ks[..n]) + [ErasureOf(ks[n], procs[ks[n]])];
      assert ks == ks[..n] + [ks[n]];
    }
  }

  lemma ReconcileKeepsCount(s: State, parsed: int -> ProcRead, pid: int, outgoing: bool)
    ensures HeldBy(ReconcileStep(s, parsed).books, pid, outgoing) == HeldBy(s.books, pid, outgoing)
  {
    hide ParseProc, ErasedOf, Doomed, Removals, Erasures;
    if |s.pids| != |s.books.procs| {
      ErasuresMoveCount(s.books.life, s.books.procs, Doomed(s.pids, s.books.procs), pid, outgoing);
      if pid in s.books.procs {
        ParseKeepsCounters(s.books.procs[pid], s.cfg.memory, s.meter.delta, parsed(pid));
      }
    }
  }

  lemma RoundCounted(pr: Printer6, s: State, env: Env, pid: int, outgoing: bool, total: int)
    requires Accounts(HeldBy(s.books, pid, outgoing), total)
    ensures Accounts(HeldBy(Update(pr, s, env).books, pid, outgoing),
                     total + LenOf(RoundHits(pr, s.cfg.devices, Links(s.handles), env), pid, outgoing))
  {
    hide Accounts, CountOf, ErasedOf, RoundHits, TakeHits, Dispatched, Update, ReconcileStep, StartRound, Links;
    PacketPhase(pr, s, env);
    HitsCounted(DeskOf(StartRound(pr, s, env)), s.books.(packetIdx := 0), env.created,
                RoundHits(pr, s.cfg.devices, Links(s.handles), env), pid, outgoing, total);
    UpdateParts(pr, s, env);
    ReconcileKeepsCount(Measured(pr, s, env), env.parsed, pid, outgoing);
  }

  lemma {:induction false} AdditionsHoldNothing(ps: seq<int>, pid: int, outgoing: bool)
    ensures ErasedOf(Additions(ps), pid, outgoing) == 0
  {
    if ps != [] {
      AdditionsHoldNothing(ps[..|ps| - 1], pid, outgoing);
      AddedHoldsNothing(Additions(ps[..|ps| - 1]), ps[|ps| - 1], pid, outgoing);
    }
  }

  lemma InitHoldsNone(pr: Printer6, b: Boot, pid: int, outgoing: bool)
    ensures HeldBy(Init(pr, FRESH, b).books, pid, outgoing) == 0
  {
    hide Init, Born, Additions, Sorted, Configure;
    InitParts(pr, b);
    BornPid(pid, Init(pr, FRESH, b).cfg.memory, 0, b.parsed(pid));
    AdditionsHoldNothing(Sorted(Live(b.listing)), pid, outgoing);
    assert [] + Additions(Sorted(Live(b.listing))) == Additions(Sorted(Live(b.listing)));
  }

  /** The bytes that the accepted packets of a run bring to `pid` in one direction. */
  function AcceptedFor(pr: Printer6, b: Boot, envs: seq<Env>, pid: int, outgoing: bool): nat
    decreases |envs|
  {
    if envs == [] then 0
    else
      AcceptedFor(pr, b, envs[..|envs| - 1], pid, outgoing)
      + LenOf(RoundHits(pr, b.devices, BootLinks(b), envs[|envs| - 1]), pid, outgoing)
  }

  lemma {:induction false} RunCounted(pr: Printer6, b: Boot, envs: seq<Env>, pid: int, outgoing: bool)
    ensures Accounts(HeldBy(Run(pr, b, envs).books, pid, outgoing), AcceptedFor(pr, b, envs, pid, outgoing))
    decreases |envs|
  {
    hide Init, Update, HeldBy, RoundHits, LenOf, Links;
    if envs == [] {
      InitHoldsNone(pr, b, pid, outgoing);
    } else {
      var before := envs[..|envs| - 1];
      RunCounted(pr, b, before, pid, outgoing);
      RunKeepsFrame(pr, b, before);
      RoundCounted(pr, Run(pr, b, before), envs[|envs| - 1], pid, outgoing, AcceptedFor(pr, b, before, pid, outgoing));
    }
  }

  /** Over every run, for every pid and each direction: the counter of its entry together with
      those of its erased entries is the length of the accepted packets that were looked up to
      that pid in that direction, exactly below 2^64 and modulo 2^64 always. */
  lemma ProcessBytesAreConserved(pr: Printer6, b: Boot, envs: seq<Env>, pid: int, outgoing: bool)
    ensures var t := Run(pr, b, envs).books;
            var held := CountOf(t.procs, pid, outgoing) + ErasedOf(t.life, pid, outgoing);
            var total := AcceptedFor(pr, b, envs, pid, outgoing);
            && held % TWO64 == total % TWO64
            && (total < TWO64 ==> held == total)
  {
    hide Run, AcceptedFor, CountOf, ErasedOf;
    RunCounted(pr, b, envs, pid, outgoing);
  }
}
