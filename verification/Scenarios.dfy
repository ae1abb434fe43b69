/** Short runs of a monitor with two raw handles, on which its reports go wrong. */
module Scenarios {
  import opened Text
  import opened Ordered
  import opened Packets
  import opened InodeIndex
  import opened Processes
  import opened Frames
  import opened Reconcile
  import opened Monitor
  import opened Deliveries
  import opened Runs
  import opened Tracking
  import opened PacketReports
  import opened CpuShare

  // ---------- the scene ----------

  const HERE := Quad(10, 0, 0, 1)
  const THERE := Quad(10, 0, 0, 2)
  const DEVICES := [Local(A4(HERE)), Local(A4(Quad(10, 0, 0, 9)))]
  const FLOW := Flow(A4(HERE), 7, A4(THERE), 9)
  const LINKS := [DLT_RAW, DLT_RAW]

  /** Two devices whose handles open, both callbacks set, and nobody listed yet. */
  function Scene(): Boot {
    Boot(DEVICES, i => Some(DLT_RAW), true, true, None, None, Tables(None, None, None, None), map[], p => StatusFailed)
  }

  const FIRST: set<Pid> := {1}

  /** A row for the flow, with inode 1. */
  predicate Fits(row: SocketRow) {
    var k := DecodeRow(row);
    k.Some? && k.value.inode == 1 && Names(k.value, FLOW)
  }

  lemma RowFits()
    ensures Fits(RowFor(FLOW))
  {
    hide DecodeRow, RowFor;
    RowForNames(FLOW);
  }

  /** A round of the scene: process 1 holds the socket of the row, and has used 5000 ticks. */
  function Round(row: SocketRow, first: Dispatch, second: Dispatch, total: U64): Env {
    Env(Some(FIRST), OneRow(row), FIRST_HOLDS, i => if i == 0 then first else second, CpuLine(total),
        p => Complete(NO_DESCR, [5000]), p => StatusFailed)
  }

  /** An IPv4 packet of the flow with a UDP header. */
  const UDP_FRAME := Frame(100, i => UdpByte(i))

  function UdpByte(i: nat): Byte {
    match i
    case 0 => 0x45
    case 9 => 17
    case 12 => 10
    case 15 => 1
    case 16 => 10
    case 19 => 2
    case 21 => 7
    case 23 => 9
    case _ => 0
  }

  /** A frame of no IP version. */
  const OTHER_FRAME := Frame(60, i => 0)

  const IDLE := Dispatch([], 0)
  const SEEN := Dispatch([UDP_FRAME], 1)
  const UNSEEN := Dispatch([OTHER_FRAME], 1)
  const MIXED := Dispatch([UDP_FRAME, OTHER_FRAME], 2)

  const CALL := Handling(Udp, Context4(HERE, THERE), 7, 9, 100)

  function TheHit(pr: Printer6): Hit { Hit(1, true, Udp, LinkText(pr, FLOW), 100) }

  lemma FramesCall()
    ensures HandlingOf(DLT_RAW, UDP_FRAME) == Some(CALL) && HandlingOf(DLT_RAW, OTHER_FRAME) == None
  {
  }

  lemma DispatchesCall()
    ensures HandlingsOf(DLT_RAW, IDLE.frames) == [] && HandlingsOf(DLT_RAW, UNSEEN.frames) == []
    ensures HandlingsOf(DLT_RAW, SEEN.frames) == [CALL] && HandlingsOf(DLT_RAW, MIXED.frames) == [CALL]
  {
    hide HandlingOf;
    FramesCall();
    assert MIXED.frames[..1] == SEEN.frames;
    assert SEEN.frames[..0] == [] && UNSEEN.frames[..0] == [];
    assert HandlingsOf(DLT_RAW, []) == [];
  }

  lemma RoundCalls(row: SocketRow, first: Dispatch, second: Dispatch, total: U64)
    ensures RoundHandlings(LINKS, Round(row, first, second, total), 2)
         == HandlingsOf(DLT_RAW, first.frames) + HandlingsOf(DLT_RAW, second.frames)
  {
    hide HandlingsOf;
    var env := Round(row, first, second, total);
    assert RoundHandlings(LINKS, env, 0) == [];
    assert RoundHandlings(LINKS, env, 1) == HandlingsOf(DLT_RAW, first.frames);
  }

  lemma HereIsReachable()
    ensures Reachable(DEVICES, A4(HERE)) && IsLocal(DEVICES, A4(HERE))
  {
    assert |Dec(10)| == 2 by { assert |Dec(1)| == 1; }
    assert DEVICES[0] == Local(A4(HERE));
  }

  lemma CallHits(pr: Printer6, row: SocketRow)
    requires Fits(row)
    ensures HitOf(pr, DEVICES, BuildIndex(pr, DEVICES, OneRow(row), {1}, FIRST_HOLDS), CALL) == Some(TheHit(pr))
  {
    hide BuildIndex, GetPid, LinkText, DecodeRow, Reachable, Names;
    HereIsReachable();
    AnyTableAnswers(pr, DEVICES, OneRow(row), row, FLOW);
  }

  /** The accepted packets of a round whose frames make no call, or the one call. */
  lemma RoundHitsAre(pr: Printer6, row: SocketRow, first: Dispatch, second: Dispatch, total: U64)
    requires Fits(row)
    ensures var calls := HandlingsOf(DLT_RAW, first.frames) + HandlingsOf(DLT_RAW, second.frames);
            var hits := RoundHits(pr, DEVICES, LINKS, Round(row, first, second, total));
            (calls == [] ==> hits == []) && (calls == [CALL] ==> hits == [TheHit(pr)])
  {
    hide HitOf, HitsOf, BuildIndex, RoundHandlings, HandlingsOf;
    RoundCalls(row, first, second, total);
    CallHits(pr, row);
    OneCallHits(pr, DEVICES, BuildIndex(pr, DEVICES, OneRow(row), {1}, FIRST_HOLDS), CALL, TheHit(pr));
  }

  lemma OneCallHits(pr: Printer6, devices: seq<LocalAddr>, ix: Index, h: Handling, hit: Hit)
    requires HitOf(pr, devices, ix, h) == Some(hit)
    ensures HitsOf(pr, devices, ix, []) == [] && HitsOf(pr, devices, ix, [h]) == [hit]
  {
    hide HitOf;
    assert [h][..0] == [];
    assert HitsOf(pr, devices, ix, []) == [];
  }

  /** Any state of a run of the scene. */
  ghost predicate InScene(s: State) {
    s.cfg.processCb && s.cfg.packetCb && s.cfg.devices == DEVICES && Links(s.handles) == LINKS && |s.handles| == 2
  }

  lemma SceneLinks()
    ensures BootLinks(Scene()) == LINKS
  {
    var links := Scene().links;
    assert Opened(links, 1) == [HandleState(DLT_RAW, NoContext)];
    assert Opened(links, 2) == [HandleState(DLT_RAW, NoContext), HandleState(DLT_RAW, NoContext)];
  }

  lemma RunsAreInScene(pr: Printer6, envs: seq<Env>)
    ensures InScene(Run(pr, Scene(), envs))
  {
    hide Run, Links, BootLinks;
    RunKeepsFrame(pr, Scene(), envs);
    SceneLinks();
  }

  lemma SceneStarts(pr: Printer6)
    ensures var s := Run(pr, Scene(), []); s.books.procs == map[] && s.books.packetData == [] && s.meter == Meter(0, 0)
  {
    hide Init, Born, Links, BootLinks;
    InitParts(pr, Scene());
  }

  /** A round of the scene: its packets, and what the last dispatch returned. */
  lemma SceneRound(pr: Printer6, s: State, row: SocketRow, first: Dispatch, second: Dispatch, total: U64, hits: seq<Hit>, t: State)
    requires InScene(s) && t == Update(pr, s, Round(row, first, second, total))
    requires hits == RoundHits(pr, DEVICES, LINKS, Round(row, first, second, total))
    ensures FullRound(pr, s, Round(row, first, second, total), hits, t) && LastRet(s, Round(row, first, second, total)) == second.ret
    ensures InScene(t)
  {
    hide Round, Update, Dispatched, Measured, ReconcileStep, RoundHits, Links;
    RoundReads(row, first, second, total);
    UpdateParts(pr, s, Round(row, first, second, total));
    assert |Links(t.handles)| == 2;
  }

  lemma RoundReads(row: SocketRow, first: Dispatch, second: Dispatch, total: U64)
    ensures Round(row, first, second, total).cpu == CpuLine(total) && Round(row, first, second, total).dispatch(1) == second
  {
      }

  // ---------- packet reports ----------

  /** Two frames, one of them accepted, into an empty buffer: a report of size 2 over one row. */
  lemma ReportBeyondBuffer(pr: Printer6, row: SocketRow, s: State, t: State, env: Env)
    requires Fits(row) && s == Run(pr, Scene(), []) && env == Round(row, IDLE, MIXED, 10) && t == Update(pr, s, env)
    ensures |t.books.packetData| == 1 && Made(pr, s, env, t, t.books.packetData, 2)
  {
    hide Run, Update, Round, RoundHits, FullRound, Made, Shows, InScene, HandlingsOf, Fits;
    RunsAreInScene(pr, []);
    SceneStarts(pr);
    DispatchesCall();
    RoundHitsAre(pr, row, IDLE, MIXED, 10);
    var hits := RoundHits(pr, DEVICES, LINKS, env);
    SceneRound(pr, s, row, IDLE, MIXED, 10, hits, t);
    Slots(pr, s, env, hits, t);
    MadeIff(pr, s, env, hits, t, t.books.packetData, 2);
  }

  /** A packet on the first handle and none on the last: nothing is reported. */
  lemma PacketNotReported(pr: Printer6, row: SocketRow, s: State, t: State, env: Env)
    requires Fits(row) && s == Run(pr, Scene(), []) && env == Round(row, SEEN, IDLE, 10) && t == Update(pr, s, env)
    ensures RoundHits(pr, DEVICES, LINKS, env) == [TheHit(pr)] && t.callbacks == BeforeReport(pr, s, env)
  {
    hide Run, Update, Round, RoundHits, FullRound, BeforeReport, InScene, HandlingsOf, Fits;
    RunsAreInScene(pr, []);
    DispatchesCall();
    RoundHitsAre(pr, row, SEEN, IDLE, 10);
    var hits := RoundHits(pr, DEVICES, LINKS, env);
    SceneRound(pr, s, row, SEEN, IDLE, 10, hits, t);
    PacketReport(pr, s, env, hits, t);
  }

  /** The state after one round that captures the packet. */
  lemma AfterOnePacket(pr: Printer6, row: SocketRow, s: State)
    requires Fits(row) && s == Update(pr, Run(pr, Scene(), []), Round(row, IDLE, SEEN, 10))
    ensures InScene(s) && |s.books.packetData| == 1
  {
    hide Run, Update, Round, RoundHits, FullRound, Shows, InScene, HandlingsOf, Fits;
    var s0, env := Run(pr, Scene(), []), Round(row, IDLE, SEEN, 10);
    RunsAreInScene(pr, []);
    SceneStarts(pr);
    DispatchesCall();
    RoundHitsAre(pr, row, IDLE, SEEN, 10);
    SceneRound(pr, s0, row, IDLE, SEEN, 10, RoundHits(pr, DEVICES, LINKS, env), s);
    Slots(pr, s0, env, RoundHits(pr, DEVICES, LINKS, env), s);
  }

  /** Then a frame that is no packet at all: the old row is reported again. */
  lemma OldRowReported(pr: Printer6, row: SocketRow, s: State, t: State, env: Env)
    requires Fits(row) && s == Update(pr, Run(pr, Scene(), []), Round(row, IDLE, SEEN, 10))
    requires env == Round(row, IDLE, UNSEEN, 20) && t == Update(pr, s, env)
    ensures RoundHits(pr, DEVICES, LINKS, env) == [] && Made(pr, s, env, t, s.books.packetData, 1)
  {
    hide Run, Update, Round, RoundHits, FullRound, Made, Shows, InScene, HandlingsOf, Fits;
    AfterOnePacket(pr, row, s);
    DispatchesCall();
    RoundHitsAre(pr, row, IDLE, UNSEEN, 20);
    SceneRound(pr, s, row, IDLE, UNSEEN, 20, [], t);
    Slots(pr, s, env, [], t);
    assert t.books.packetData == s.books.packetData;
    MadeIff(pr, s, env, [], t, t.books.packetData, 1);
  }

  /** Or the same packet once more: it is reported as TCP. */
  lemma UdpReportedAsTcp(pr: Printer6, row: SocketRow, s: State, t: State, env: Env)
    requires Fits(row) && s == Update(pr, Run(pr, Scene(), []), Round(row, IDLE, SEEN, 10))
    requires env == Round(row, IDLE, SEEN, 20) && t == Update(pr, s, env)
    ensures RoundHits(pr, DEVICES, LINKS, env) == [TheHit(pr)] && TheHit(pr).kind == Udp
    ensures |t.books.packetData| == 1 && t.books.packetData[0].family == Tcp && Made(pr, s, env, t, t.books.packetData, 1)
  {
    hide Run, Update, Round, RoundHits, FullRound, Made, Shows, InScene, HandlingsOf, Fits;
    AfterOnePacket(pr, row, s);
    DispatchesCall();
    RoundHitsAre(pr, row, IDLE, SEEN, 20);
    SceneRound(pr, s, row, IDLE, SEEN, 20, [TheHit(pr)], t);
    Slots(pr, s, env, [TheHit(pr)], t);
    MadeIff(pr, s, env, [TheHit(pr)], t, t.books.packetData, 1);
  }

  // ---------- a share without bound ----------

  /** After a quiet round the system delta is 10 and nobody is tracked. */
  lemma AfterQuietRound(pr: Printer6, row: SocketRow, s: State)
    requires Fits(row) && s == Update(pr, Run(pr, Scene(), []), Round(row, IDLE, IDLE, 10))
    ensures InScene(s) && s.books.procs == map[] && s.meter == Meter(10, 10)
  {
    hide Run, Update, Dispatched, ReconcileStep, After, RoundHits, Links, HandlingsOf, InScene, Fits;
    var s0, env := Run(pr, Scene(), []), Round(row, IDLE, IDLE, 10);
    RunsAreInScene(pr, []);
    SceneStarts(pr);
    DispatchesCall();
    RoundHitsAre(pr, row, IDLE, IDLE, 10);
    SceneRound(pr, s0, row, IDLE, IDLE, 10, [], s);
    UpdateParts(pr, s0, env);
    QuietPackets(pr, s0, env);
    var m := Measured(pr, s0, env);
    assert m.books.procs.Keys == {};
    ReconcileKeys(m, env.parsed);
    StillNobody(m.pids);
    assert s.books.procs.Keys == {};
    SmallStep(0, 10);
  }

  lemma QuietPackets(pr: Printer6, s: State, env: Env)
    requires InScene(s) && RoundHits(pr, DEVICES, LINKS, env) == []
    ensures Dispatched(pr, s, env).books.procs == s.books.procs
  {
    hide Dispatched, RoundHits, Links;
    NoHitsNoChange(pr, s, env);
  }

  lemma StillNobody(P: set<int>)
    ensures After(P, {}) == {}
  {
  }

  /** A round with the packet then tracks process 1 alone, which is the only one listed. */
  lemma PacketMakesKnown(pr: Printer6, s: State, env: Env)
    requires InScene(s) && s.books.procs == map[] && RoundHits(pr, DEVICES, LINKS, env) == [TheHit(pr)]
    ensures Dispatched(pr, s, env).books.procs.Keys == {1}
  {
    hide Dispatched, RoundHits, Links, StartRound, Credit, EntryFor, FileRow;
    PacketPhase(pr, s, env);
    var d, b := DeskOf(StartRound(pr, s, env)), s.books.(packetIdx := 0);
    TakeOneMore(d, b, env.created, [], TheHit(pr));
    assert [] + [TheHit(pr)] == [TheHit(pr)];
    assert TakeHits(d, b, env.created, []) == b;
  }

  /** Its share is then reported as 50000. */
  lemma ShareWithoutBound(pr: Printer6, row: SocketRow, s: State, t: State, env: Env)
    requires Fits(row) && s == Update(pr, Run(pr, Scene(), []), Round(row, IDLE, IDLE, 10))
    requires env == Round(row, IDLE, SEEN, 20) && t == Update(pr, s, env)
    ensures 1 in t.books.procs && t.books.procs[1].cpuPercent == 50000.0 && ShareShown(s, t, 1, 50000.0)
  {
    hide Run, Update, Dispatched, ReconcileStep, After, RoundHits, Links, HandlingsOf, Fits, Percent, ParseProc, ShareShown;
    AfterQuietRound(pr, row, s);
    DispatchesCall();
    RoundHitsAre(pr, row, IDLE, SEEN, 20);
    PacketMakesKnown(pr, s, env);
    UpdateParts(pr, s, env);
    DispatchKeepsFrame(pr, s, env);
    var m := Measured(pr, s, env);
    assert m.pids == {1};
    assert |m.books.procs| == |m.books.procs.Keys| == 1;
    ReconcileKeys(m, env.parsed);
    SameStays();
    CreatedShare(pr, s, env, t, 1, NO_DESCR, 5000);
    ManyPercent();
  }

  lemma SameStays()
    ensures After({1}, {1}) == {1}
  {
  }

  lemma ManyPercent()
    ensures Percent(5000, 10) == 50000.0
  {
    assert 500000 % TWO64 == 500000;
  }
}
