/** What a round reports about packets, and exactly when that is what it captured. */
module PacketReports {
  import opened Text
  import opened Packets
  import opened InodeIndex
  import opened Processes
  import opened Frames
  import opened Monitor
  import opened Deliveries
  import opened Runs

  /** The callbacks up to and including a full round's removals and update. */
  function BeforeReport(pr: Printer6, s: State, env: Env): seq<Callback> {
    PublishProcesses(ReconcileStep(Measured(pr, s, env), env.parsed)).callbacks
  }

  /** A full round with a packet callback, its accepted packets, and the state it leads to. */
  ghost predicate FullRound(pr: Printer6, s: State, env: Env, hits: seq<Hit>, t: State) {
    && s.cfg.packetCb && !env.cpu.CpuUnopened?
    && hits == RoundHits(pr, s.cfg.devices, Links(s.handles), env) && t == Update(pr, s, env)
  }

  /** The round's last callback is a report of `rows` with size `n`. */
  ghost predicate Made(pr: Printer6, s: State, env: Env, t: State, rows: seq<PacketRow>, n: int) {
    t.callbacks == BeforeReport(pr, s, env) + [Reported(rows, n)]
  }

  /** The first `n` rows are there and are the links and lengths of the packets, in order. */
  ghost predicate Shows(rows: seq<PacketRow>, n: int, hits: seq<Hit>) {
    && n == |hits| <= |rows|
    && forall i :: 0 <= i < |hits| ==> rows[i].hash == Field(hits[i].link, 127) && rows[i].packetSize == hits[i].len
  }

  lemma BufferAfter(pr: Printer6, s: State, env: Env, t: State)
    requires t == Update(pr, s, env)
    ensures t.books.packetData == Dispatched(pr, s, env).books.packetData
    ensures t.books.packetIdx == Dispatched(pr, s, env).books.packetIdx
  {
    hide Dispatched, Update, ReconcileStep, Links;
    UpdateParts(pr, s, env);
    ReconcileKeepsFrame(Measured(pr, s, env), env.parsed);
    ReconcileKeepsSlot(Measured(pr, s, env), env.parsed);
  }

  lemma ReconcileKeepsSlot(s: State, parsed: int -> ProcRead)
    ensures ReconcileStep(s, parsed).books.packetIdx == s.books.packetIdx
  {
    hide Reparsed, Doomed, Erasures, Removals;
  }

  /** The report, if there is one, is the buffer with the result of the last dispatch as its size. */
  lemma ReportIs(pr: Printer6, s: State, env: Env, hits: seq<Hit>, t: State)
    requires FullRound(pr, s, env, hits, t)
    ensures t.callbacks == BeforeReport(pr, s, env)
              + (if LastRet(s, env) > 0 && t.books.packetData != [] then [Reported(t.books.packetData, LastRet(s, env))] else [])
  {
    hide Dispatched, ReconcileStep, Project, Overwrite, RoundHits;
    DispatchKeepsFrame(pr, s, env);
    ReconcileKeepsFrame(Measured(pr, s, env), env.parsed);
    assert BeforeReport(pr, s, env) + [] == BeforeReport(pr, s, env);
  }

  lemma MadeIff(pr: Printer6, s: State, env: Env, hits: seq<Hit>, t: State, rows: seq<PacketRow>, n: int)
    requires FullRound(pr, s, env, hits, t)
    ensures Made(pr, s, env, t, rows, n) <==>
              n == LastRet(s, env) > 0 && rows == t.books.packetData && rows != []
  {
    hide BeforeReport, FullRound;
    ReportIs(pr, s, env, hits, t);
    var before := BeforeReport(pr, s, env);
    assert Made(pr, s, env, t, rows, n) ==> t.callbacks[|before|] == Reported(rows, n);
  }

  /** What the buffer holds after the round, slot by slot: this round's packets, each with its own
      kind exactly if the slot is new or the packet is TCP, and behind them what was there before. */
  lemma Slots(pr: Printer6, s: State, env: Env, hits: seq<Hit>, t: State)
    requires FullRound(pr, s, env, hits, t)
    ensures var past, rows := s.books.packetData, t.books.packetData;
            && |rows| == (if |hits| < |past| then |past| else |hits|)
            && t.books.packetIdx == |hits| && Shows(rows, |hits|, hits)
            && (forall i :: 0 <= i < |hits| ==> (rows[i].family == hits[i].kind <==> |past| <= i || hits[i].kind == Tcp))
            && (forall i :: |hits| <= i < |rows| ==> rows[i] == past[i])
  {
    hide Dispatched, Update, RoundHits;
    PacketBufferOfRound(pr, s, env);
    BufferAfter(pr, s, env, t);
    var rows := t.books.packetData;
    assert forall i :: 0 <= i < |hits| ==> rows[i] == rows[..|hits|][i];
  }

  /** The round reports exactly its packets if and only if it has some and the last handle's
      dispatch result happens to be their number; it reports nothing if and only if that result
      is not positive, or there are no packets and never were any. */
  lemma PacketReport(pr: Printer6, s: State, env: Env, hits: seq<Hit>, t: State)
    requires FullRound(pr, s, env, hits, t)
    ensures (exists rows, n :: Made(pr, s, env, t, rows, n) && Shows(rows, n, hits))
       <==> |hits| > 0 && s.handles != [] && env.dispatch(|s.handles| - 1).ret == |hits|
    ensures t.callbacks == BeforeReport(pr, s, env)
       <==> s.handles == [] || env.dispatch(|s.handles| - 1).ret <= 0 || (hits == [] && s.books.packetData == [])
  {
    hide FullRound, BeforeReport, Made, Shows;
    Slots(pr, s, env, hits, t);
    ReportIs(pr, s, env, hits, t);
    forall rows, n ensures Made(pr, s, env, t, rows, n) <==>
                             n == LastRet(s, env) > 0 && rows == t.books.packetData && rows != []
    {
      MadeIff(pr, s, env, hits, t, rows, n);
    }
    forall rows, n | Shows(rows, n, hits) ensures n == |hits| { ShownSize(rows, n, hits); }
    if |hits| > 0 && LastRet(s, env) == |hits| {
      assert Made(pr, s, env, t, t.books.packetData, |hits|) && Shows(t.books.packetData, |hits|, hits);
    }
  }

  lemma ShownSize(rows: seq<PacketRow>, n: int, hits: seq<Hit>)
    requires Shows(rows, n, hits)
    ensures n == |hits|
  {
  }

  /** A row that the client reads although no packet of this round is in it. */
  predicate StaleAt(past: seq<PacketRow>, rows: seq<PacketRow>, n: int, hits: seq<Hit>, i: nat) {
    |hits| <= i < n && i < |rows| && i < |past| && rows[i] == past[i]
  }

  /** Every row that the client reads is in the buffer, and is a packet of this round with its kind. */
  predicate Sound(rows: seq<PacketRow>, n: int, hits: seq<Hit>) {
    n <= |rows| && n <= |hits| && forall i :: 0 <= i < n ==> rows[i].family == hits[i].kind
  }

  /** A report that is made reaches beyond the buffer exactly if its size exceeds both the old
      buffer and the round's packets; it has a stale row exactly if both its size and the old
      buffer exceed them; and it is sound exactly if it does not claim more than the round's
      packets and no packet it shows is a UDP one in a reused slot. */
  lemma ReportIsSoundIff(pr: Printer6, s: State, env: Env, hits: seq<Hit>, t: State, rows: seq<PacketRow>, n: int)
    requires FullRound(pr, s, env, hits, t) && Made(pr, s, env, t, rows, n)
    ensures var past := s.books.packetData;
            && s.handles != [] && n == env.dispatch(|s.handles| - 1).ret > 0
            && (n <= |rows| <==> n <= |past| || n <= |hits|)
            && ((exists i :: StaleAt(past, rows, n, hits, i)) <==> |hits| < n && |hits| < |past|)
            && (Sound(rows, n, hits) <==> n <= |hits| && forall i :: 0 <= i < n && i < |past| ==> hits[i].kind == Tcp)
  {
    hide FullRound, Made, Shows;
    var past := s.books.packetData;
    Slots(pr, s, env, hits, t);
    MadeIff(pr, s, env, hits, t, rows, n);
    if |hits| < n && |hits| < |past| {
      assert StaleAt(past, rows, n, hits, |hits|);
    }
  }

  /** With one handle whose dispatch returns the number of its frames, all of them accepted, the
      rows reported are exactly the packets of the round. */
  lemma OneHandleReport(pr: Printer6, s: State, env: Env, hits: seq<Hit>, t: State)
    requires FullRound(pr, s, env, hits, t) && |s.handles| == 1
    requires env.dispatch(0).ret == |env.dispatch(0).frames| == |hits| && |hits| > 0
    ensures Made(pr, s, env, t, t.books.packetData, |hits|) && Shows(t.books.packetData, |hits|, hits)
    ensures t.books.packetIdx == |hits|
  {
    hide FullRound, Made, Shows;
    Slots(pr, s, env, hits, t);
    MadeIff(pr, s, env, hits, t, t.books.packetData, |hits|);
  }
}
