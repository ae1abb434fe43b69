/** What a run reports: the handler calls of all rounds, and the last update. */
module Reports {
  import opened Text
  import opened Ordered
  import opened Packets
  import opened InodeIndex
  import opened Processes
  import opened Frames
  import opened Monitor
  import opened Deliveries
  import opened Runs
  import opened Accounting
  import opened Tracking

  // ---------- attribution ----------

  /** Attribution of a call by the naive scan. */
  function HitByScan(pr: Printer6, devices: seq<LocalAddr>, env: Env, h: Handling): Option<Hit> {
    var f :- FlowOf(h.ctx, h.sport, h.dport);
    match Scan(devices, env.tables, Live(env.listing), env.fds, FromLocal(devices, f))
    case Found(pid) => Some(Hit(pid, Local(f.src) in devices, h.kind, LinkText(pr, f), h.len))
    case NoIp => None
    case NoInode => None
  }

  /** No other remote address prints like the one of this call. */
  ghost predicate Unmistakable(pr: Printer6, devices: seq<LocalAddr>, h: Handling) {
    match FlowOf(h.ctx, h.sport, h.dport)
    case None => true
    case Some(f) => !Confusable(pr, FromLocal(devices, f))
  }

  /** A call is accepted, and for which process, exactly as a scan of this round's devices, rows
      and fd links decides: always with IPv4 addresses, and with any that cannot be confused. */
  lemma AttributionEqualsScan(pr: Printer6, devices: seq<LocalAddr>, env: Env, h: Handling)
    ensures h.ctx.Context4? ==> Unmistakable(pr, devices, h)
    ensures Unmistakable(pr, devices, h) ==>
              var ix := BuildIndex(pr, devices, env.tables, Live(env.listing), env.fds);
              HitOf(pr, devices, ix, h) == HitByScan(pr, devices, env, h)
  {
    hide BuildIndex, PacketKey, LinkText, Scan, GetPid;
    var f := FlowOf(h.ctx, h.sport, h.dport);
    if f.Some? && !Confusable(pr, FromLocal(devices, f.value)) {
      PacketLookupEqualsScan(pr, devices, env.tables, Live(env.listing), env.fds, f.value);
    }
  }

  /** An accepted packet is told by its own frame: its text is source-destination, its length and
      kind are the frame's, and it counts as sent exactly if the source is a device. */
  lemma HitTells(pr: Printer6, devices: seq<LocalAddr>, ix: Index, h: Handling)
    requires HitOf(pr, devices, ix, h).Some?
    ensures var hit := HitOf(pr, devices, ix, h).value;
            && hit.kind == h.kind && hit.len == h.len && h.ctx != NoContext
            && (h.ctx.Context4? ==>
                  && hit.link == JoinKey(DottedQuad(h.ctx.src), h.sport, DottedQuad(h.ctx.dst), h.dport)
                  && (hit.outgoing <==> Local(A4(h.ctx.src)) in devices))
            && (h.ctx.Context6? ==>
                  && hit.link == JoinKey(pr(h.ctx.src6), h.sport, pr(h.ctx.dst6), h.dport)
                  && (hit.outgoing <==> Local(A6(h.ctx.src6)) in devices))
  {
    hide JoinKey, DottedQuad, GetPid, PacketKey;
  }

  /** The code of a call: 41 without addresses, 43 if no row answers for it, 44 if nobody holds the
      inode, and 0 exactly if it is accepted. */
  lemma CallCode(pr: Printer6, devices: seq<LocalAddr>, ix: Index, h: Handling)
    ensures var code := HandleCode(pr, devices, ix, h);
            && (h.ctx == NoContext ==> code == 41)
            && (code == 0 <==> HitOf(pr, devices, ix, h).Some?)
            && forall f :: FlowOf(h.ctx, h.sport, h.dport) == Some(f) ==>
                 && (PacketKey(pr, devices, f) !in ix.net ==> code == 43)
                 && (PacketKey(pr, devices, f) in ix.net && ix.net[PacketKey(pr, devices, f)] !in ix.inodes ==> code == 44)
  {
    hide PacketKey, LinkText;
  }

  // ---------- handler calls ----------

  /** The calls that the frames of all rounds should cause. */
  function AllHandlings(links: seq<int>, envs: seq<Env>): seq<Handling> {
    if envs == [] then []
    else AllHandlings(links, envs[..|envs| - 1]) + RoundHandlings(links, envs[|envs| - 1], |links|)
  }

  lemma RoundCalls(pr: Printer6, s: State, env: Env)
    ensures Update(pr, s, env).books.calls == s.books.calls + RoundHandlings(Links(s.handles), env, |s.handles|)
  {
    hide Update, Dispatched, ReconcileStep, RoundHandlings, Links;
    ContextsAreCoherent(pr, s, env);
    UpdateParts(pr, s, env);
    ReconcileKeepsFrame(Measured(pr, s, env), env.parsed);
  }

  /** Over every run, on any handles, the handlers are called for exactly the TCP and UDP frames
      in order, each with the addresses and ports of that very frame. */
  lemma {:induction false} RunCalls(pr: Printer6, b: Boot, envs: seq<Env>)
    ensures Run(pr, b, envs).books.calls == AllHandlings(BootLinks(b), envs)
    decreases |envs|
  {
    hide Init, Update, RoundHandlings, Links, TrackAll;
    if envs == [] {
      InitParts(pr, b);
      InitCallsNothing(b, Init(pr, FRESH, b).cfg.memory);
    } else {
      var before := envs[..|envs| - 1];
      RunCalls(pr, b, before);
      RunKeepsFrame(pr, b, before);
      RoundCalls(pr, Run(pr, b, before), envs[|envs| - 1]);
    }
  }

  lemma InitCallsNothing(b: Boot, memory: U64)
    ensures TrackAll(FRESH.books, Live(b.listing), memory, 0, b.parsed).calls == []
  {
    hide Sorted, Born;
  }

  // ---------- updates ----------

  /** The bytes that rows report. */
  function RowBytes(rows: seq<ProcessRow>): nat {
    if rows == [] then 0 else RowBytes(rows[..|rows| - 1]) + rows[|rows| - 1].recv + rows[|rows| - 1].send
  }

  lemma LastElement(ks: seq<int>)
    requires Ascending(ks) && ks != []
    ensures Elements(ks) == Elements(ks[..|ks| - 1]) + {ks[|ks| - 1]}
    ensures ks[|ks| - 1] !in Elements(ks[..|ks| - 1])
  {
    assert ks == ks[..|ks| - 1] + [ks[|ks| - 1]];
  }

  lemma {:induction false} KeysHoldBytes(procs: map<int, Proc>, ks: seq<int>)
    requires Ascending(ks) && Within(ks, procs)
    ensures RowBytes(ProjectKeys(procs, ks)) + TotalBytes(procs - Elements(ks)) == TotalBytes(procs)
    decreases |ks|
  {
    hide TotalBytes;
    if ks == [] {
      assert procs - Elements(ks) == procs;
    } else {
      hide Elements;
      var before, k := ks[..|ks| - 1], ks[|ks| - 1];
      KeysHoldBytes(procs, before);
      LastElement(ks);
      var rest := procs - Elements(before);
      TotalWithout(rest, k);
      assert rest - {k} == procs - Elements(ks);
      assert ProjectKeys(procs, ks)[..|before|] == ProjectKeys(procs, before);
    }
  }

  lemma ProjectionHoldsBytes(procs: map<int, Proc>)
    ensures RowBytes(Project(procs)) == TotalBytes(procs)
  {
    hide RowBytes, ProjectKeys, Sorted, TotalBytes;
    SortedMembers(procs.Keys);
    KeysHoldBytes(procs, Sorted(procs.Keys));
    assert procs - Elements(Sorted(procs.Keys)) == map[];
    NoBytes();
  }

  lemma NoBytes()
    ensures TotalBytes(map[]) == 0
  {
  }

  /** What an update callback is worth: `size` rows, one per tracked process, by ascending pid. */
  ghost predicate FreshReport(rows: seq<ProcessRow>, size: nat, procs: map<int, Proc>) {
    && size == |procs| <= |rows|
    && (forall i :: 0 <= i < size ==> rows[i].pid in procs && rows[i] == RowOf(procs[rows[i].pid]))
    && (forall i, j :: 0 <= i < j < size ==> rows[i].pid < rows[j].pid)
  }

  /** The callbacks of the last round, in a run that ends with a full one. */
  lemma LastUpdate(pr: Printer6, b: Boot, envs: seq<Env>, last: Env, s: State, t: State)
    requires b.processCb && !last.cpu.CpuUnopened? && s == Run(pr, b, envs) && t == Run(pr, b, envs + [last])
    ensures |t.books.procs| < TWO32
    ensures t.callbacks == s.callbacks + Removals(Gone(Measured(pr, s, last)))
                           + [Updated(t.processData, |t.books.procs|)] + PacketPart(s, last, t)
    ensures |t.books.procs| <= |t.processData| && t.processData[..|t.books.procs|] == Project(t.books.procs)
  {
    hide Run, Update, Measured, Gone, Removals, PacketPart, Project, Configure, BootLinks;
    LastRound(pr, b, envs, last);
    RunKeepsFrame(pr, b, envs);
    BootSetsCallbacks(b);
    RoundPublishes(pr, s, last, t);
    SizeIsExact(pr, b, envs + [last]);
  }

  lemma StartIsFresh(rows: seq<ProcessRow>, procs: map<int, Proc>, known: set<int>)
    requires WellFiled(procs, known)
    requires |procs| <= |rows| && rows[..|procs|] == Project(procs)
    ensures FreshReport(rows, |procs|, procs)
  {
    hide Project;
    ProjectionOrder(procs, known);
    assert forall i :: 0 <= i < |procs| ==> rows[i] == Project(procs)[i];
  }

  /** In every run that ends with a full round and has a process callback: that round makes its
      removals, one update and at most a packet report; the update carries exactly one row per
      tracked process, by ascending pid and with no stale row among them, and its rows together
      with the entries ever erased report all accepted bytes. */
  lemma LastReport(pr: Printer6, b: Boot, envs: seq<Env>, last: Env, s: State, t: State)
    requires b.processCb && !last.cpu.CpuUnopened? && s == Run(pr, b, envs) && t == Run(pr, b, envs + [last])
    ensures |t.books.procs| < TWO32
    ensures t.callbacks == s.callbacks + Removals(Gone(Measured(pr, s, last)))
                           + [Updated(t.processData, |t.books.procs|)] + PacketPart(s, last, t)
    ensures FreshReport(t.processData, |t.books.procs|, t.books.procs)
    ensures Accounts(RowBytes(t.processData[..|t.books.procs|]) + ErasedBytes(t.books.life), AcceptedBytes(pr, b, envs + [last]))
  {
    hide Run, RowBytes, TotalBytes, ErasedBytes, AcceptedBytes, Accounts, Project, Measured, Gone, Removals, PacketPart;
    LastUpdate(pr, b, envs, last, s, t);
    EntriesAreFiled(pr, b, envs + [last]);
    StartIsFresh(t.processData, t.books.procs, EverListed(b, envs + [last]));
    ProjectionHoldsBytes(t.books.procs);
    RunAccounted(pr, b, envs + [last]);
  }

  lemma LastRound(pr: Printer6, b: Boot, envs: seq<Env>, last: Env)
    ensures Run(pr, b, envs + [last]) == Update(pr, Run(pr, b, envs), last)
  {
    hide Update, Init;
    assert (envs + [last])[..|envs|] == envs;
  }

  lemma BootSetsCallbacks(b: Boot)
    ensures Configure(FRESH.cfg, b).processCb == b.processCb && Configure(FRESH.cfg, b).packetCb == b.packetCb
  {
  }
}
