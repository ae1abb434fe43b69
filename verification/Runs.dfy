/** What stays fixed over a run, and how the books of a round are made. */
module Runs {
  import opened Text
  import opened Picking
  import opened Ordered
  import opened Packets
  import opened InodeIndex
  import opened Processes
  import opened Frames
  import opened Reconcile
  import opened Monitor
  import opened Deliveries

  /** The link types of the handles that `Init` opens. */
  function BootLinks(b: Boot): seq<int> {
    if b.devices == [] then [] else Links(Opened(b.links, |b.devices|))
  }

  lemma ReconcileKeepsFrame(s: State, parsed: int -> ProcRead)
    ensures var t := ReconcileStep(s, parsed);
            t.cfg == s.cfg && t.handles == s.handles && t.pids == s.pids && t.index == s.index && t.meter == s.meter
            && t.processData == s.processData
            && t.books.packetData == s.books.packetData && t.books.calls == s.books.calls
  {
    hide Reparsed, Doomed, Erasures, Removals;
  }

  lemma PublishKeepsFrame(s: State, ret: int)
    ensures var t := PublishPackets(PublishProcesses(s), ret);
            t == s.(processData := t.processData, callbacks := t.callbacks)
  {
    hide Project, Overwrite;
  }

  lemma DispatchKeepsFrame(pr: Printer6, s: State, env: Env)
    ensures var t := Dispatched(pr, s, env);
            t.cfg == s.cfg && Links(t.handles) == Links(s.handles) && t.meter == s.meter && t.pids == Live(env.listing)
            && t.processData == s.processData && t.callbacks == s.callbacks
  {
    hide DispatchTo, BuildIndex, RoundHits, TakeHits, Links;
    DispatchTakesHits(pr, s, env);
  }

  /** A round keeps the configuration and the link types; its books are those of the packet
      phase, reconciled unless the round ended early, in which case it reports nothing. */
  lemma UpdateParts(pr: Printer6, s: State, env: Env)
    ensures var t := Update(pr, s, env);
            && t.cfg == s.cfg && Links(t.handles) == Links(s.handles) && t.pids == Live(env.listing)
            && t.meter == ReadTotal(s.meter, env.cpu)
            && t.books == if env.cpu.CpuUnopened? then Dispatched(pr, s, env).books
                          else ReconcileStep(Measured(pr, s, env), env.parsed).books
    ensures env.cpu.CpuUnopened? ==>
              Update(pr, s, env).callbacks == s.callbacks && Update(pr, s, env).processData == s.processData
  {
    hide Dispatched, ReconcileStep, PublishPackets, PublishProcesses, Links;
    DispatchKeepsFrame(pr, s, env);
    var r := ReconcileStep(Measured(pr, s, env), env.parsed);
    ReconcileKeepsFrame(Measured(pr, s, env), env.parsed);
    PublishKeepsFrame(r, LastRet(s, env));
  }

  lemma InitParts(pr: Printer6, b: Boot)
    ensures var t := Init(pr, FRESH, b);
            && t.cfg == Configure(FRESH.cfg, b) && t.cfg.devices == b.devices && t.meter == Meter(0, 0)
            && Links(t.handles) == BootLinks(b)
            && t.pids == (if b.devices == [] then {} else Live(b.listing))
            && t.books == (if b.devices == [] then FRESH.books
                           else TrackAll(FRESH.books, Live(b.listing), t.cfg.memory, 0, b.parsed))
            && t.processData == [] && t.callbacks == []
  {
    hide BuildIndex, TrackAll, Opened;
    assert [] + b.devices == b.devices;
    assert [] + Opened(b.links, |b.devices|) == Opened(b.links, |b.devices|);
  }

  lemma {:induction false} RunKeepsFrame(pr: Printer6, b: Boot, envs: seq<Env>)
    ensures var t := Run(pr, b, envs);
            t.cfg == Configure(FRESH.cfg, b) && t.cfg.devices == b.devices && Links(t.handles) == BootLinks(b)
    decreases |envs|
  {
    hide Init, Update, Links, BootLinks;
    if envs == [] {
      InitParts(pr, b);
    } else {
      RunKeepsFrame(pr, b, envs[..|envs| - 1]);
      UpdateParts(pr, Run(pr, b, envs[..|envs| - 1]), envs[|envs| - 1]);
    }
  }

  // ---------- the handles ----------

  lemma {:induction false} OpenedArePicked(links: nat -> Option<int>, n: nat)
    ensures Picks(seq(n, i requires 0 <= i < n => links(i)), Links(Opened(links, n)))
    ensures forall i :: 0 <= i < |Opened(links, n)| ==> Opened(links, n)[i].ctx == NoContext
  {
    hide Picks, Links;
    var xs := seq(n, i requires 0 <= i < n => links(i));
    if n == 0 {
      NoLinks();
      PicksNone<int>();
      assert xs == [];
    } else {
      OpenedArePicked(links, n - 1);
      var ys := seq(n - 1, i requires 0 <= i < n - 1 => links(i));
      PicksOne(ys, Links(Opened(links, n - 1)), links(n - 1));
      assert xs == ys + [links(n - 1)];
      LinksNext(Opened(links, n - 1), links(n - 1));
    }
  }

  lemma NoLinks()
    ensures Links([]) == []
  {
  }

  lemma LinksNext(handles: seq<HandleState>, link: Option<int>)
    ensures Links(handles + (match link case None => [] case Some(l) => [HandleState(l, NoContext)])) == Links(handles) + link.ToSeq()
  {
    match link
    case None => assert handles + [] == handles && Links(handles) + [] == Links(handles);
    case Some(l) => assert (handles + [HandleState(l, NoContext)])[..|handles|] == handles;
  }

  /** Over every run there is one handle for each device that could be opened, in the order of the
      devices, and it has the link type of that device. */
  lemma RunHandles(pr: Printer6, b: Boot, envs: seq<Env>)
    ensures var n := |b.devices|;
            var handles := Run(pr, b, envs).handles;
            var xs := seq(n, i requires 0 <= i < n => b.links(i));
            && |handles| == |Present(xs, n)|
            && forall i :: 0 <= i < n && b.links(i).Some? ==>
                 |Present(xs, i)| < |handles| && handles[|Present(xs, i)|].link == b.links(i).value
  {
    hide Run, Opened;
    var n := |b.devices|;
    RunKeepsFrame(pr, b, envs);
    OpenedArePicked(b.links, n);
    var xs := seq(n, i requires 0 <= i < n => b.links(i));
    assert n == 0 ==> Opened(b.links, 0) == [] by { NoneOpened(b.links); }
    assert Picks(xs, Links(Run(pr, b, envs).handles));
    assert forall i :: 0 <= i < n && b.links(i).Some? ==> i in Present(xs, n);
  }

  lemma NoneOpened(links: nat -> Option<int>)
    ensures Opened(links, 0) == []
  {
  }

  /** An Ethernet device, one that does not open and a raw one give an Ethernet and a raw handle. */
  lemma HandlesInstance(pr: Printer6, b: Boot, envs: seq<Env>)
    requires |b.devices| == 3
    requires b.links(0) == Some(1) && b.links(1) == None && b.links(2) == Some(12)
    ensures |Run(pr, b, envs).handles| == 2
    ensures Run(pr, b, envs).handles[0].link == 1 && Run(pr, b, envs).handles[1].link == 12
  {
    hide Run;
    RunHandles(pr, b, envs);
    var xs := seq(3, i requires 0 <= i < 3 => b.links(i));
    assert Present(xs, 0) == {} && Present(xs, 2) == {0} && Present(xs, 3) == {0, 2};
  }

  // ---------- rounds from any state ----------

  /** Any number of rounds from a given state. */
  function Steps(pr: Printer6, s: State, envs: seq<Env>): State
    decreases |envs|
  {
    if envs == [] then s else Update(pr, Steps(pr, s, envs[..|envs| - 1]), envs[|envs| - 1])
  }

  lemma LastStep(pr: Printer6, s: State, envs: seq<Env>, last: Env)
    ensures Steps(pr, s, envs + [last]) == Update(pr, Steps(pr, s, envs), last)
  {
    hide Update;
    assert (envs + [last])[..|envs|] == envs;
  }

  lemma NoSteps(pr: Printer6, s: State)
    ensures Steps(pr, s, []) == s
  {
  }

  // ---------- the packet phase ----------

  /** The books after the packet phase, without the trace of calls. */
  lemma PacketPhase(pr: Printer6, s: State, env: Env)
    ensures var t := Dispatched(pr, s, env).books;
            var u := TakeHits(DeskOf(StartRound(pr, s, env)), s.books.(packetIdx := 0), env.created,
                              RoundHits(pr, s.cfg.devices, Links(s.handles), env));
            t.procs == u.procs && t.life == u.life && t.packetData == u.packetData && t.packetIdx == u.packetIdx
  {
    hide DispatchTo, BuildIndex, RoundHits, TakeHits, Links;
    DispatchTakesHits(pr, s, env);
  }

  /** Every accepted packet of a round belongs to a process listed in that round. */
  lemma HitsAreLive(pr: Printer6, devices: seq<LocalAddr>, links: seq<int>, env: Env)
    ensures forall i :: 0 <= i < |RoundHits(pr, devices, links, env)| ==>
              RoundHits(pr, devices, links, env)[i].pid in Live(env.listing)
  {
    hide HitsOf, RoundHandlings, BuildIndex;
    HitsFromLookups(pr, devices, env, RoundHandlings(links, env, |links|));
  }

  lemma {:induction false} HitsFromLookups(pr: Printer6, devices: seq<LocalAddr>, env: Env, hs: seq<Handling>)
    ensures var ix := BuildIndex(pr, devices, env.tables, Live(env.listing), env.fds);
            forall i :: 0 <= i < |HitsOf(pr, devices, ix, hs)| ==> HitsOf(pr, devices, ix, hs)[i].pid in Live(env.listing)
    decreases |hs|
  {
    hide HitOf, BuildIndex;
    if hs != [] {
      HitsFromLookups(pr, devices, env, hs[..|hs| - 1]);
      HitIsLive(pr, devices, env, hs[|hs| - 1]);
    }
  }

  lemma HitIsLive(pr: Printer6, devices: seq<LocalAddr>, env: Env, h: Handling)
    ensures var hit := HitOf(pr, devices, BuildIndex(pr, devices, env.tables, Live(env.listing), env.fds), h);
            hit.Some? ==> hit.value.pid in Live(env.listing)
  {
    hide BuildIndex, PacketKey, LinkText;
    var f := FlowOf(h.ctx, h.sport, h.dport);
    if f.Some? {
      LookupIsLive(pr, devices, env.tables, Live(env.listing), env.fds, PacketKey(pr, devices, f.value));
    }
  }
}
