/** The monitor as a state machine on values: what `Init` and one `Update` make of a state
    when everything they read from the system is given. */
module Monitor {
  import opened Text
  import opened Ordered
  import opened Errors
  import opened Packets
  import opened InodeIndex
  import opened Processes
  import opened Frames
  import opened Reconcile

  // ---------- reported rows ----------

  /** A zeroed character array of `room + 1` bytes into which `strncpy` copied `text`. */
  datatype Field = Field(text: string, room: nat) {
    /** What a reader of the field sees: the text up to its first NUL, as far as there is room. */
    function Shown(): string {
      var t := match Cut(text, '\0') case None => text case Some(c) => c.0;
      if |t| <= room then t else t[..room]
    }
  }

  datatype ProcessRow = ProcessRow(name: Field, cmdline: Field, user: Field, group: Field,
                                   pid: int, uid: U32, gid: U32, fdCnt: U32, memory: U64,
                                   cpuPercent: real, memPercent: real,
                                   ioRead: U64, ioWrite: U64, recv: U64, send: U64)

  function RowOf(p: Proc): ProcessRow {
    var d := p.descr;
    ProcessRow(Field(d.name, 127), Field(d.cmdline, 511), Field(d.user, 127), Field(d.group, 127),
               p.pid, d.uid, d.gid, d.fdCnt, d.memory, p.cpuPercent, p.memPercent,
               d.ioRead, d.ioWrite, p.recv, p.send)
  }

  datatype PacketRow = PacketRow(hash: Field, family: Kind, packetSize: U32)

  // ---------- what a round reads ----------

  type Pid = p: int | 0 <= p < 0x8000_0000

  /** The packets one handle delivers in a round, and the value its dispatch returns. */
  datatype Dispatch = Dispatch(frames: seq<Frame>, ret: int)

  /** /proc/stat: not opened, no matching line, or the total of the first matching line. */
  datatype CpuRead = CpuUnopened | CpuNoLine | CpuLine(total: U64)

  /** Everything one `Update` takes from outside: the pids in /proc, the socket tables, the fd
      directories, the packets of each handle, the CPU total, and the outcome of parsing a
      process when a packet creates its entry and when the reconcile loop visits it. */
  datatype Env = Env(listing: Option<set<Pid>>, tables: Tables, fds: FdDirs, dispatch: nat -> Dispatch,
                     cpu: CpuRead, created: int -> ProcRead, parsed: int -> ProcRead)

  /** Everything `Init` takes: the devices, the link type of each device's handle if it could be
      opened, which callbacks are set, the memory size if it could be read, and a first listing. */
  datatype Boot = Boot(devices: seq<LocalAddr>, links: nat -> Option<int>, processCb: bool, packetCb: bool,
                       memory: Option<U64>, listing: Option<set<Pid>>, tables: Tables, fds: FdDirs,
                       parsed: int -> ProcRead)

  function Live(listing: Option<set<Pid>>): set<int> {
    if listing.None? then {} else listing.value
  }

  // ---------- states and traces ----------

  /** The tracked entries' comings and goings, with the byte counters an entry had when it went. */
  datatype Life = Added(pid: int) | Erased(pid: int, recv: nat, send: nat)

  /** What the callbacks are given. */
  datatype Callback =
    | Removed(pid: int)
    | Updated(rows: seq<ProcessRow>, size: U32)
    | Reported(packets: seq<PacketRow>, count: int)

  datatype Config = Config(devices: seq<LocalAddr>, processCb: bool, packetCb: bool, memory: U64)

  /** What packets change: the tracked processes, the packet buffer with its next slot, and the
      traces of entries and of handler calls. */
  datatype Books = Books(procs: map<int, Proc>, packetData: seq<PacketRow>, packetIdx: nat,
                         life: seq<Life>, calls: seq<Handling>)

  datatype State = State(cfg: Config, handles: seq<HandleState>, pids: set<int>, index: Index, meter: Meter,
                         books: Books, processData: seq<ProcessRow>, callbacks: seq<Callback>)

  const FRESH := State(Config([], false, false, 0), [], {}, Index(map[], map[]), Meter(0, 0),
                       Books(map[], [], 0, [], []), [], [])

  // ---------- Init ----------

  function Opened(links: nat -> Option<int>, n: nat): seq<HandleState> {
    if n == 0 then []
    else Opened(links, n - 1) + (match links(n - 1) case None => [] case Some(l) => [HandleState(l, NoContext)])
  }

  function Additions(ps: seq<int>): seq<Life> {
    if ps == [] then [] else Additions(ps[..|ps| - 1]) + [Added(ps[|ps| - 1])]
  }

  function Born(pid: int, memory: U64, deltaCpu: U64, read: ProcRead): Proc {
    ParseProc(NewProc(pid), memory, deltaCpu, read)
  }

  lemma BornPid(pid: int, memory: U64, deltaCpu: U64, read: ProcRead)
    ensures Born(pid, memory, deltaCpu, read).pid == pid && Bytes(Born(pid, memory, deltaCpu, read)) == 0
  {
    ParseKeepsCounters(NewProc(pid), memory, deltaCpu, read);
  }

  function BornAll(pids: set<int>, memory: U64, deltaCpu: U64, parsed: int -> ProcRead): map<int, Proc> {
    map p | p in pids :: Born(p, memory, deltaCpu, parsed(p))
  }

  lemma BornStep(procs: map<int, Proc>, pids: set<int>, p: int, memory: U64, deltaCpu: U64, parsed: int -> ProcRead)
    ensures (procs + BornAll(pids, memory, deltaCpu, parsed))[p := Born(p, memory, deltaCpu, parsed(p))]
         == procs + BornAll(pids + {p}, memory, deltaCpu, parsed)
  {
  }

  /** One fresh entry per listed pid. */
  function TrackAll(b: Books, pids: set<int>, memory: U64, deltaCpu: U64, parsed: int -> ProcRead): Books {
    b.(procs := b.procs + BornAll(pids, memory, deltaCpu, parsed), life := b.life + Additions(Sorted(pids)))
  }

  function Configure(c: Config, b: Boot): Config {
    Config(c.devices + b.devices, b.processCb, b.packetCb, if b.memory.Some? then b.memory.value else c.memory)
  }

  function Observe(pr: Printer6, s: State, listing: Option<set<Pid>>, tables: Tables, fds: FdDirs): State {
    s.(pids := Live(listing), index := BuildIndex(pr, s.cfg.devices, tables, Live(listing), fds))
  }

  function Init(pr: Printer6, s: State, b: Boot): State {
    var s1 := s.(cfg := Configure(s.cfg, b));
    if s1.cfg.devices == [] then s1
    else
      var s2 := Observe(pr, s1.(handles := s1.handles + Opened(b.links, |s1.cfg.devices|)), b.listing, b.tables, b.fds);
      s2.(books := TrackAll(s2.books, s2.pids, s2.cfg.memory, s2.meter.delta, b.parsed))
  }

  // ---------- packets ----------

  /** What the packet handlers read and do not change. */
  datatype Desk = Desk(devices: seq<LocalAddr>, index: Index, memory: U64, deltaCpu: U64, packetCb: bool)

  function DeskOf(s: State): Desk {
    Desk(s.cfg.devices, s.index, s.cfg.memory, s.meter.delta, s.cfg.packetCb)
  }

  /** A packet whose lookup succeeded. */
  datatype Hit = Hit(pid: int, outgoing: bool, kind: Kind, link: string, len: U32)

  function HitOf(pr: Printer6, devices: seq<LocalAddr>, ix: Index, h: Handling): Option<Hit> {
    var f :- FlowOf(h.ctx, h.sport, h.dport);
    match GetPid(ix, PacketKey(pr, devices, f))
    case Found(pid) => Some(Hit(pid, IsLocal(devices, f.src), h.kind, LinkText(pr, f), h.len))
    case NoIp => None
    case NoInode => None
  }

  function HandleCode(pr: Printer6, devices: seq<LocalAddr>, ix: Index, h: Handling): int {
    match FlowOf(h.ctx, h.sport, h.dport)
    case None => CAP_NET_UNKNOW
    case Some(f) => GetPid(ix, PacketKey(pr, devices, f)).Code()
  }

  /** The entry that a packet finds: the tracked one, or a new one. */
  function EntryFor(procs: map<int, Proc>, memory: U64, deltaCpu: U64, created: int -> ProcRead, pid: int): Proc {
    if pid in procs then procs[pid] else Born(pid, memory, deltaCpu, created(pid))
  }

  /** The packet is credited to its process, which is added first if it was not tracked. */
  function CreditHit(d: Desk, b: Books, created: int -> ProcRead, hit: Hit): Books {
    b.(procs := b.procs[hit.pid := Credit(EntryFor(b.procs, d.memory, d.deltaCpu, created, hit.pid), hit.outgoing, hit.len)],
       life := if hit.pid in b.procs then b.life else b.life + [Added(hit.pid)])
  }

  /** The packet's row goes into slot `idx`. A slot that is reused is marked TCP whatever the
      packet is; only a new slot gets the packet's own kind. */
  function FileRow(data: seq<PacketRow>, idx: nat, kind: Kind, link: string, len: U32): seq<PacketRow> {
    if idx < |data| then data[idx := PacketRow(Field(link, 127), Tcp, len)]
    else data + [PacketRow(Field(link, 127), kind, len)]
  }

  function FileHit(d: Desk, b: Books, hit: Hit): Books {
    if !d.packetCb then b
    else b.(packetData := FileRow(b.packetData, b.packetIdx, hit.kind, hit.link, hit.len), packetIdx := b.packetIdx + 1)
  }

  /** A call whose lookup gave `found`. */
  function DeliverFound(d: Desk, b: Books, created: int -> ProcRead, h: Handling, found: Option<Hit>): Books {
    var b0 := b.(calls := b.calls + [h]);
    match found
    case None => b0
    case Some(hit) => FileHit(d, CreditHit(d, b0, created, hit), hit)
  }

  /** The books after a successful lookup, part by part. */
  lemma DeliverFoundParts(d: Desk, b: Books, created: int -> ProcRead, h: Handling, hit: Hit)
    ensures var t := DeliverFound(d, b, created, h, Some(hit));
            && t.procs == b.procs[hit.pid := Credit(EntryFor(b.procs, d.memory, d.deltaCpu, created, hit.pid), hit.outgoing, hit.len)]
            && t.life == (if hit.pid in b.procs then b.life else b.life + [Added(hit.pid)])
            && t.packetData == (if d.packetCb then FileRow(b.packetData, b.packetIdx, hit.kind, hit.link, hit.len) else b.packetData)
            && t.packetIdx == (if d.packetCb then b.packetIdx + 1 else b.packetIdx)
            && t.calls == b.calls + [h]
  {
  }

  function Deliver(pr: Printer6, d: Desk, b: Books, created: int -> ProcRead, h: Handling): Books {
    DeliverFound(d, b, created, h, HitOf(pr, d.devices, d.index, h))
  }

  /** A handle and the books while the handle is dispatched. */
  datatype Lane = Lane(handle: HandleState, books: Books)

  /** A routed frame: the handle's context is set, then read back for the call. */
  function RouteStep(pr: Printer6, d: Desk, lane: Lane, created: int -> ProcRead, f: Frame, r: Route): Lane {
    match r
    case Unrouted => lane
    case Routed(ctx, proto, at) =>
      var handle := lane.handle.(ctx := ctx);
      match KindOf(proto)
      case None => Lane(handle, lane.books)
      case Some(kind) => Lane(handle, Deliver(pr, d, lane.books, created, HandlingAt(kind, handle.ctx, f, at)))
  }

  function FrameStep(pr: Printer6, d: Desk, lane: Lane, created: int -> ProcRead, f: Frame): Lane {
    RouteStep(pr, d, lane, created, f, RouteOf(lane.handle.link, f))
  }

  function FrameSteps(pr: Printer6, d: Desk, lane: Lane, created: int -> ProcRead, frames: seq<Frame>): Lane
    decreases |frames|
  {
    if frames == [] then lane
    else FrameStep(pr, d, FrameSteps(pr, d, lane, created, frames[..|frames| - 1]), created, frames[|frames| - 1])
  }

  /** Handle `i` is dispatched. */
  function DispatchOne(pr: Printer6, s: State, env: Env, i: nat): (s': State)
    requires i < |s.handles|
    ensures |s'.handles| == |s.handles|
  {
    var lane := FrameSteps(pr, DeskOf(s), Lane(s.handles[i], s.books), env.created, env.dispatch(i).frames);
    s.(handles := s.handles[i := lane.handle], books := lane.books)
  }

  /** The first `n` handles are dispatched in turn. */
  function DispatchTo(pr: Printer6, s: State, env: Env, n: nat): (s': State)
    requires n <= |s.handles|
    ensures |s'.handles| == |s.handles|
  {
    if n == 0 then s else DispatchOne(pr, DispatchTo(pr, s, env, n - 1), env, n - 1)
  }

  function LastRet(s: State, env: Env): int {
    if s.handles == [] then 0 else env.dispatch(|s.handles| - 1).ret
  }

  // ---------- the end of a round ----------

  function ReadTotal(m: Meter, c: CpuRead): Meter {
    if c.CpuLine? then Read(m, c.total) else m
  }

  predicate Within(ks: seq<int>, procs: map<int, Proc>) {
    forall i :: 0 <= i < |ks| ==> ks[i] in procs
  }

  function ErasureOf(k: int, p: Proc): Life { Erased(k, p.recv, p.send) }

  function Erasures(procs: map<int, Proc>, ks: seq<int>): seq<Life>
    requires Within(ks, procs)
  {
    if ks == [] then []
    else Erasures(procs, ks[..|ks| - 1]) + [ErasureOf(ks[|ks| - 1], procs[ks[|ks| - 1]])]
  }

  function Removals(ks: seq<int>): seq<Callback> {
    if ks == [] then [] else Removals(ks[..|ks| - 1]) + [Removed(ks[|ks| - 1])]
  }

  /** The tracked pids that this round's reconcile erases, in the order it does so. */
  function Doomed(pids: set<int>, procs: map<int, Proc>): (ks: seq<int>)
    ensures Ascending(ks) && Within(ks, procs)
  {
    if |pids| == |procs| then []
    else
      WalkAscends(Sorted(pids), Sorted(procs.Keys));
      SortedMembers(procs.Keys);
      Walk(Sorted(pids), Sorted(procs.Keys))
  }

  /** The entries after a merge that erases `doomed`: the live ones among the rest are parsed. */
  function Reparsed(procs: map<int, Proc>, pids: set<int>, doomed: seq<int>, memory: U64, deltaCpu: U64,
                    parsed: int -> ProcRead): map<int, Proc>
  {
    map k | k in procs && k !in doomed ::
      if k in pids then ParseProc(procs[k], memory, deltaCpu, parsed(k)) else procs[k]
  }

  function ReconcileStep(s: State, parsed: int -> ProcRead): State {
    if |s.pids| == |s.books.procs| then s
    else
      var doomed := Doomed(s.pids, s.books.procs);
      s.(books := s.books.(procs := Reparsed(s.books.procs, s.pids, doomed, s.cfg.memory, s.meter.delta, parsed),
                               life := s.books.life + Erasures(s.books.procs, doomed)),
         callbacks := if s.cfg.processCb then s.callbacks + Removals(doomed) else s.callbacks)
  }

  /** The rows of the given entries, in the given order. */
  function ProjectKeys(procs: map<int, Proc>, ks: seq<int>): (rows: seq<ProcessRow>)
    requires Within(ks, procs)
    ensures |rows| == |ks|
    ensures forall i :: 0 <= i < |ks| ==> rows[i] == RowOf(procs[ks[i]])
  {
    if ks == [] then [] else ProjectKeys(procs, ks[..|ks| - 1]) + [RowOf(procs[ks[|ks| - 1]])]
  }

  /** The report built from scratch: one row per entry, by ascending pid. */
  function Project(procs: map<int, Proc>): (rows: seq<ProcessRow>)
    ensures |rows| == |procs|
  {
    SortedMembers(procs.Keys);
    ProjectKeys(procs, Sorted(procs.Keys))
  }

  predicate RowsFor(ks: seq<int>, procs: map<int, Proc>, rows: seq<ProcessRow>) {
    |rows| == |ks| && forall i :: 0 <= i < |ks| ==> ks[i] in procs && rows[i] == RowOf(procs[ks[i]])
  }

  lemma ProjectRows(procs: map<int, Proc>)
    ensures RowsFor(Sorted(procs.Keys), procs, Project(procs))
  {
    SortedMembers(procs.Keys);
  }

  /** A buffer that never shrinks, with the given rows written over its start. */
  function Overwrite<T>(buffer: seq<T>, rows: seq<T>): seq<T> {
    if |rows| < |buffer| then rows + buffer[|rows|..] else rows
  }

  function PublishProcesses(s: State): State {
    if !s.cfg.processCb then s
    else
      var buffer := Overwrite(s.processData, Project(s.books.procs));
      s.(processData := buffer, callbacks := s.callbacks + [Updated(buffer, |s.books.procs| % TWO32)])
  }

  function PublishPackets(s: State, ret: int): State {
    if s.cfg.packetCb && ret > 0 && s.books.packetData != []
    then s.(callbacks := s.callbacks + [Reported(s.books.packetData, ret)])
    else s
  }

  // ---------- Update ----------

  function StartRound(pr: Printer6, s: State, env: Env): State {
    Observe(pr, s.(books := s.books.(packetIdx := 0)), env.listing, env.tables, env.fds)
  }

  lemma StartKeepsHandles(pr: Printer6, s: State, env: Env)
    ensures StartRound(pr, s, env).handles == s.handles
  {
  }

  function Dispatched(pr: Printer6, s: State, env: Env): State {
    DispatchTo(pr, StartRound(pr, s, env), env, |s.handles|)
  }

  /** The state that the reconcile of this round starts from. */
  function Measured(pr: Printer6, s: State, env: Env): State {
    var s1 := Dispatched(pr, s, env);
    s1.(meter := ReadTotal(s1.meter, env.cpu))
  }

  /** One round. When /proc/stat cannot be opened it ends after the packets. */
  function Update(pr: Printer6, s: State, env: Env): State {
    if env.cpu.CpuUnopened? then Dispatched(pr, s, env)
    else PublishPackets(PublishProcesses(ReconcileStep(Measured(pr, s, env), env.parsed)), LastRet(s, env))
  }

  /** The state after `Init` on a fresh monitor and any number of rounds. */
  function Run(pr: Printer6, b: Boot, envs: seq<Env>): State
    decreases |envs|
  {
    if envs == [] then Init(pr, FRESH, b)
    else Update(pr, Run(pr, b, envs[..|envs| - 1]), envs[|envs| - 1])
  }
}
