/** What the rows of an update tell about their processes, field by field, over any run. */
module Rows {
  import opened Text
  import opened Ordered
  import opened Packets
  import opened InodeIndex
  import opened Processes
  import opened Monitor
  import opened Deliveries
  import opened Runs
  import opened Accounting
  import opened Ledger
  import opened Tracking
  import opened Parses
  import opened Reports

  /** `shown` is the text up to its first NUL, as far as there is room for it. */
  predicate ShowsText(shown: string, text: string, room: nat) {
    && shown <= text && '\0' !in shown && |shown| <= room
    && (shown == text || |shown| == room || text[|shown|] == '\0')
  }

  lemma FieldShows(f: Field)
    ensures ShowsText(f.Shown(), f.text, f.room)
  {
    if '\0' in f.text { CutSplits(f.text, '\0'); }
  }

  /** A row shows the copied fields. */
  predicate DescrShown(row: ProcessRow, d: Descr) {
    && ShowsText(row.name.Shown(), d.name, 127) && ShowsText(row.cmdline.Shown(), d.cmdline, 511)
    && ShowsText(row.user.Shown(), d.user, 127) && ShowsText(row.group.Shown(), d.group, 127)
    && row.uid == d.uid && row.gid == d.gid && row.fdCnt == d.fdCnt && row.memory == d.memory
    && row.ioRead == d.ioRead && row.ioWrite == d.ioWrite
  }

  /** What a row shows of an entry. */
  predicate EntryShown(row: ProcessRow, p: Proc) {
    && DescrShown(row, p.descr) && row.pid == p.pid
    && row.cpuPercent == p.cpuPercent && row.memPercent == p.memPercent
    && row.recv == p.recv && row.send == p.send
  }

  lemma RowShowsEntry(p: Proc)
    ensures EntryShown(RowOf(p), p)
  {
    hide ShowsText;
    FieldShows(RowOf(p).name);
    FieldShows(RowOf(p).cmdline);
    FieldShows(RowOf(p).user);
    FieldShows(RowOf(p).group);
  }

  /** The row tells of its process: as sent and received, what packets brought that are not in
      erased entries; the fields and shares of the last parses that set them. */
  ghost predicate RowTells(pr: Printer6, b: Boot, envs: seq<Env>, life: seq<Life>, row: ProcessRow) {
    && Accounts(row.send + ErasedOf(life, row.pid, true), AcceptedFor(pr, b, envs, row.pid, true))
    && Accounts(row.recv + ErasedOf(life, row.pid, false), AcceptedFor(pr, b, envs, row.pid, false))
    && (exists d :: DescrTells(d, RunParses(pr, b, envs, row.pid)) && DescrShown(row, d))
    && MemoryTells(row.memPercent, MemoryOf(b), RunParses(pr, b, envs, row.pid))
    && ShareTells(row.cpuPercent, RunParses(pr, b, envs, row.pid))
  }

  lemma EntryRowTells(pr: Printer6, b: Boot, envs: seq<Env>, pid: int, row: ProcessRow)
    requires pid in Run(pr, b, envs).books.procs && EntryShown(row, Run(pr, b, envs).books.procs[pid])
    ensures row.pid == pid && RowTells(pr, b, envs, Run(pr, b, envs).books.life, row)
  {
    hide Run, RunParses, AcceptedFor, ErasedOf, DescrTells, MemoryTells, ShareTells, DescrShown, Accounts;
    EntriesAreFiled(pr, b, envs);
    EntryTells(pr, b, envs, pid);
    RunCounted(pr, b, envs, pid, true);
    RunCounted(pr, b, envs, pid, false);
  }

  /** In every run that ends with a full round and has a process callback, every row of the last
      update, up to its size, tells of its process, and every tracked process has such a row. */
  lemma RowsTell(pr: Printer6, b: Boot, envs: seq<Env>, last: Env, t: State)
    requires b.processCb && !last.cpu.CpuUnopened? && t == Run(pr, b, envs + [last])
    ensures |t.books.procs| <= |t.processData|
    ensures forall i :: 0 <= i < |t.books.procs| ==> RowTells(pr, b, envs + [last], t.books.life, t.processData[i])
    ensures forall pid :: pid in t.books.procs ==> exists i :: 0 <= i < |t.books.procs| && t.processData[i].pid == pid
  {
    hide Run, RowTells, EntryShown, Project, Measured, Gone, Removals, PacketPart, Sorted, RowOf;
    LastUpdate(pr, b, envs, last, Run(pr, b, envs), t);
    var ks, rows := Sorted(t.books.procs.Keys), Project(t.books.procs);
    ProjectRows(t.books.procs);
    SortedMembers(t.books.procs.Keys);
    forall i | 0 <= i < |t.books.procs|
      ensures t.processData[i].pid == ks[i] && RowTells(pr, b, envs + [last], t.books.life, t.processData[i])
    {
      assert t.processData[i] == t.processData[..|t.books.procs|][i] == RowOf(t.books.procs[ks[i]]);
      RowShowsEntry(t.books.procs[ks[i]]);
      EntryRowTells(pr, b, envs + [last], ks[i], t.processData[i]);
    }
    forall pid | pid in t.books.procs ensures exists i :: 0 <= i < |t.books.procs| && t.processData[i].pid == pid {
      var i :| 0 <= i < |ks| && ks[i] == pid;
      assert t.processData[i].pid == pid;
    }
  }
}
