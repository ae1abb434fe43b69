/** The two-stage index: 4-tuple text -> socket inode -> pid, rebuilt by every refresh. */
module InodeIndex {
  import opened Text
  import opened Packets
  import opened Ordered
  import opened Errors

  // ---------- rows of /proc/net/{tcp,tcp6,udp,udp6} ----------

  /** What `%64[0-9A-Fa-f]` accepts. */
  type HexText = s: string | 1 <= |s| <= 64 && AllHex(s) witness "0"

  /** A line as `sscanf` leaves it: not all five fields matched, or the five fields. */
  datatype SocketRow =
    | Malformed
    | SocketRow(locAddr: HexText, locPort: int, remAddr: HexText, remPort: int, inode: U64)

  datatype Socket = Socket(local: Addr, lport: int, remote: Addr, rport: int, inode: U64)

  lemma HexWordBound(s: string)
    requires AllHex(s) && |s| <= 8
    ensures HexVal(s) < TWO32
  {
    HexBound(s);
    assert Pow16(0) == 1 && Pow16(1) == 16 && Pow16(2) == 256 && Pow16(3) == 4096;
    assert Pow16(4) == 65536 && Pow16(5) == 1048576 && Pow16(6) == 16777216 && Pow16(7) == 268435456;
    assert Pow16(8) == TWO32;
  }

  /** `%X` into an `unsigned int`: saturates with `unsigned long`, then keeps 32 bits. */
  function ScanHex(s: HexText): U32 {
    if HexVal(s) < TWO64 then HexVal(s) % TWO32 else TWO32 - 1
  }

  /** The `i`-th of consecutive `%08X`, zero when no digit is left for it. */
  function WordAt(s: HexText, i: nat): U32 {
    if |s| <= 8 * i then 0
    else
      var t := s[8 * i..if |s| < 8 * i + 8 then |s| else 8 * i + 8];
      HexWordBound(t);
      HexVal(t)
  }

  function ScanWords(s: HexText): Ip6 {
    Ip6(QuadOf(WordAt(s, 0)), QuadOf(WordAt(s, 1)), QuadOf(WordAt(s, 2)), QuadOf(WordAt(s, 3)))
  }

  /** The test on words that picks out IPv4-mapped addresses. */
  predicate MappedForm(a: Ip6) {
    WordOf(a.q0) == 0 && WordOf(a.q1) == 0 && WordOf(a.q2) == 0xFFFF0000
  }

  /** Ten zero bytes and two of 255 (section 2.5.5.2 of RFC 4291) are the bytes of such words. */
  predicate BytesAre(q: Quad, low: Byte, high: Byte) { q.b0 == low && q.b1 == low && q.b2 == high && q.b3 == high }

  lemma WordBytes(q: Quad)
    ensures WordOf(q) == 0 <==> BytesAre(q, 0, 0)
    ensures WordOf(q) == 0xFFFF0000 <==> BytesAre(q, 0, 255)
  {
    if WordOf(q) == 0xFFFF0000 {
      assert q.b3 == 255;
      assert q.b2 == 255;
    }
  }

  /** An address is taken for a mapped one exactly if its first twelve bytes are those. */
  lemma MappedBytes(a: Ip6)
    ensures MappedForm(a) <==> BytesAre(a.q0, 0, 0) && BytesAre(a.q1, 0, 0) && BytesAre(a.q2, 0, 255)
  {
    hide WordOf, BytesAre;
    WordBytes(a.q0);
    WordBytes(a.q1);
    WordBytes(a.q2);
  }

  /** A single word is read as what it denotes; of more digits the last eight count, until they
      exceed 64 bits, when all bits are set. */
  lemma ScanHexReads(s: HexText)
    ensures |s| <= 8 ==> ScanHex(s) == HexVal(s)
    ensures 8 < |s| <= 16 ==> ScanHex(s) == HexVal(s[|s| - 8..])
    ensures HexVal(s) >= TWO64 ==> ScanHex(s) == 0xFFFF_FFFF
  {
    hide HexVal, Pow16;
    if |s| <= 8 {
      HexWordBound(s);
    } else if |s| <= 16 {
      HighLow(s);
      HexWordBound(s[..|s| - 8]);
      HexWordBound(s[|s| - 8..]);
      LowWord(HexVal(s[..|s| - 8]), HexVal(s[|s| - 8..]));
    }
  }

  lemma HighLow(s: HexText)
    requires |s| >= 8
    ensures HexVal(s) == HexVal(s[..|s| - 8]) * TWO32 + HexVal(s[|s| - 8..])
  {
    hide HexVal, Pow16;
    assert s == s[..|s| - 8] + s[|s| - 8..];
    HexConcat(s[..|s| - 8], s[|s| - 8..]);
    HexEight();
  }

  lemma LowWord(x: U32, y: U32)
    ensures x * TWO32 + y < TWO64 && (x * TWO32 + y) % TWO32 == y
  {
  }

  lemma HexEight()
    ensures Pow16(8) == TWO32
  {
    assert Pow16(4) == 65536 by { assert Pow16(2) == 256; }
    assert Pow16(6) == 16777216;
  }

  lemma {:induction false} HexConcat(a: string, b: string)
    requires AllHex(a) && AllHex(b)
    ensures HexVal(a + b) == HexVal(a) * Pow16(|b|) + HexVal(b)
  {
    if b == "" {
      assert a + b == a;
    } else {
      var n := |b| - 1;
      HexConcat(a, b[..n]);
      HexStep(a, b);
      hide HexVal, Pow16;
      NextPower(n);
      Regroup(HexVal(a), Pow16(n), Pow16(|b|), HexVal(b[..n]), HexDigitVal(b[n]));
    }
  }

  lemma HexStep(a: string, b: string)
    requires AllHex(a) && AllHex(b) && b != ""
    ensures HexVal(a + b) == 16 * HexVal(a + b[..|b| - 1]) + HexDigitVal(b[|b| - 1])
    ensures HexVal(b) == 16 * HexVal(b[..|b| - 1]) + HexDigitVal(b[|b| - 1])
  {
    hide HexVal, HexDigitVal;
    LastDigit(a + b);
    LastDigit(b);
    assert (a + b)[..|a + b| - 1] == a + b[..|b| - 1];
  }

  lemma LastDigit(s: string)
    requires AllHex(s) && s != ""
    ensures HexVal(s) == 16 * HexVal(s[..|s| - 1]) + HexDigitVal(s[|s| - 1])
  {
  }

  lemma NextPower(n: nat)
    ensures Pow16(n + 1) == 16 * Pow16(n)
  {
  }

  lemma Regroup(x: nat, p: nat, q: nat, y: nat, d: nat)
    requires q == 16 * p
    ensures 16 * (x * p + y) + d == x * q + (16 * y + d)
  {
  }

  /** The socket that an accepted row describes; a malformed row and inode 0 are skipped. The
      family is chosen by the local address alone. */
  function DecodeRow(row: SocketRow): (k: Option<Socket>)
    ensures k.Some? <==> row.SocketRow? && row.inode != 0
    ensures k.Some? ==> k.value.inode == row.inode && k.value.lport == row.locPort && k.value.rport == row.remPort
    ensures k.Some? ==> (k.value.local.A4? <==> |row.locAddr| <= 8 || MappedForm(ScanWords(row.locAddr)))
    ensures k.Some? ==> (k.value.local.A4? <==> k.value.remote.A4?)
  {
    match row
    case Malformed => None
    case SocketRow(la, lp, ra, rp, inode) =>
      if inode == 0 then None
      else if |la| > 8 then
        var l, r := ScanWords(la), ScanWords(ra);
        if MappedForm(l) then Some(Socket(A4(l.q3), lp, A4(r.q3), rp, inode))
        else Some(Socket(A6(l), lp, A6(r), rp, inode))
      else Some(Socket(A4(QuadOf(ScanHex(la))), lp, A4(QuadOf(ScanHex(ra))), rp, inode))
  }

  // ---------- printing rows ----------

  /** An address as the four words that the kernel prints with `%08X%08X%08X%08X`. */
  function PrintWords(a: Ip6): HexText {
    Hex8(WordOf(a.q0)) + Hex8(WordOf(a.q1)) + Hex8(WordOf(a.q2)) + Hex8(WordOf(a.q3))
  }

  lemma WordsRoundTrip(a: Ip6)
    ensures ScanWords(PrintWords(a)) == a
  {
    var s := PrintWords(a);
    assert s[0..8] == Hex8(WordOf(a.q0));
    assert s[8..16] == Hex8(WordOf(a.q1));
    assert s[16..24] == Hex8(WordOf(a.q2));
    assert s[24..32] == Hex8(WordOf(a.q3));
    Hex8RoundTrip(WordOf(a.q0));
    Hex8RoundTrip(WordOf(a.q1));
    Hex8RoundTrip(WordOf(a.q2));
    Hex8RoundTrip(WordOf(a.q3));
    QuadRoundTrip(a.q0);
    QuadRoundTrip(a.q1);
    QuadRoundTrip(a.q2);
    QuadRoundTrip(a.q3);
  }

  /** Where the digits end early the last word is what is left of it, and the others are zero. */
  lemma CutWords(w0: U32, w1: U32, w2: U32, w3: U32, t: string)
    requires AllHex(t) && |t| < 8 && HexVal(t) == w3
    ensures ScanWords(Hex8(w0) + t) == Ip6(QuadOf(w0), QuadOf(w3), QuadOf(0), QuadOf(0))
    ensures ScanWords(Hex8(w0) + Hex8(w1) + t) == Ip6(QuadOf(w0), QuadOf(w1), QuadOf(w3), QuadOf(0))
    ensures ScanWords(Hex8(w0) + Hex8(w1) + Hex8(w2) + t) == Ip6(QuadOf(w0), QuadOf(w1), QuadOf(w2), QuadOf(w3))
  {
    hide Hex8, QuadOf, HexVal;
    assert t == "" ==> w3 == 0 by { NoDigits(); }
    Hex8RoundTrip(w0);
    Hex8RoundTrip(w1);
    Hex8RoundTrip(w2);
    var one, two, three := Hex8(w0) + t, Hex8(w0) + Hex8(w1) + t, Hex8(w0) + Hex8(w1) + Hex8(w2) + t;
    assert one[0..8] == Hex8(w0) && one[8..|one|] == t;
    assert two[0..8] == Hex8(w0) && two[8..16] == Hex8(w1) && two[16..|two|] == t;
    assert three[0..8] == Hex8(w0) && three[8..16] == Hex8(w1) && three[16..24] == Hex8(w2) && three[24..|three|] == t;
  }

  /** Digits behind the fourth word are not read. */
  lemma MoreDigits(s: HexText)
    requires |s| > 32
    ensures ScanWords(s) == ScanWords(s[..32])
  {
    hide QuadOf, HexVal;
    var t := s[..32];
    assert s[0..8] == t[0..8] && s[8..16] == t[8..16] && s[16..24] == t[16..24] && s[24..32] == t[24..32];
  }

  lemma NoDigits()
    ensures HexVal("") == 0
  {
  }

  /** What any accepted row decodes to: numerals of one word as they stand, else four words each, of
      which the last counts if the local address is a mapped one. */
  lemma RowDecodes(row: SocketRow)
    requires DecodeRow(row).Some?
    ensures var k := DecodeRow(row).value;
            && (|row.locAddr| <= 8 ==> k.local.A4? && WordOf(k.local.ip4) == HexVal(row.locAddr))
            && (|row.locAddr| <= 8 && |row.remAddr| <= 8 ==> k.remote.A4? && WordOf(k.remote.ip4) == HexVal(row.remAddr))
            && (|row.locAddr| > 8 ==>
                  var l, r := ScanWords(row.locAddr), ScanWords(row.remAddr);
                  if MappedForm(l) then k.local == A4(l.q3) && k.remote == A4(r.q3) else k.local == A6(l) && k.remote == A6(r))
  {
    hide QuadOf, WordOf, HexVal, ScanHex, ScanWords;
    if |row.locAddr| <= 8 {
      ScanHexReads(row.locAddr);
      ScanHexReads(row.remAddr);
      WordRoundTrip(ScanHex(row.locAddr));
      WordRoundTrip(ScanHex(row.remAddr));
    }
  }

  /** The row of an IPv4 socket in a tcp or udp table. */
  function Row4(l: Ip4, lp: int, r: Ip4, rp: int, inode: U64): SocketRow {
    SocketRow(Hex8(WordOf(l)), lp, Hex8(WordOf(r)), rp, inode)
  }

  /** The row of an IPv6 socket in a tcp6 or udp6 table. */
  function Row6(l: Ip6, lp: int, r: Ip6, rp: int, inode: U64): SocketRow {
    SocketRow(PrintWords(l), lp, PrintWords(r), rp, inode)
  }

  lemma ScanHex8(a: Ip4)
    ensures QuadOf(ScanHex(Hex8(WordOf(a)))) == a
  {
    ScanHexWord(WordOf(a));
    QuadRoundTrip(a);
  }

  lemma ScanHexWord(w: U32)
    ensures ScanHex(Hex8(w)) == w
  {
    Hex8RoundTrip(w);
  }

  lemma Row4Decodes(l: Ip4, lp: int, r: Ip4, rp: int, inode: U64)
    requires inode != 0
    ensures DecodeRow(Row4(l, lp, r, rp, inode)) == Some(Socket(A4(l), lp, A4(r), rp, inode))
  {
    ScanHex8(l);
    ScanHex8(r);
  }

  /** An IPv6 row decodes to its own two addresses, or to the IPv4 addresses in them. */
  lemma Row6Decodes(l: Ip6, lp: int, r: Ip6, rp: int, inode: U64)
    requires inode != 0
    ensures DecodeRow(Row6(l, lp, r, rp, inode)) ==
              if MappedForm(l) then Some(Socket(A4(l.q3), lp, A4(r.q3), rp, inode))
              else Some(Socket(A6(l), lp, A6(r), rp, inode))
  {
    WordsRoundTrip(l);
    WordsRoundTrip(r);
  }

  /** An IPv4-mapped row of an IPv6 table makes exactly the key updates of the plain IPv4 row. */
  lemma MappedRowUpdatesAlike(pr: Printer6, devices: seq<LocalAddr>, net: map<string, U32>,
                              l: Ip6, lp: int, r: Ip6, rp: int, inode: U64)
    requires MappedForm(l) && MappedForm(r)
    ensures DecodeRow(Row6(l, lp, r, rp, inode)) == DecodeRow(Row4(l.q3, lp, r.q3, rp, inode))
    ensures ApplyRow(pr, devices, net, Row6(l, lp, r, rp, inode))
         == ApplyRow(pr, devices, net, Row4(l.q3, lp, r.q3, rp, inode))
  {
    hide DecodeRow, StoreSocket, ScanWords, PrintWords, Hex8;
    if inode != 0 {
      Row6Decodes(l, lp, r, rp, inode);
      Row4Decodes(l.q3, lp, r.q3, rp, inode);
    }
  }

  // ---------- first stage: key -> inode ----------

  /** `m` with every one of the keys set to `v`. */
  function Spread<K, V>(m: map<K, V>, keys: set<K>, v: V): map<K, V> {
    m + (map k | k in keys :: v)
  }

  lemma SpreadStep<K, V>(m: map<K, V>, keys: set<K>, v: V, k: K)
    ensures Spread(m, keys, v)[k := v] == Spread(m, keys + {k}, v)
  {
  }

  function RowKey(pr: Printer6, d: LocalAddr, k: Socket): string {
    JoinKey(d.GetStr(pr), k.lport, AddrText(pr, k.remote), k.rport)
  }

  function DeviceKeys(pr: Printer6, devices: seq<LocalAddr>, k: Socket): set<string> {
    set d | d in devices :: RowKey(pr, d, k)
  }

  function FirstKey(pr: Printer6, k: Socket): string {
    PrimaryKey(AddrText(pr, k.local), k.lport, AddrText(pr, k.remote), k.rport)
  }

  function StoreSocket(pr: Printer6, devices: seq<LocalAddr>, net: map<string, U32>, k: Socket): map<string, U32> {
    var inode: U32 := k.inode % TWO32;
    Spread(net[FirstKey(pr, k) := inode], DeviceKeys(pr, devices, k), inode)
  }

  /** One row's effect: its inode, cut to 32 bits, under the first key and under one key per device. */
  function ApplyRow(pr: Printer6, devices: seq<LocalAddr>, net: map<string, U32>, row: SocketRow): map<string, U32> {
    match DecodeRow(row)
    case None => net
    case Some(k) => StoreSocket(pr, devices, net, k)
  }

  function ApplyRows(pr: Printer6, devices: seq<LocalAddr>, net: map<string, U32>, rows: seq<SocketRow>): map<string, U32>
    decreases |rows|
  {
    if rows == [] then net
    else ApplyRow(pr, devices, ApplyRows(pr, devices, net, rows[..|rows| - 1]), rows[|rows| - 1])
  }

  lemma {:induction false} ApplyRowsAppend(pr: Printer6, devices: seq<LocalAddr>, net: map<string, U32>, a: seq<SocketRow>, b: seq<SocketRow>)
    ensures ApplyRows(pr, devices, net, a + b) == ApplyRows(pr, devices, ApplyRows(pr, devices, net, a), b)
    decreases |b|
  {
    hide ApplyRow;
    if b == [] {
      assert a + b == a;
    } else {
      ApplyRowsAppend(pr, devices, net, a, b[..|b| - 1]);
      assert (a + b)[..|a + b| - 1] == a + b[..|b| - 1];
    }
  }

  /** The four tables; a table that cannot be opened is None. */
  datatype Tables = Tables(tcp: Option<seq<SocketRow>>, tcp6: Option<seq<SocketRow>>,
                           udp: Option<seq<SocketRow>>, udp6: Option<seq<SocketRow>>)
  {
    predicate AllOpen() { tcp.Some? && tcp6.Some? && udp.Some? && udp6.Some? }

    /** The rows of the tables in order, up to the first that cannot be opened. */
    function Rows(): seq<SocketRow> {
      if tcp.None? then []
      else if tcp6.None? then tcp.value
      else if udp.None? then tcp.value + tcp6.value
      else if udp6.None? then tcp.value + tcp6.value + udp.value
      else tcp.value + tcp6.value + udp.value + udp6.value
    }
  }

  // ---------- second stage: inode -> pid ----------

  /** An entry of /proc/pid/fd: a socket link, or anything that is passed over. */
  datatype FdEntry = SocketLink(inode: U32) | OtherEntry

  /** The readable fd directories; one that cannot be opened has no entry. */
  type FdDirs = map<int, seq<FdEntry>>

  function Inodes(links: seq<FdEntry>): set<U32> {
    set e | e in links && e.SocketLink? :: e.inode
  }

  lemma InodesGrow(links: seq<FdEntry>, i: nat)
    requires i < |links|
    ensures Inodes(links[..i + 1]) ==
              if links[i].SocketLink? then Inodes(links[..i]) + {links[i].inode} else Inodes(links[..i])
  {
    assert forall e :: e in links[..i + 1] <==> e in links[..i] || e == links[i];
  }

  function RecordLinks(tab: map<U32, int>, pid: int, links: seq<FdEntry>): map<U32, int> {
    Spread(tab, Inodes(links), pid)
  }

  /** The pids before the first whose directory cannot be opened. */
  function ReadablePrefix(ps: seq<int>, fds: FdDirs): (r: seq<int>)
    ensures r <= ps
    ensures forall p :: p in r ==> p in fds
  {
    if ps == [] || ps[0] !in fds then [] else [ps[0]] + ReadablePrefix(ps[1..], fds)
  }

  function RecordPids(ps: seq<int>, fds: FdDirs): map<U32, int>
    requires forall p :: p in ps ==> p in fds
  {
    if ps == [] then map[]
    else RecordLinks(RecordPids(ps[..|ps| - 1], fds), ps[|ps| - 1], fds[ps[|ps| - 1]])
  }

  function PidTable(pids: set<int>, fds: FdDirs): map<U32, int> {
    RecordPids(ReadablePrefix(Sorted(pids), fds), fds)
  }

  lemma {:induction false} ReadablePrefixEnds(ps: seq<int>, fds: FdDirs, n: nat)
    requires n <= |ps|
    requires forall i :: 0 <= i < n ==> ps[i] in fds
    requires n == |ps| || ps[n] !in fds
    ensures ReadablePrefix(ps, fds) == ps[..n]
  {
    if n > 0 {
      ReadablePrefixEnds(ps[1..], fds, n - 1);
      assert ps[..n] == [ps[0]] + ps[1..][..n - 1];
    }
  }

  /** The live pids that hold the inode, among those below the first unreadable directory. */
  function Holders(pids: set<int>, fds: FdDirs, inode: U32): set<int> {
    set p | p in pids && (forall q :: q in pids && q !in fds ==> p < q) && p in fds && SocketLink(inode) in fds[p]
  }

  lemma {:induction false} RecordPidsLast(ps: seq<int>, fds: FdDirs, inode: U32)
    requires forall p :: p in ps ==> p in fds
    requires Ascending(ps)
    ensures inode in RecordPids(ps, fds) <==> exists p :: p in ps && SocketLink(inode) in fds[p]
    ensures inode in RecordPids(ps, fds) ==>
              var m := RecordPids(ps, fds)[inode];
              m in ps && SocketLink(inode) in fds[m] && forall p :: p in ps && SocketLink(inode) in fds[p] ==> p <= m
  {
    if ps != [] {
      var n := |ps| - 1;
      RecordPidsLast(ps[..n], fds, inode);
      assert forall p :: p in ps <==> p in ps[..n] || p == ps[n];
      assert inode in Inodes(fds[ps[n]]) <==> SocketLink(inode) in fds[ps[n]];
    }
  }

  lemma {:induction false} ReadablePrefixMembers(ps: seq<int>, fds: FdDirs, p: int)
    requires Ascending(ps)
    ensures p in ReadablePrefix(ps, fds) <==>
              p in ps && p in fds && forall q :: q in ps && q !in fds ==> p < q
  {
    if ps != [] {
      ReadablePrefixMembers(ps[1..], fds, p);
      assert forall q :: q in ps <==> q == ps[0] || q in ps[1..];
    }
  }

  /** The inode table is exact, whether or not some directory could not be read: an inode is
      recorded iff a process before the first failure holds it, for the greatest such pid. */
  lemma PidTableExact(pids: set<int>, fds: FdDirs, inode: U32)
    ensures inode in PidTable(pids, fds) <==> Holders(pids, fds, inode) != {}
    ensures inode in PidTable(pids, fds) ==> PidTable(pids, fds)[inode] == Greatest(Holders(pids, fds, inode))
  {
    hide Sorted, RecordPids, ReadablePrefix;
    var ps := Sorted(pids);
    SortedMembers(pids);
    var rs := ReadablePrefix(ps, fds);
    assert Ascending(rs) by { assert rs == ps[..|rs|]; }
    RecordPidsLast(rs, fds, inode);
    forall p ensures p in rs && SocketLink(inode) in fds[p] <==> p in Holders(pids, fds, inode) {
      ReadablePrefixMembers(ps, fds, p);
    }
  }

  // ---------- lookups ----------

  datatype Index = Index(net: map<string, U32>, inodes: map<U32, int>)

  datatype Lookup = Found(pid: int) | NoIp | NoInode {
    function Code(): int {
      match this case Found(_) => 0 case NoIp => CAP_FIND_IP case NoInode => CAP_FIND_INODE
    }
  }

  function GetPid(ix: Index, key: string): Lookup {
    if key !in ix.net then NoIp
    else if ix.net[key] !in ix.inodes then NoInode
    else Found(ix.inodes[ix.net[key]])
  }

  /** The index that a refresh leaves. A table that cannot be opened ends the refresh with the
      rows read so far and no pids at all. */
  function BuildIndex(pr: Printer6, devices: seq<LocalAddr>, tables: Tables, pids: set<int>, fds: FdDirs): Index {
    Index(ApplyRows(pr, devices, map[], tables.Rows()),
          if tables.AllOpen() then PidTable(pids, fds) else map[])
  }

  // ---------- the naive scan ----------

  /** The flow with its local end first: the source if that is a device, else the destination. */
  function FromLocal(devices: seq<LocalAddr>, f: Flow): Flow {
    if IsLocal(devices, f.src) then f else Reply(f)
  }

  predicate Names(k: Socket, f: Flow) {
    k.lport == f.sport && k.remote == f.dst && k.rport == f.dport
  }

  /** The inode of the last accepted row with this local port, remote address and remote port. */
  function LastMatch(rows: seq<SocketRow>, f: Flow): Option<U64> {
    if rows == [] then None
    else
      var k := DecodeRow(rows[|rows| - 1]);
      if k.Some? && Names(k.value, f) then Some(k.value.inode) else LastMatch(rows[..|rows| - 1], f)
  }

  /** A device whose address text was stored. */
  predicate Reachable(devices: seq<LocalAddr>, a: Addr) {
    Local(a) in devices && (a.A4? ==> |DottedQuad(a.ip4)| < 15)
  }

  /** Where an inode leads, if there is one: to its greatest holder, and to nobody in a refresh
      that did not come to the pids. */
  function HolderOf(cameToPids: bool, pids: set<int>, fds: FdDirs, inode: Option<U64>): Lookup {
    match inode
    case None => NoIp
    case Some(n) =>
      if !cameToPids || Holders(pids, fds, n % TWO32) == {} then NoInode
      else Found(Greatest(Holders(pids, fds, n % TWO32)))
  }

  /** Of what the tables have for a flow, each by itself: the entry of the last table that has one,
      among those before the first that cannot be opened. */
  function LatestOf(tables: Tables, pids: set<int>, fds: FdDirs, last: seq<SocketRow> -> Option<U64>): Lookup {
    if tables.tcp.None? then NoIp
    else if tables.tcp6.None? then HolderOf(false, pids, fds, last(tables.tcp.value))
    else
      var two := Later(last(tables.tcp.value), last(tables.tcp6.value));
      if tables.udp.None? then HolderOf(false, pids, fds, two)
      else
        var three := Later(two, last(tables.udp.value));
        if tables.udp6.None? then HolderOf(false, pids, fds, three)
        else HolderOf(true, pids, fds, Later(three, last(tables.udp6.value)))
  }

  function Later<T>(a: Option<T>, b: Option<T>): Option<T> { if b.Some? then b else a }

  /** Attribution of a flow, local end first, with no index: find the device, the last row in the
      last table that has one, the greatest holder. */
  function Scan(devices: seq<LocalAddr>, tables: Tables, pids: set<int>, fds: FdDirs, f: Flow): Lookup {
    LatestOf(tables, pids, fds, rows => if Reachable(devices, f.src) then LastMatch(rows, f) else None)
  }

  // ---------- which rows answer for a key ----------

  lemma DeviceTextShape(pr: Printer6, d: LocalAddr)
    ensures '-' !in d.GetStr(pr)
  {
    if d.Local? { AddrTextShape(pr, d.addr); }
  }

  lemma AddrTextNonEmpty(pr: Printer6, a: Addr)
    ensures AddrText(pr, a) != ""
  {
    AddrTextShape(pr, a);
    if a.A4? { DottedQuadChars(a.ip4); }
  }

  lemma DeviceTextIs(pr: Printer6, d: LocalAddr, a: Addr)
    ensures d.GetStr(pr) == AddrText(pr, a) <==> d == Local(a) && Reachable([d], a)
  {
    hide DottedQuad, IsLocal;
    AddrTextNonEmpty(pr, a);
    if d.Local? && d.GetStr(pr) == AddrText(pr, a) {
      AddrTextInjective(pr, d.addr, a);
    }
  }

  /** A device without an address, or with one of 15 characters, has no text at all. */
  lemma NoDeviceText(pr: Printer6, d: LocalAddr)
    ensures d.GetStr(pr) == "" <==> d.NoAddr? || (d.addr.A4? && |DottedQuad(d.addr.ip4)| == 15)
  {
    hide DottedQuad;
    if d.Local? {
      AddrTextNonEmpty(pr, d.addr);
      if d.addr.A4? { DottedQuadChars(d.addr.ip4); }
    }
  }

  lemma RowKeyIs(pr: Printer6, d: LocalAddr, k: Socket, f: Flow)
    ensures RowKey(pr, d, k) == LinkText(pr, f) <==> d == Local(f.src) && Reachable([d], f.src) && Names(k, f)
  {
    DeviceTextIs(pr, d, f.src);
    if RowKey(pr, d, k) == LinkText(pr, f) {
      DeviceTextShape(pr, d);
      AddrTextShape(pr, k.remote);
      AddrTextShape(pr, f.src);
      AddrTextShape(pr, f.dst);
      JoinKeyUnique(d.GetStr(pr), k.lport, AddrText(pr, k.remote), k.rport,
                    AddrText(pr, f.src), f.sport, AddrText(pr, f.dst), f.dport);
      AddrTextInjective(pr, k.remote, f.dst);
    }
  }

  lemma DeviceKeysHold(pr: Printer6, devices: seq<LocalAddr>, k: Socket, f: Flow)
    ensures LinkText(pr, f) in DeviceKeys(pr, devices, k) <==> Reachable(devices, f.src) && Names(k, f)
  {
    hide RowKey, LinkText;
    forall d ensures RowKey(pr, d, k) == LinkText(pr, f) <==> d == Local(f.src) && Reachable([d], f.src) && Names(k, f) {
      RowKeyIs(pr, d, k, f);
    }
  }

  /** The first key of a row, which has no colon before the remote port, reads as the key of `f`. */
  predicate Misread(pr: Printer6, k: Socket, f: Flow) {
    && k.local == f.src && k.lport == f.sport
    && RunsOn(AddrText(pr, k.remote), k.rport, AddrText(pr, f.dst), f.dport)
  }

  lemma FirstKeyIs(pr: Printer6, k: Socket, f: Flow)
    ensures FirstKey(pr, k) == LinkText(pr, f) <==> Misread(pr, k, f)
  {
    var r, r' := AddrText(pr, k.remote), AddrText(pr, f.dst);
    AddrTextShape(pr, k.local);
    AddrTextShape(pr, f.src);
    AddrTextShape(pr, f.dst);
    RunsOnIff(r, k.rport, r', f.dport);
    if FirstKey(pr, k) == LinkText(pr, f) {
      LocalSideUnique(AddrText(pr, k.local), k.lport, r + ToString(k.rport),
                      AddrText(pr, f.src), f.sport, Endpoint(r', f.dport));
      AddrTextInjective(pr, k.local, f.src);
    }
  }

  /** No first key of a row is the key of a packet with an IPv4 remote end. */
  lemma FirstKeyNeverMatches(pr: Printer6, k: Socket, f: Flow)
    requires f.dst.A4?
    ensures FirstKey(pr, k) != LinkText(pr, f)
  {
    AddrTextShape(pr, k.local);
    AddrTextShape(pr, k.remote);
    AddrTextShape(pr, f.src);
    AddrTextShape(pr, f.dst);
    assert Colons(AddrText(pr, k.remote)) >= 2 || ':' !in AddrText(pr, k.remote);
    PrimaryIsNeverAKey(AddrText(pr, k.local), k.lport, AddrText(pr, k.remote), k.rport,
                       AddrText(pr, f.src), f.sport, AddrText(pr, f.dst), f.dport);
  }

  /** The row answers for the key of `f`: by right, or by its misread first key. */
  predicate Claims(pr: Printer6, devices: seq<LocalAddr>, k: Socket, f: Flow) {
    Misread(pr, k, f) || (Reachable(devices, f.src) && Names(k, f))
  }

  function LastClaim(pr: Printer6, devices: seq<LocalAddr>, rows: seq<SocketRow>, f: Flow): Option<U64>
    decreases |rows|
  {
    if rows == [] then None
    else
      var k := DecodeRow(rows[|rows| - 1]);
      if k.Some? && Claims(pr, devices, k.value, f) then Some(k.value.inode)
      else LastClaim(pr, devices, rows[..|rows| - 1], f)
  }

  lemma StoreSocketAt(pr: Printer6, devices: seq<LocalAddr>, net: map<string, U32>, k: Socket, f: Flow)
    ensures var key := LinkText(pr, f);
            var net' := StoreSocket(pr, devices, net, k);
            if Claims(pr, devices, k, f)
            then key in net' && net'[key] == k.inode % TWO32
            else (key in net' <==> key in net) && (key in net ==> net'[key] == net[key])
  {
    hide FirstKey, DeviceKeys, LinkText, Misread, Reachable, Names;
    FirstKeyIs(pr, k, f);
    DeviceKeysHold(pr, devices, k, f);
  }

  /** After any rows, a key of either family has the inode of the last row that answers for it. */
  lemma {:induction false} ApplyRowsAt(pr: Printer6, devices: seq<LocalAddr>, rows: seq<SocketRow>, f: Flow)
    ensures var key := LinkText(pr, f);
            var net := ApplyRows(pr, devices, map[], rows);
            var last := LastClaim(pr, devices, rows, f);
            && (key in net <==> last.Some?)
            && (key in net ==> net[key] == last.value % TWO32)
    decreases |rows|
  {
    hide DecodeRow, Claims, LinkText, StoreSocket;
    if rows != [] {
      var before := rows[..|rows| - 1];
      ApplyRowsAt(pr, devices, before, f);
      var k := DecodeRow(rows[|rows| - 1]);
      if k.Some? {
        StoreSocketAt(pr, devices, ApplyRows(pr, devices, map[], before), k.value, f);
      }
    }
  }

  lemma LookupByRows(pr: Printer6, devices: seq<LocalAddr>, tables: Tables, pids: set<int>, fds: FdDirs, f: Flow)
    ensures GetPid(BuildIndex(pr, devices, tables, pids, fds), LinkText(pr, f))
         == HolderOf(tables.AllOpen(), pids, fds, LastClaim(pr, devices, tables.Rows(), f))
  {
    hide LinkText, Holders, PidTable;
    ApplyRowsAt(pr, devices, tables.Rows(), f);
    var last := LastClaim(pr, devices, tables.Rows(), f);
    if last.Some? {
      PidTableExact(pids, fds, last.value % TWO32);
    }
  }

  lemma {:induction false} LastClaimAppend(pr: Printer6, devices: seq<LocalAddr>, a: seq<SocketRow>, b: seq<SocketRow>, f: Flow)
    ensures LastClaim(pr, devices, a + b, f) == Later(LastClaim(pr, devices, a, f), LastClaim(pr, devices, b, f))
    decreases |b|
  {
    hide Claims, DecodeRow;
    if b == [] {
      assert a + b == a;
    } else {
      LastClaimAppend(pr, devices, a, b[..|b| - 1], f);
      assert (a + b)[..|a + b| - 1] == a + b[..|b| - 1];
    }
  }

  /** What looking up any key gives, for every device list, every set of tables (open or not) and
      every set of fd directories (readable or not): of the rows that answer for it, the last one in
      udp6, else in udp, else in tcp6, else in tcp. */
  lemma LookupExact(pr: Printer6, devices: seq<LocalAddr>, tables: Tables, pids: set<int>, fds: FdDirs, f: Flow)
    ensures GetPid(BuildIndex(pr, devices, tables, pids, fds), LinkText(pr, f))
         == LatestOf(tables, pids, fds, rows => LastClaim(pr, devices, rows, f))
  {
    hide LinkText, BuildIndex, GetPid, LastClaim, HolderOf;
    LookupByRows(pr, devices, tables, pids, fds, f);
    assert LastClaim(pr, devices, [], f) == None by { NoClaim(pr, devices, f); }
    if tables.tcp.Some? && tables.tcp6.Some? {
      var two := tables.tcp.value + tables.tcp6.value;
      LastClaimAppend(pr, devices, tables.tcp.value, tables.tcp6.value, f);
      if tables.udp.Some? {
        LastClaimAppend(pr, devices, two, tables.udp.value, f);
        if tables.udp6.Some? {
          LastClaimAppend(pr, devices, two + tables.udp.value, tables.udp6.value, f);
        }
      }
    }
    assert tables.tcp.None? ==> HolderOf(false, pids, fds, None) == NoIp by { NobodyHolds(pids, fds); }
  }

  lemma NoClaim(pr: Printer6, devices: seq<LocalAddr>, f: Flow)
    ensures LastClaim(pr, devices, [], f) == None
  {
  }

  lemma NobodyHolds(pids: set<int>, fds: FdDirs)
    ensures HolderOf(false, pids, fds, None) == NoIp
  {
  }

  /** A refresh that cannot open a table stores exactly the keys of the tables before it, and no pids. */
  lemma ClosedTables(pr: Printer6, devices: seq<LocalAddr>, tables: Tables, pids: set<int>, fds: FdDirs)
    ensures var ix := BuildIndex(pr, devices, tables, pids, fds);
            && (tables.tcp.None? ==> ix == Index(map[], map[]))
            && (tables.tcp.Some? && tables.tcp6.None? ==> ix == Index(ApplyRows(pr, devices, map[], tables.tcp.value), map[]))
            && (tables.tcp.Some? && tables.tcp6.Some? && tables.udp.None? ==>
                  ix == Index(ApplyRows(pr, devices, map[], tables.tcp.value + tables.tcp6.value), map[]))
            && (tables.tcp.Some? && tables.tcp6.Some? && tables.udp.Some? && tables.udp6.None? ==>
                  ix == Index(ApplyRows(pr, devices, map[], tables.tcp.value + tables.tcp6.value + tables.udp.value), map[]))
  {
  }

  // ---------- where index and scan agree ----------

  /** Some address, with the last digits of the remote port, prints like the remote end of `f`. */
  ghost predicate Confusable(pr: Printer6, f: Flow) {
    && f.src.A6? && f.dst.A6? && !MappedForm(f.src.ip6)
    && exists a: Ip6, p: int :: RunsOn(pr(a), p, pr(f.dst.ip6), f.dport)
  }

  /** Only a row of a confusable flow can be misread: rows never mix the families. */
  lemma MisreadMeansConfusable(pr: Printer6, row: SocketRow, f: Flow)
    requires DecodeRow(row).Some? && Misread(pr, DecodeRow(row).value, f)
    ensures Confusable(pr, f)
  {
    hide RunsOn;
    var k := DecodeRow(row).value;
    if f.dst.A4? {
      FirstKeyNeverMatches(pr, k, f);
      FirstKeyIs(pr, k, f);
    } else if k.remote.A4? {
      AddrTextShape(pr, k.remote);
      ColonOf(AddrText(pr, k.remote), k.rport, AddrText(pr, f.dst), f.dport);
    } else {
      DecodedFamily(row);
      assert RunsOn(pr(k.remote.ip6), k.rport, pr(f.dst.ip6), f.dport);
    }
  }

  lemma ColonOf(a: string, p: int, r: string, q: Port)
    requires RunsOn(a, p, r, q)
    ensures ':' in a
  {
    assert a[..|r| + 1][|r|] == ':';
  }

  lemma DecodedFamily(row: SocketRow)
    requires DecodeRow(row).Some?
    ensures var k := DecodeRow(row).value;
            (k.local.A4? <==> k.remote.A4?) && (k.local.A6? ==> !MappedForm(k.local.ip6))
  {
    hide ScanWords, ScanHex;
  }

  lemma {:induction false} LastClaimIsMatch(pr: Printer6, devices: seq<LocalAddr>, rows: seq<SocketRow>, f: Flow)
    requires !Confusable(pr, f)
    ensures LastClaim(pr, devices, rows, f) == if Reachable(devices, f.src) then LastMatch(rows, f) else None
    decreases |rows|
  {
    hide DecodeRow, Misread, Confusable, Reachable, Names;
    if rows != [] {
      LastClaimIsMatch(pr, devices, rows[..|rows| - 1], f);
      var k := DecodeRow(rows[|rows| - 1]);
      if k.Some? && Misread(pr, k.value, f) {
        MisreadMeansConfusable(pr, rows[|rows| - 1], f);
      }
    }
  }

  /** One of the tables has this row, the others have none. */
  predicate OnlyRow(tables: Tables, row: SocketRow) {
    || tables == Tables(Some([row]), Some([]), Some([]), Some([]))
    || tables == Tables(Some([]), Some([row]), Some([]), Some([]))
    || tables == Tables(Some([]), Some([]), Some([row]), Some([]))
    || tables == Tables(Some([]), Some([]), Some([]), Some([row]))
  }

  /** The row in the udp table. */
  function OneRow(row: SocketRow): Tables { Tables(Some([]), Some([]), Some([row]), Some([])) }

  const FIRST_HOLDS: FdDirs := map[1 := [SocketLink(1)]]

  /** A row answers for a key from whichever table it is in, alone. */
  lemma AnyTableAnswers(pr: Printer6, devices: seq<LocalAddr>, tables: Tables, row: SocketRow, f: Flow)
    requires OnlyRow(tables, row) && DecodeRow(row).Some? && DecodeRow(row).value.inode == 1
    requires Claims(pr, devices, DecodeRow(row).value, f)
    ensures GetPid(BuildIndex(pr, devices, tables, {1}, FIRST_HOLDS), LinkText(pr, f)) == Found(1)
  {
    hide DecodeRow, Claims, LinkText, GetPid, BuildIndex, Holders, Greatest, LastClaim;
    LookupExact(pr, devices, tables, {1}, FIRST_HOLDS, f);
    NoClaim(pr, devices, f);
    OnlyClaim(pr, devices, row, f);
    FirstHolds();
  }

  lemma OnlyClaim(pr: Printer6, devices: seq<LocalAddr>, row: SocketRow, f: Flow)
    requires DecodeRow(row).Some? && Claims(pr, devices, DecodeRow(row).value, f)
    ensures LastClaim(pr, devices, [row], f) == Some(DecodeRow(row).value.inode)
  {
    hide DecodeRow, Claims;
    assert [row][0] == row;
  }

  lemma FirstHolds()
    ensures Holders({1}, FIRST_HOLDS, 1) == {1} && Greatest({1}) == 1
  {
    assert 1 in Holders({1}, FIRST_HOLDS, 1);
  }

  const ZERO := Quad(0, 0, 0, 0)
  const UNSPECIFIED := Ip6(ZERO, ZERO, ZERO, ZERO)

  /** A row that names the flow, whatever its families. */
  function RowFor(f: Flow): SocketRow {
    match f.dst
    case A4(r) => Row4(ZERO, f.sport, r, f.dport, 1)
    case A6(r) => Row6(UNSPECIFIED, f.sport, r, f.dport, 1)
  }

  lemma RowForNames(f: Flow)
    ensures var k := DecodeRow(RowFor(f)); k.Some? && k.value.inode == 1 && Names(k.value, f)
  {
    hide DecodeRow, Row4, Row6;
    match f.dst
    case A4(r) => Row4Decodes(ZERO, f.sport, r, f.dport, 1);
    case A6(r) => Row6Decodes(UNSPECIFIED, f.sport, r, f.dport, 1);
  }

  /** A row of a confusable flow that is misread, and does not name the flow. */
  lemma MisreadRow(pr: Printer6, f: Flow) returns (row: SocketRow)
    requires Confusable(pr, f)
    ensures var k := DecodeRow(row); k.Some? && k.value.inode == 1 && Misread(pr, k.value, f) && !Names(k.value, f)
  {
    hide DecodeRow, Row6, RunsOn;
    var a: Ip6, p: int :| RunsOn(pr(a), p, pr(f.dst.ip6), f.dport);
    row := Row6(f.src.ip6, f.sport, a, p, 1);
    Row6Decodes(f.src.ip6, f.sport, a, p, 1);
    LongerText(pr(a), p, pr(f.dst.ip6), f.dport);
  }

  lemma LongerText(a: string, p: int, r: string, q: Port)
    requires RunsOn(a, p, r, q)
    ensures a != r
  {
  }

  /** The index agrees with the scan on a flow, whatever the tables, pids and directories hold,
      exactly when no other address can be confused with its remote end. */
  lemma ScanAgreesIff(pr: Printer6, devices: seq<LocalAddr>, f: Flow)
    ensures (forall tables, pids, fds ::
               GetPid(BuildIndex(pr, devices, tables, pids, fds), LinkText(pr, f)) == Scan(devices, tables, pids, fds, f))
       <==> !Confusable(pr, f)
  {
    hide BuildIndex, LinkText, GetPid, Confusable, DecodeRow, Misread, Names, Reachable, HolderOf;
    if Confusable(pr, f) {
      var row := MisreadRow(pr, f);
      AnyTableAnswers(pr, devices, OneRow(row), row, f);
      NoScan(devices, row, f);
      assert GetPid(BuildIndex(pr, devices, OneRow(row), {1}, FIRST_HOLDS), LinkText(pr, f))
          != Scan(devices, OneRow(row), {1}, FIRST_HOLDS, f);
    } else {
      forall tables, pids, fds ensures GetPid(BuildIndex(pr, devices, tables, pids, fds), LinkText(pr, f))
                                    == Scan(devices, tables, pids, fds, f)
      {
        LookupExact(pr, devices, tables, pids, fds, f);
        forall rows ensures LastClaim(pr, devices, rows, f) == if Reachable(devices, f.src) then LastMatch(rows, f) else None {
          LastClaimIsMatch(pr, devices, rows, f);
        }
      }
    }
  }

  lemma NoScan(devices: seq<LocalAddr>, row: SocketRow, f: Flow)
    requires DecodeRow(row).Some? && !Names(DecodeRow(row).value, f)
    ensures Scan(devices, OneRow(row), {1}, FIRST_HOLDS, f) == NoIp
  {
    hide DecodeRow, Names, Reachable;
    assert LastMatch([], f) == None;
    assert [row][..0] == [];
    assert LastMatch([row], f) == None;
  }

  /** So it always does when the remote end is an IPv4 address. */
  lemma IndexEqualsScan(pr: Printer6, devices: seq<LocalAddr>, tables: Tables, pids: set<int>, fds: FdDirs, f: Flow)
    requires f.dst.A4?
    ensures GetPid(BuildIndex(pr, devices, tables, pids, fds), LinkText(pr, f)) == Scan(devices, tables, pids, fds, f)
  {
    hide BuildIndex, LinkText, GetPid, Scan;
    ScanAgreesIff(pr, devices, f);
  }

  lemma PacketLookupEqualsScan(pr: Printer6, devices: seq<LocalAddr>, tables: Tables, pids: set<int>, fds: FdDirs, f: Flow)
    requires !Confusable(pr, FromLocal(devices, f))
    ensures GetPid(BuildIndex(pr, devices, tables, pids, fds), PacketKey(pr, devices, f))
         == Scan(devices, tables, pids, fds, FromLocal(devices, f))
  {
    hide BuildIndex, LinkText, GetPid, Scan, Confusable;
    ScanAgreesIff(pr, devices, FromLocal(devices, f));
  }

  /** A packet, sent or received, can be attributed by some content of the tables and directories
      exactly when the device at its local end has a stored text, or its key can be confused. */
  lemma AttributableIff(pr: Printer6, devices: seq<LocalAddr>, f: Flow)
    ensures (exists tables, pids, fds :: GetPid(BuildIndex(pr, devices, tables, pids, fds), PacketKey(pr, devices, f)).Found?)
       <==> Reachable(devices, FromLocal(devices, f).src) || Confusable(pr, FromLocal(devices, f))
  {
    hide BuildIndex, LinkText, GetPid, Confusable, DecodeRow, Misread, Names, Reachable, RowFor;
    var g := FromLocal(devices, f);
    if Confusable(pr, g) {
      var row := MisreadRow(pr, g);
      AnyTableAnswers(pr, devices, OneRow(row), row, g);
      assert GetPid(BuildIndex(pr, devices, OneRow(row), {1}, FIRST_HOLDS), PacketKey(pr, devices, f)).Found?;
    } else if Reachable(devices, g.src) {
      RowForNames(g);
      AnyTableAnswers(pr, devices, OneRow(RowFor(g)), RowFor(g), g);
      assert GetPid(BuildIndex(pr, devices, OneRow(RowFor(g)), {1}, FIRST_HOLDS), PacketKey(pr, devices, f)).Found?;
    } else {
      forall tables, pids, fds ensures !GetPid(BuildIndex(pr, devices, tables, pids, fds), PacketKey(pr, devices, f)).Found? {
        PacketLookupEqualsScan(pr, devices, tables, pids, fds, f);
      }
    }
  }

  /** Of two addresses that print as 1::2:3 and 1::2, a row for the first with port 80 answers for
      packets to the second with port 380. */
  lemma ConfusedTexts(pr: Printer6, a: Ip6, f: Flow)
    requires pr(a) == "1::2:3" && f.src.A6? && !MappedForm(f.src.ip6)
    requires f.dst.A6? && pr(f.dst.ip6) == "1::2" && f.dport == 380
    ensures Confusable(pr, f)
  {
    hide RunsOn;
    TextRunsOn();
    assert RunsOn(pr(a), 80, pr(f.dst.ip6), f.dport);
  }

  const ONE_TWO := Ip6(Quad(0, 1, 0, 0), ZERO, ZERO, Quad(0, 0, 0, 2))
  const ONE_TWO_THREE := Ip6(Quad(0, 1, 0, 0), ZERO, ZERO, Quad(0, 2, 0, 3))

  /** Texts in full, but for two addresses that are printed as `inet_ntop` does. */
  function SomeShort(a: Ip6): string {
    if a == ONE_TWO then "1::2" else if a == ONE_TWO_THREE then "1::2:3" else FullText(a)
  }

  lemma SomeShortPrints()
    ensures PrintsIp6(SomeShort)
  {
    hide FullText, Ip6Text;
    FullTextPrintsIp6();
    ShortTexts();
    forall a ensures |FullText(a)| == 35 { FullTextLength(a); }
  }

  lemma ShortTexts()
    ensures Ip6Text("1::2") && Ip6Text("1::2:3")
  {
    assert multiset("1::2")[':'] == 2 && multiset("1::2:3")[':'] == 3;
  }

  lemma FullTextLength(a: Ip6)
    ensures |FullText(a)| == 35
  {
  }

  /** Flows of this kind exist. */
  lemma ConfusableInstance(f: Flow)
    requires f == Flow(A6(UNSPECIFIED), 1, A6(ONE_TWO), 380)
    ensures PrintsIp6(SomeShort) && Confusable(SomeShort, f)
  {
    hide Confusable, PrintsIp6;
    SomeShortPrints();
    assert SomeShort(ONE_TWO) == "1::2" && SomeShort(ONE_TWO_THREE) == "1::2:3";
    ConfusedTexts(SomeShort, ONE_TWO_THREE, f);
  }

  /** 192.168.100.100 is an address that is not. */
  lemma LongAddressExists()
    ensures |DottedQuad(Quad(192, 168, 100, 100))| == 15
  {
    assert |Dec(192)| == 3 by { assert |Dec(19)| == 2; }
    assert |Dec(168)| == 3 by { assert |Dec(16)| == 2; }
    assert |Dec(100)| == 3 by { assert |Dec(10)| == 2; }
  }

  // ---------- nothing stale ----------

  /** Every pid that a lookup can give was listed for this refresh. */
  lemma LookupIsLive(pr: Printer6, devices: seq<LocalAddr>, tables: Tables, pids: set<int>, fds: FdDirs, key: string)
    ensures var r := GetPid(BuildIndex(pr, devices, tables, pids, fds), key); r.Found? ==> r.pid in pids
  {
    var ix := BuildIndex(pr, devices, tables, pids, fds);
    if GetPid(ix, key).Found? {
      PidTableExact(pids, fds, ix.net[key]);
    }
  }

  /** Every stored key comes from an accepted row of this refresh, with that row's inode. */
  lemma {:induction false} KeysComeFromRows(pr: Printer6, devices: seq<LocalAddr>, rows: seq<SocketRow>, key: string)
    requires key in ApplyRows(pr, devices, map[], rows)
    ensures exists i :: 0 <= i < |rows| && DecodeRow(rows[i]).Some?
              && (var k := DecodeRow(rows[i]).value;
                  (key == FirstKey(pr, k) || key in DeviceKeys(pr, devices, k))
                  && ApplyRows(pr, devices, map[], rows)[key] == k.inode % TWO32)
    decreases |rows|
  {
    var n := |rows| - 1;
    var before := ApplyRows(pr, devices, map[], rows[..n]);
    var k := DecodeRow(rows[n]);
    if k.Some? && (key == FirstKey(pr, k.value) || key in DeviceKeys(pr, devices, k.value)) {
    } else {
      assert key in before && ApplyRows(pr, devices, map[], rows)[key] == before[key];
      KeysComeFromRows(pr, devices, rows[..n], key);
    }
  }

  // ---------- the index object ----------

  class CapInodeHelper {
    var netToInodes: map<string, U32>
    var inodeToPids: map<U32, int>

    ghost function View(): Index
      reads this
    {
      Index(netToInodes, inodeToPids)
    }

    constructor ()
      ensures View() == Index(map[], map[])
    {
      netToInodes, inodeToPids := map[], map[];
    }

    /** Clears both maps and refills them; the result owes nothing to what they held. */
    method Refresh(pr: Printer6, devices: seq<LocalAddr>, tables: Tables, pids: set<int>, fds: FdDirs) returns (ret: int)
      modifies this
      ensures View() == BuildIndex(pr, devices, tables, pids, fds)
      ensures ret == if tables.tcp.None? || tables.tcp6.None? || tables.udp.None? || tables.udp6.None? then CAP_PROCESS_OPEN
                     else if pids <= fds.Keys then 0 else CAP_PROCESS_OPEN_DIR
    {
      netToInodes, inodeToPids := map[], map[];
      ret := RefreshToInodes(pr, devices, tables);
      if ret != 0 {
        return;
      }
      ret := RefreshToPids(pids, fds);
    }

    method GetPidByIp(hash: string, pid0: int) returns (ret: int, pid: int)
      ensures hash !in View().net ==> ret == CAP_FIND_IP
      ensures hash in View().net && View().net[hash] !in View().inodes ==> ret == CAP_FIND_INODE
      ensures hash in View().net && View().net[hash] in View().inodes ==> ret == 0
      ensures ret == GetPid(View(), hash).Code()
      ensures pid == match GetPid(View(), hash) case Found(p) => p case _ => pid0
    {
      pid := pid0;
      if hash !in netToInodes {
        return CAP_FIND_IP, pid;
      }
      if netToInodes[hash] !in inodeToPids {
        return CAP_FIND_INODE, pid;
      }
      return 0, inodeToPids[netToInodes[hash]];
    }

    method RefreshToInodes(pr: Printer6, devices: seq<LocalAddr>, tables: Tables) returns (ret: int)
      requires netToInodes == map[]
      modifies this`netToInodes
      ensures tables.tcp.None? ==> netToInodes == map[] && ret == CAP_PROCESS_OPEN
      ensures tables.tcp.Some? && tables.tcp6.None? ==>
                netToInodes == ApplyRows(pr, devices, map[], tables.tcp.value) && ret == CAP_PROCESS_OPEN
      ensures tables.tcp.Some? && tables.tcp6.Some? && tables.udp.None? ==>
                netToInodes == ApplyRows(pr, devices, map[], tables.tcp.value + tables.tcp6.value) && ret == CAP_PROCESS_OPEN
      ensures tables.tcp.Some? && tables.tcp6.Some? && tables.udp.Some? && tables.udp6.None? ==>
                && netToInodes == ApplyRows(pr, devices, map[], tables.tcp.value + tables.tcp6.value + tables.udp.value)
                && ret == CAP_PROCESS_OPEN
      ensures tables.tcp.Some? && tables.tcp6.Some? && tables.udp.Some? && tables.udp6.Some? ==>
                && netToInodes == ApplyRows(pr, devices, map[], tables.tcp.value + tables.tcp6.value + tables.udp.value + tables.udp6.value)
                && ret == 0
    {
      ret := Parse(pr, devices, tables.tcp);
      if ret != 0 {
        return;
      }
      ret := Parse(pr, devices, tables.tcp6);
      if ret != 0 {
        return;
      }
      ApplyRowsAppend(pr, devices, map[], tables.tcp.value, tables.tcp6.value);
      ret := Parse(pr, devices, tables.udp);
      if ret != 0 {
        return;
      }
      ApplyRowsAppend(pr, devices, map[], tables.tcp.value + tables.tcp6.value, tables.udp.value);
      ret := Parse(pr, devices, tables.udp6);
      if ret != 0 {
        return;
      }
      ApplyRowsAppend(pr, devices, map[], tables.tcp.value + tables.tcp6.value + tables.udp.value, tables.udp6.value);
    }

    /** Reads one table line by line. */
    method Parse(pr: Printer6, devices: seq<LocalAddr>, file: Option<seq<SocketRow>>) returns (ret: int)
      modifies this`netToInodes
      ensures ret == if file.Some? then 0 else CAP_PROCESS_OPEN
      ensures netToInodes == if file.Some? then ApplyRows(pr, devices, old(netToInodes), file.value) else old(netToInodes)
    {
      if file.None? {
        return CAP_PROCESS_OPEN;
      }
      var rows := file.value;
      for i := 0 to |rows|
        invariant netToInodes == ApplyRows(pr, devices, old(netToInodes), rows[..i])
      {
        ParseBuffer(pr, devices, rows[i]);
        assert rows[..i + 1][..i] == rows[..i];
      }
      assert rows[..|rows|] == rows;
      return 0;
    }

    /** Decodes one line and stores its keys. */
    method ParseBuffer(pr: Printer6, devices: seq<LocalAddr>, row: SocketRow)
      modifies this`netToInodes
      ensures netToInodes == ApplyRow(pr, devices, old(netToInodes), row)
    {
      hide ScanWords, ScanHex, QuadOf, WordOf, StoreSocket;
      if row.Malformed? || row.inode == 0 {
        return;
      }
      var localRet, remoteRet;
      if |row.locAddr| > 8 {
        var localIn, remoteIn := ScanWords(row.locAddr), ScanWords(row.remAddr);
        if WordOf(localIn.q0) == 0 && WordOf(localIn.q1) == 0 && WordOf(localIn.q2) == 0xFFFF0000 {
          localRet, remoteRet := A4(localIn.q3), A4(remoteIn.q3);
        } else {
          localRet, remoteRet := A6(localIn), A6(remoteIn);
        }
      } else {
        localRet, remoteRet := A4(QuadOf(ScanHex(row.locAddr))), A4(QuadOf(ScanHex(row.remAddr)));
      }
      StoreKeys(pr, devices, localRet, row.locPort, remoteRet, row.remPort, row.inode);
    }

    /** Stores the inode under the first key and under one key per device. */
    method StoreKeys(pr: Printer6, devices: seq<LocalAddr>, localRet: Addr, locPort: int, remoteRet: Addr, remPort: int, inode64: U64)
      modifies this`netToInodes
      ensures netToInodes == StoreSocket(pr, devices, old(netToInodes), Socket(localRet, locPort, remoteRet, remPort, inode64))
    {
      var local, remote := AddrText(pr, localRet), AddrText(pr, remoteRet);
      var inode: U32 := inode64 % TWO32;
      netToInodes := netToInodes[PrimaryKey(local, locPort, remote, remPort) := inode];
      ghost var k := Socket(localRet, locPort, remoteRet, remPort, inode64);
      ghost var base := netToInodes;
      for i := 0 to |devices|
        invariant netToInodes == Spread(base, DeviceKeys(pr, devices[..i], k), inode)
      {
        var hash := JoinKey(devices[i].GetStr(pr), locPort, remote, remPort);
        netToInodes := netToInodes[hash := inode];
        SpreadStep(base, DeviceKeys(pr, devices[..i], k), inode, hash);
        DeviceKeysGrow(pr, devices, k, i);
      }
      assert devices[..|devices|] == devices;
    }

    lemma DeviceKeysGrow(pr: Printer6, devices: seq<LocalAddr>, k: Socket, i: nat)
      requires i < |devices|
      ensures DeviceKeys(pr, devices[..i + 1], k) == DeviceKeys(pr, devices[..i], k) + {RowKey(pr, devices[i], k)}
    {
      assert forall d :: d in devices[..i + 1] <==> d in devices[..i] || d == devices[i];
    }

    /** Walks the pids in ascending order and gives up at the first directory it cannot open. */
    method RefreshToPids(pids: set<int>, fds: FdDirs) returns (ret: int)
      requires inodeToPids == map[]
      modifies this`inodeToPids
      ensures inodeToPids == PidTable(pids, fds)
      ensures ret == if forall p :: p in pids ==> p in fds then 0 else CAP_PROCESS_OPEN_DIR
    {
      hide Sorted, RecordLinks;
      var ps := Sorted(pids);
      SortedMembers(pids);
      for i := 0 to |ps|
        invariant forall j :: 0 <= j < i ==> ps[j] in fds
        invariant forall p :: p in ps[..i] ==> p in fds
        invariant inodeToPids == RecordPids(ps[..i], fds)
      {
        var pid := ps[i];
        if pid !in fds {
          ReadablePrefixEnds(ps, fds, i);
          assert pid in pids;
          return CAP_PROCESS_OPEN_DIR;
        }
        ReadFds(pid, fds[pid]);
        assert ps[..i + 1][..i] == ps[..i];
      }
      assert ps[..|ps|] == ps;
      ReadablePrefixEnds(ps, fds, |ps|);
      return 0;
    }

    /** Reads one fd directory. */
    method ReadFds(pid: int, links: seq<FdEntry>)
      modifies this`inodeToPids
      ensures inodeToPids == RecordLinks(old(inodeToPids), pid, links)
    {
      for i := 0 to |links|
        invariant inodeToPids == RecordLinks(old(inodeToPids), pid, links[..i])
      {
        InodesGrow(links, i);
        if links[i].SocketLink? {
          SpreadStep(old(inodeToPids), Inodes(links[..i]), pid, links[i].inode);
          inodeToPids := inodeToPids[links[i].inode := pid];
        }
      }
      assert links[..|links|] == links;
    }
  }
}
