/** Numerals, addresses and flow keys: the texts that the index and the packets
    must agree on, with the proofs that these texts determine what they print. */
module Text {

  datatype Option<+T> = None | Some(value: T) {
    predicate IsFailure() { None? }
    function PropagateFailure<U>(): Option<U> requires None? { None }
    function Extract(): T requires Some? { value }
    function ToSeq(): seq<T> { if None? then [] else [value] }
  }

  const TWO32: nat := 0x1_0000_0000
  const TWO64: nat := 0x1_0000_0000_0000_0000

  type Byte = b: int | 0 <= b < 256
  type Port = p: int | 0 <= p < 65536
  type U32 = w: int | 0 <= w < 0x1_0000_0000
  type U64 = w: int | 0 <= w < 0x1_0000_0000_0000_0000

  // ---------- decimal ----------

  predicate IsDigit(c: char) { '0' <= c <= '9' }

  predicate AllDigits(s: string) { forall i :: 0 <= i < |s| ==> IsDigit(s[i]) }

  function Digit(d: int): char
    requires 0 <= d < 10
  {
    ('0' as int + d) as char
  }

  /** `std::to_string` of a value that is not negative. */
  function Dec(n: nat): (s: string)
    ensures |s| > 0 && AllDigits(s)
  {
    if n < 10 then [Digit(n)] else Dec(n / 10) + [Digit(n % 10)]
  }

  /** The value that a digit string denotes. */
  function DecVal(s: string): nat
    requires AllDigits(s)
  {
    if s == "" then 0 else 10 * DecVal(s[..|s| - 1]) + (s[|s| - 1] as int - '0' as int)
  }

  lemma {:induction false} DecRoundTrip(n: nat)
    ensures DecVal(Dec(n)) == n
  {
    if n >= 10 {
      DecRoundTrip(n / 10);
      assert Dec(n)[..|Dec(n)| - 1] == Dec(n / 10);
    } else {
      assert Dec(n)[..0] == "";
    }
  }

  lemma DecInjective(m: nat, n: nat)
    requires Dec(m) == Dec(n)
    ensures m == n
  {
    DecRoundTrip(m);
    DecRoundTrip(n);
  }

  lemma DecWidth(n: nat)
    ensures n < 256 ==> |Dec(n)| <= 3
    ensures n < 65536 ==> |Dec(n)| <= 5
  {
    if n >= 10 {
      assert |Dec(n)| == |Dec(n / 10)| + 1;
      if n >= 100 {
        assert |Dec(n / 10)| == |Dec(n / 10 / 10)| + 1;
        if n >= 1000 && n < 65536 {
          var m := n / 10 / 10;
          assert m < 656;
          if m >= 10 {
            assert |Dec(m)| == |Dec(m / 10)| + 1;
            if m >= 100 { assert |Dec(m / 10)| == |Dec(m / 10 / 10)| + 1; }
          }
        }
      }
    }
  }

  /** `std::to_string` of a signed value. */
  function ToString(i: int): (s: string)
    ensures |s| > 0 && IsDigit(s[|s| - 1])
    ensures forall k :: 0 < k < |s| ==> IsDigit(s[k])
    ensures i >= 0 ==> AllDigits(s)
    ensures i < 0 ==> s[0] == '-'
  {
    if i < 0 then "-" + Dec(-i) else Dec(i)
  }

  /** What it prints of a value below zero is a dash and the value's distance from zero. */
  lemma SignedText(i: int)
    requires i < 0
    ensures AllDigits(ToString(i)[1..]) && DecVal(ToString(i)[1..]) == -i
  {
    assert ToString(i)[1..] == Dec(-i);
    DecRoundTrip(-i);
  }

  // ---------- cutting ----------

  /** The text before and after the first `c`. */
  function Cut(s: string, c: char): (r: Option<(string, string)>)
    ensures r.None? <==> c !in s
  {
    if s == "" then None
    else if s[0] == c then Some(("", s[1..]))
    else match Cut(s[1..], c)
         case None => None
         case Some(p) => Some(([s[0]] + p.0, p.1))
  }

  lemma {:induction false} CutJoin(l: string, c: char, r: string)
    requires c !in l
    ensures Cut(l + [c] + r, c) == Some((l, r))
  {
    var s := l + [c] + r;
    if l == "" {
      assert s[1..] == r;
    } else {
      CutJoin(l[1..], c, r);
      assert s[1..] == l[1..] + [c] + r;
      assert l == [l[0]] + l[1..];
    }
  }

  lemma {:induction false} CutSplits(s: string, c: char)
    requires c in s
    ensures Cut(s, c).Some? && s == Cut(s, c).value.0 + [c] + Cut(s, c).value.1 && c !in Cut(s, c).value.0
  {
    if s[0] == c {
      assert s == "" + [c] + s[1..];
    } else {
      CutSplits(s[1..], c);
      var p := Cut(s[1..], c).value;
      assert Cut(s, c) == Some(([s[0]] + p.0, p.1));
      assert s == [s[0]] + s[1..] == [s[0]] + p.0 + [c] + p.1;
    }
  }

  lemma CutUnique(l: string, l': string, c: char, r: string, r': string)
    requires c !in l && c !in l'
    requires l + [c] + r == l' + [c] + r'
    ensures l == l' && r == r'
  {
    CutJoin(l, c, r);
    CutJoin(l', c, r');
  }

  lemma CutLastUnique(l: string, l': string, c: char, r: string, r': string)
    requires c !in r && c !in r'
    requires l + [c] + r == l' + [c] + r'
    ensures l == l' && r == r'
  {
    var s, s' := l + [c] + r, l' + [c] + r';
    assert s[|l|] == c && s'[|l'|] == c;
    assert |l| == |l'| by {
      assert forall i :: |l| < i < |s| ==> s[i] == r[i - |l| - 1];
      assert forall i :: |l'| < i < |s'| ==> s'[i] == r'[i - |l'| - 1];
    }
    assert l == s[..|l|] && l' == s'[..|l'|];
    assert r == s[|l| + 1..] && r' == s'[|l'| + 1..];
  }

  // ---------- addresses ----------

  /** Four bytes in memory order: an `in_addr`, or one word of an `in6_addr`. */
  datatype Quad = Quad(b0: Byte, b1: Byte, b2: Byte, b3: Byte)

  type Ip4 = Quad

  datatype Ip6 = Ip6(q0: Quad, q1: Quad, q2: Quad, q3: Quad)

  /** The quad as the 32-bit integer a little-endian host loads from it. */
  function WordOf(q: Quad): U32 {
    q.b0 + 256 * q.b1 + 65536 * q.b2 + 16777216 * q.b3
  }

  function QuadOf(w: U32): Quad {
    Quad(w % 256, w / 256 % 256, w / 65536 % 256, w / 16777216)
  }

  lemma QuadRoundTrip(q: Quad)
    ensures QuadOf(WordOf(q)) == q
  {
    var w := WordOf(q);
    var h := q.b2 + 256 * q.b3;
    var g := q.b1 + 256 * h;
    assert w == q.b0 + 256 * g;
    assert w / 256 == g;
    assert g / 256 == h;
    assert w / 65536 == h;
    assert h / 256 == q.b3;
    assert w / 16777216 == q.b3;
  }

  lemma WordRoundTrip(w: U32)
    ensures WordOf(QuadOf(w)) == w
  {
    var g := w / 256;
    var h := g / 256;
    assert w == 256 * g + w % 256;
    assert g == 256 * h + g % 256;
    assert h == w / 65536;
    assert h == 256 * (h / 256) + h % 256;
    assert h / 256 == w / 16777216;
  }

  /** `inet_ntop(AF_INET, ..)`. */
  function DottedQuad(a: Ip4): string {
    Dec(a.b0) + "." + (Dec(a.b1) + "." + (Dec(a.b2) + "." + Dec(a.b3)))
  }

  lemma DottedQuadChars(a: Ip4)
    ensures '-' !in DottedQuad(a) && ':' !in DottedQuad(a) && '\0' !in DottedQuad(a)
    ensures 7 <= |DottedQuad(a)| <= 15
  {
    DecWidth(a.b0);
    DecWidth(a.b1);
    DecWidth(a.b2);
    DecWidth(a.b3);
  }

  function ParseByte(s: string): Option<Byte> {
    if s != "" && AllDigits(s) && DecVal(s) < 256 then Some(DecVal(s)) else None
  }

  function ParsePort(s: string): Option<Port> {
    if s != "" && AllDigits(s) && DecVal(s) < 65536 then Some(DecVal(s)) else None
  }

  function ParseByteThenDot(s: string): Option<(Byte, string)> {
    var c :- Cut(s, '.');
    var b :- ParseByte(c.0);
    Some((b, c.1))
  }

  /** Reads a dotted quad back. */
  function ParseQuad(s: string): Option<Ip4> {
    var c0 :- ParseByteThenDot(s);
    var c1 :- ParseByteThenDot(c0.1);
    var c2 :- ParseByteThenDot(c1.1);
    var b3 :- ParseByte(c2.1);
    Some(Quad(c0.0, c1.0, c2.0, b3))
  }

  lemma ByteRoundTrip(b: Byte)
    ensures ParseByte(Dec(b)) == Some(b)
  {
    DecRoundTrip(b);
  }

  lemma ByteThenDotRoundTrip(b: Byte, rest: string)
    ensures ParseByteThenDot(Dec(b) + "." + rest) == Some((b, rest))
  {
    CutJoin(Dec(b), '.', rest);
    ByteRoundTrip(b);
  }

  lemma QuadTextRoundTrip(a: Ip4)
    ensures ParseQuad(DottedQuad(a)) == Some(a)
  {
    var t3 := Dec(a.b3);
    var t2 := Dec(a.b2) + "." + t3;
    var t1 := Dec(a.b1) + "." + t2;
    ByteThenDotRoundTrip(a.b0, t1);
    ByteThenDotRoundTrip(a.b1, t2);
    ByteThenDotRoundTrip(a.b2, t3);
    ByteRoundTrip(a.b3);
  }

  lemma QuadTextInjective(a: Ip4, b: Ip4)
    requires DottedQuad(a) == DottedQuad(b)
    ensures a == b
  {
    QuadTextRoundTrip(a);
    QuadTextRoundTrip(b);
  }

  // ---------- hexadecimal ----------

  predicate IsHex(c: char) { '0' <= c <= '9' || 'A' <= c <= 'F' || 'a' <= c <= 'f' }

  predicate AllHex(s: string) { forall i :: 0 <= i < |s| ==> IsHex(s[i]) }

  function HexDigit(d: int): (c: char)
    requires 0 <= d < 16
    ensures IsHex(c)
  {
    if d < 10 then ('0' as int + d) as char else ('A' as int + (d - 10)) as char
  }

  function HexDigitVal(c: char): (d: int)
    requires IsHex(c)
    ensures 0 <= d < 16
  {
    if c <= '9' then c as int - '0' as int
    else if c <= 'F' then c as int - 'A' as int + 10
    else c as int - 'a' as int + 10
  }

  function HexVal(s: string): nat
    requires AllHex(s)
  {
    if s == "" then 0 else 16 * HexVal(s[..|s| - 1]) + HexDigitVal(s[|s| - 1])
  }

  /** Exactly `width` upper-case digits, as `%08X` prints a word. */
  function HexFixed(width: nat, n: nat): (s: string)
    ensures |s| == width && AllHex(s)
  {
    if width == 0 then "" else HexFixed(width - 1, n / 16) + [HexDigit(n % 16)]
  }

  function Pow16(k: nat): nat { if k == 0 then 1 else 16 * Pow16(k - 1) }

  lemma {:induction false} HexRoundTrip(width: nat, n: nat)
    requires n < Pow16(width)
    ensures HexVal(HexFixed(width, n)) == n
  {
    if width > 0 {
      HexRoundTrip(width - 1, n / 16);
      var s := HexFixed(width, n);
      assert s[..|s| - 1] == HexFixed(width - 1, n / 16);
      assert HexDigitVal(HexDigit(n % 16)) == n % 16;
    }
  }

  function Hex8(w: U32): (s: string)
    ensures |s| == 8 && AllHex(s)
  {
    HexFixed(8, w)
  }

  lemma Hex8RoundTrip(w: U32)
    ensures HexVal(Hex8(w)) == w
  {
    assert Pow16(8) == TWO32 by {
      assert Pow16(2) == 256;
      assert Pow16(4) == 65536;
      assert Pow16(6) == 16777216;
    }
    HexRoundTrip(8, w);
  }

  /** Lower case digits are read as upper case ones. */
  lemma {:induction false} CaseIsIgnored(s: string, t: string)
    requires AllHex(s) && AllHex(t) && |s| == |t|
    requires forall i :: 0 <= i < |s| ==> s[i] == t[i] || ('a' <= s[i] <= 'f' && t[i] as int == s[i] as int - 32)
    ensures HexVal(s) == HexVal(t)
  {
    if s != "" { CaseIsIgnored(s[..|s| - 1], t[..|t| - 1]); }
  }

  /** 127.0.0.1, as a little-endian host prints it. */
  lemma LoopbackText()
    ensures Hex8(WordOf(Quad(127, 0, 0, 1))) == "0100007F"
  {
    hide HexFixed;
    assert WordOf(Quad(127, 0, 0, 1)) == 0x0100007F;
    LoopbackDigits();
  }

  lemma HexNext(width: nat, n: nat)
    ensures HexFixed(width + 1, n) == HexFixed(width, n / 16) + [HexDigit(n % 16)]
    ensures HexFixed(0, n) == ""
  {
  }

  lemma LoopbackDigits()
    ensures HexFixed(8, 0x0100007F) == "0100007F"
  {
    hide HexFixed;
    HexNext(7, 0x0100007F);
    HexNext(6, 0x0100007);
    HexNext(5, 0x010000);
    HexNext(4, 0x01000);
    HexNext(3, 0x0100);
    HexNext(2, 0x010);
    HexNext(1, 0x01);
    HexNext(0, 0x0);
  }

  lemma {:induction false} HexBound(s: string)
    requires AllHex(s)
    ensures HexVal(s) < Pow16(|s|)
  {
    if s != "" { HexBound(s[..|s| - 1]); }
  }

  // ---------- IPv6 text ----------

  function Colons(s: string): nat { multiset(s)[':'] }

  lemma ColonsAdd(s: string, t: string)
    ensures Colons(s + t) == Colons(s) + Colons(t)
  {
    assert multiset(s + t) == multiset(s) + multiset(t);
  }

  lemma OneColon()
    ensures Colons(":") == 1
  {
    assert multiset(":") == multiset{':'};
  }

  predicate Ip6Text(s: string) { '-' !in s && '\0' !in s && Colons(s) >= 2 }

  /** What is used of `inet_ntop(AF_INET6, ..)`: the text of an address names it, holds at
      least two colons, no dash and no NUL. */
  ghost predicate PrintsIp6(f: Ip6 -> string) {
    && (forall a :: Ip6Text(f(a)))
    && (forall a, b :: f(a) == f(b) ==> a == b)
  }

  type Printer6 = f: Ip6 -> string | PrintsIp6(f)
    ghost witness (FullTextPrintsIp6(); FullText)

  /** The four words in full: one text function of this kind. */
  function FullText(a: Ip6): string {
    Hex8(WordOf(a.q0)) + ":" + (Hex8(WordOf(a.q1)) + ":" + (Hex8(WordOf(a.q2)) + ":" + Hex8(WordOf(a.q3))))
  }

  lemma HexHasNoMark(w: U32)
    ensures ':' !in Hex8(w) && '-' !in Hex8(w) && '\0' !in Hex8(w)
  {
  }

  lemma Hex8Injective(q: Quad, p: Quad)
    requires Hex8(WordOf(q)) == Hex8(WordOf(p))
    ensures q == p
  {
    Hex8RoundTrip(WordOf(q));
    Hex8RoundTrip(WordOf(p));
    QuadRoundTrip(q);
    QuadRoundTrip(p);
  }

  lemma FullTextShape(a: Ip6)
    ensures Ip6Text(FullText(a))
  {
    HexHasNoMark(WordOf(a.q3));
    var t2 := Hex8(WordOf(a.q2)) + ":" + Hex8(WordOf(a.q3));
    var t1 := Hex8(WordOf(a.q1)) + ":" + t2;
    PrependWord(WordOf(a.q2), Hex8(WordOf(a.q3)));
    PrependWord(WordOf(a.q1), t2);
    PrependWord(WordOf(a.q0), t1);
  }

  lemma PrependWord(w: U32, rest: string)
    requires '-' !in rest && '\0' !in rest
    ensures var s := Hex8(w) + ":" + rest; '-' !in s && '\0' !in s && Colons(s) == 1 + Colons(rest)
  {
    HexHasNoMark(w);
    ColonsAdd(Hex8(w), ":");
    ColonsAdd(Hex8(w) + ":", rest);
    OneColon();
  }

  lemma FullTextInjective(a: Ip6, b: Ip6)
    requires FullText(a) == FullText(b)
    ensures a == b
  {
    var a0, b0 := Hex8(WordOf(a.q0)), Hex8(WordOf(b.q0));
    var a1, b1 := Hex8(WordOf(a.q1)), Hex8(WordOf(b.q1));
    var a2, b2 := Hex8(WordOf(a.q2)), Hex8(WordOf(b.q2));
    var a3, b3 := Hex8(WordOf(a.q3)), Hex8(WordOf(b.q3));
    HexHasNoMark(WordOf(a.q0));
    HexHasNoMark(WordOf(b.q0));
    HexHasNoMark(WordOf(a.q1));
    HexHasNoMark(WordOf(b.q1));
    HexHasNoMark(WordOf(a.q2));
    HexHasNoMark(WordOf(b.q2));
    CutUnique(a0, b0, ':', a1 + ":" + (a2 + ":" + a3), b1 + ":" + (b2 + ":" + b3));
    CutUnique(a1, b1, ':', a2 + ":" + a3, b2 + ":" + b3);
    CutUnique(a2, b2, ':', a3, b3);
    Hex8Injective(a.q0, b.q0);
    Hex8Injective(a.q1, b.q1);
    Hex8Injective(a.q2, b.q2);
    Hex8Injective(a.q3, b.q3);
  }

  lemma FullTextPrintsIp6()
    ensures PrintsIp6(FullText)
  {
    forall a ensures Ip6Text(FullText(a)) { FullTextShape(a); }
    forall a, b | FullText(a) == FullText(b) ensures a == b { FullTextInjective(a, b); }
  }

  // ---------- keys ----------

  /** One side of a key, `addr:port`. */
  function Endpoint(addr: string, port: int): (s: string)
    ensures |s| > 0 && IsDigit(s[|s| - 1])
  {
    addr + ":" + ToString(port)
  }

  /** The key of a packet, and of a socket row on one device. */
  function JoinKey(local: string, lport: int, remote: string, rport: int): (s: string)
    ensures s != ""
  {
    Endpoint(local, lport) + "-" + Endpoint(remote, rport)
  }

  /** The first key stored for a row: nothing separates the remote address from its port. */
  function PrimaryKey(local: string, lport: int, remote: string, rport: int): string {
    Endpoint(local, lport) + "-" + (remote + ToString(rport))
  }

  lemma EndpointUnique(a: string, p: int, a': string, p': int)
    requires p >= 0 && p' >= 0
    requires Endpoint(a, p) == Endpoint(a', p')
    ensures a == a' && p == p'
  {
    CutLastUnique(a, a', ':', ToString(p), ToString(p'));
    DecInjective(p, p');
  }

  /** A key with any local port cuts at the same dash as one whose ports are natural. */
  lemma LocalSideUnique(a: string, p: int, rest: string, a': string, p': int, rest': string)
    requires '-' !in a && '-' !in a' && p' >= 0
    requires Endpoint(a, p) + "-" + rest == Endpoint(a', p') + "-" + rest'
    ensures a == a' && p == p' && rest == rest'
  {
    hide ToString;
    if p < 0 {
      NegativePort(a, p, rest);
      CutUnique(a + ":", Endpoint(a', p'), '-', Dec(-p) + "-" + rest, rest');
      assert false;
    } else {
      CutUnique(Endpoint(a, p), Endpoint(a', p'), '-', rest, rest');
      EndpointUnique(a, p, a', p');
    }
  }

  /** The dash of a negative port comes first, right behind a colon. */
  lemma NegativePort(a: string, p: int, rest: string)
    requires p < 0
    ensures Endpoint(a, p) + "-" + rest == (a + ":") + "-" + (Dec(-p) + "-" + rest)
    ensures !IsDigit((a + ":")[|a + ":"| - 1])
  {
  }

  /** Equal keys have equal parts, whatever texts and signed ports a row brings. */
  lemma JoinKeyUnique(l: string, lp: int, r: string, rp: int, l': string, lp': int, r': string, rp': int)
    requires '-' !in l && '-' !in r && '-' !in l' && '-' !in r'
    requires lp' >= 0 && rp' >= 0
    requires JoinKey(l, lp, r, rp) == JoinKey(l', lp', r', rp')
    ensures l == l' && lp == lp' && r == r' && rp == rp'
  {
    hide ToString;
    assert rp < 0 ==> '-' in Endpoint(r, rp) by {
      assert rp < 0 ==> Endpoint(r, rp)[|r| + 1] == '-';
    }
    assert '-' !in Endpoint(r', rp');
    LocalSideUnique(l, lp, Endpoint(r, rp), l', lp', Endpoint(r', rp'));
    EndpointUnique(r, rp, r', rp');
  }

  lemma PortHasNoColon(p: int)
    ensures ':' !in ToString(p)
  {
    var s := ToString(p);
    forall i | 0 <= i < |s| ensures s[i] != ':' {
      if i > 0 { assert IsDigit(s[i]); }
    }
  }

  lemma RemoteSidesDiffer(r: string, rp: int, r': string, rp': int)
    requires ':' !in r || Colons(r) >= 2
    requires ':' !in r'
    ensures r + ToString(rp) != Endpoint(r', rp')
  {
    PortHasNoColon(rp);
    PortHasNoColon(rp');
    ColonsAdd(r, ToString(rp));
    ColonsAdd(r', ":");
    ColonsAdd(r' + ":", ToString(rp'));
    OneColon();
  }

  /** No first key of a row is ever the key of a packet between IPv4 endpoints: the remote
      side of a packet key has one colon, that of a first key has none or at least two. */
  lemma PrimaryIsNeverAKey(l: string, lp: int, r: string, rp: int, l': string, lp': int, r': string, rp': int)
    requires '-' !in l && '-' !in l'
    requires lp' >= 0
    requires ':' !in r || Colons(r) >= 2
    requires ':' !in r'
    ensures PrimaryKey(l, lp, r, rp) != JoinKey(l', lp', r', rp')
  {
    if PrimaryKey(l, lp, r, rp) == JoinKey(l', lp', r', rp') {
      RemoteSidesDiffer(r, rp, r', rp');
      LocalSideUnique(l, lp, r + ToString(rp), l', lp', Endpoint(r', rp'));
      assert false;
    }
  }

  /** The text `a` directly followed by port `p` reads as endpoint `r` with port `q`: it is `r`, a
      colon and the first digits of `q`, and `p` has the rest of them. */
  predicate RunsOn(a: string, p: int, r: string, q: Port) {
    0 <= p && |r| < |a| && a[..|r| + 1] == r + ":" && ToString(q) == a[|r| + 1..] + ToString(p)
  }

  lemma RunsOnIff(a: string, p: int, r: string, q: Port)
    requires '-' !in r
    ensures a + ToString(p) == Endpoint(r, q) <==> RunsOn(a, p, r, q)
  {
    hide ToString;
    if a + ToString(p) == Endpoint(r, q) {
      EndpointSplits(a, p, r, q);
    }
    if RunsOn(a, p, r, q) {
      assert a == a[..|r| + 1] + a[|r| + 1..];
      assert a + ToString(p) == r + ":" + (a[|r| + 1..] + ToString(p));
    }
  }

  lemma EndpointSplits(a: string, p: int, r: string, q: Port)
    requires '-' !in r && a + ToString(p) == Endpoint(r, q)
    ensures RunsOn(a, p, r, q)
  {
    hide ToString;
    var s := a + ToString(p);
    assert s[|a|] == ToString(p)[0];
    assert p >= 0 by { assert '-' !in Endpoint(r, q); }
    assert s[|r|] == ':';
    assert forall i :: |a| <= i < |s| ==> s[i] == ToString(p)[i - |a|];
    assert a[..|r| + 1] == s[..|r| + 1] == r + ":";
    assert ToString(q) == s[|r| + 1..] == a[|r| + 1..] + ToString(p);
  }

  lemma TextRunsOn()
    ensures RunsOn("1::2:3", 80, "1::2", 380)
  {
    assert Dec(8) == "8" && Dec(80) == "80";
    assert Dec(3) == "3" && Dec(38) == "38" && Dec(380) == "380";
    var a := "1::2:3";
    assert a[..5] == "1::2" + ":" && a[5..] == "3";
  }

  function Key4(a: Ip4, ap: Port, b: Ip4, bp: Port): string {
    JoinKey(DottedQuad(a), ap, DottedQuad(b), bp)
  }

  function ParseEndpoint(s: string): Option<(Ip4, Port)> {
    var c :- Cut(s, ':');
    var a :- ParseQuad(c.0);
    var p :- ParsePort(c.1);
    Some((a, p))
  }

  /** Reads an IPv4 flow key back into its four parts. */
  function ParseKey(s: string): Option<(Ip4, Port, Ip4, Port)> {
    var c :- Cut(s, '-');
    var l :- ParseEndpoint(c.0);
    var r :- ParseEndpoint(c.1);
    Some((l.0, l.1, r.0, r.1))
  }

  lemma EndpointRoundTrip(a: Ip4, p: Port)
    ensures ParseEndpoint(Endpoint(DottedQuad(a), p)) == Some((a, p))
    ensures '-' !in Endpoint(DottedQuad(a), p)
  {
    DottedQuadChars(a);
    CutJoin(DottedQuad(a), ':', ToString(p));
    QuadTextRoundTrip(a);
    DecRoundTrip(p);
  }

  /** Keys and first keys as they look. */
  lemma KeyInstance(a: Ip4, b: Ip4)
    requires a == Quad(10, 0, 0, 1) && b == Quad(10, 2, 0, 9)
    ensures Key4(a, 7, b, 9) == "10.0.0.1:7-10.2.0.9:9"
    ensures PrimaryKey(DottedQuad(a), 7, DottedQuad(b), 9) == "10.0.0.1:7-10.2.0.99"
  {
    hide DottedQuad, Dec;
    DigitTexts();
    TextInstance();
  }

  lemma DigitTexts()
    ensures Dec(7) == "7" && Dec(9) == "9"
  {
  }

  lemma TextInstance()
    ensures DottedQuad(Quad(10, 0, 0, 1)) == "10.0.0.1" && DottedQuad(Quad(10, 2, 0, 9)) == "10.2.0.9"
  {
    assert Dec(1) == "1" && Dec(0) == "0" && Dec(2) == "2" && Dec(9) == "9";
    assert Dec(10) == "10";
  }

  /** Flow keys decode uniquely, and fit the 128-byte field they are reported in. */
  lemma KeyRoundTrip(a: Ip4, ap: Port, b: Ip4, bp: Port)
    ensures ParseKey(Key4(a, ap, b, bp)) == Some((a, ap, b, bp))
    ensures |Key4(a, ap, b, bp)| <= 43
  {
    EndpointRoundTrip(a, ap);
    EndpointRoundTrip(b, bp);
    CutJoin(Endpoint(DottedQuad(a), ap), '-', Endpoint(DottedQuad(b), bp));
    DottedQuadChars(a);
    DottedQuadChars(b);
    DecWidth(ap);
    DecWidth(bp);
  }
}
