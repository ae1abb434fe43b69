/** The packet phase of a round as a list of handler calls, and what those calls do to the books. */
module Deliveries {
  import opened Text
  import opened Picking
  import opened Packets
  import opened InodeIndex
  import opened Processes
  import opened Frames
  import opened Monitor

  // ---------- frames to calls ----------

  /** The calls that the frames of a handle cause, from the frames alone. */
  function HandlingsOf(link: int, frames: seq<Frame>): seq<Handling> {
    if frames == [] then []
    else
      HandlingsOf(link, frames[..|frames| - 1])
      + HandlingOf(link, frames[|frames| - 1]).ToSeq()
  }

  function Links(handles: seq<HandleState>): (links: seq<int>)
    ensures |links| == |handles|
    ensures forall i :: 0 <= i < |handles| ==> links[i] == handles[i].link
  {
    if handles == [] then [] else Links(handles[..|handles| - 1]) + [handles[|handles| - 1].link]
  }

  /** The calls of a round, handle after handle. */
  function RoundHandlings(links: seq<int>, env: Env, n: nat): seq<Handling>
    requires n <= |links|
  {
    if n == 0 then []
    else RoundHandlings(links, env, n - 1) + HandlingsOf(links[n - 1], env.dispatch(n - 1).frames)
  }

  /** Whatever the frames, the calls of a handle are exactly those of the frames that cause one. */
  lemma {:induction false} HandlingsArePicked(link: int, frames: seq<Frame>)
    ensures Picks(seq(|frames|, i requires 0 <= i < |frames| => HandlingOf(link, frames[i])), HandlingsOf(link, frames))
    decreases |frames|
  {
    hide HandlingOf, Picks;
    var xs := seq(|frames|, i requires 0 <= i < |frames| => HandlingOf(link, frames[i]));
    if frames == [] {
      PicksNone<Handling>();
      assert xs == [];
    } else {
      var before := frames[..|frames| - 1];
      HandlingsArePicked(link, before);
      var ys := seq(|before|, i requires 0 <= i < |before| => HandlingOf(link, before[i]));
      PicksOne(ys, HandlingsOf(link, before), HandlingOf(link, frames[|frames| - 1]));
      assert xs == ys + [HandlingOf(link, frames[|frames| - 1])];
    }
  }

  /** How many calls the first `i` handles cause. */
  function CallsBefore(links: seq<int>, env: Env, i: nat): nat
    requires i <= |links|
  {
    if i == 0 then 0 else CallsBefore(links, env, i - 1) + |HandlingsOf(links[i - 1], env.dispatch(i - 1).frames)|
  }

  lemma {:induction false} CallsCounted(links: seq<int>, env: Env, n: nat)
    requires n <= |links|
    ensures |RoundHandlings(links, env, n)| == CallsBefore(links, env, n)
  {
    hide HandlingsOf;
    if n > 0 { CallsCounted(links, env, n - 1); }
  }

  /** The calls of a round are those of the handles, one handle after the other. */
  lemma {:induction false} RoundHasEveryHandle(links: seq<int>, env: Env, n: nat, i: nat)
    requires i < n <= |links|
    ensures |RoundHandlings(links, env, n)| == CallsBefore(links, env, n)
    ensures var own := HandlingsOf(links[i], env.dispatch(i).frames);
            var at := CallsBefore(links, env, i);
            at + |own| <= CallsBefore(links, env, n) && RoundHandlings(links, env, n)[at..at + |own|] == own
    decreases n
  {
    hide HandlingsOf;
    CallsCounted(links, env, n);
    CallsCounted(links, env, n - 1);
    if i < n - 1 {
      RoundHasEveryHandle(links, env, n - 1, i);
      var before, last := RoundHandlings(links, env, n - 1), HandlingsOf(links[n - 1], env.dispatch(n - 1).frames);
      var at, own := CallsBefore(links, env, i), HandlingsOf(links[i], env.dispatch(i).frames);
      assert (before + last)[at..at + |own|] == before[at..at + |own|];
    }
  }

  function DeliverAll(pr: Printer6, d: Desk, b: Books, created: int -> ProcRead, hs: seq<Handling>): Books
    decreases |hs|
  {
    if hs == [] then b
    else Deliver(pr, d, DeliverAll(pr, d, b, created, hs[..|hs| - 1]), created, hs[|hs| - 1])
  }

  lemma {:induction false} DeliverAllAppend(pr: Printer6, d: Desk, b: Books, created: int -> ProcRead, hs: seq<Handling>, more: seq<Handling>)
    ensures DeliverAll(pr, d, b, created, hs + more) == DeliverAll(pr, d, DeliverAll(pr, d, b, created, hs), created, more)
    decreases |more|
  {
    hide Deliver;
    if more == [] {
      assert hs + more == hs;
    } else {
      DeliverAllAppend(pr, d, b, created, hs, more[..|more| - 1]);
      assert (hs + more)[..|hs + more| - 1] == hs + more[..|more| - 1];
    }
  }

  /** A frame causes its own call, whatever context an earlier frame left on the handle. */
  lemma FrameIsDelivery(pr: Printer6, d: Desk, lane: Lane, created: int -> ProcRead, f: Frame)
    ensures var lane' := FrameStep(pr, d, lane, created, f);
            && lane'.handle == lane.handle.(ctx := ContextAfter(lane.handle, f))
            && lane'.books == (match HandlingOf(lane.handle.link, f)
                               case None => lane.books
                               case Some(h) => Deliver(pr, d, lane.books, created, h))
  {
    hide Deliver;
  }

  lemma {:induction false} FramesAreDeliveries(pr: Printer6, d: Desk, lane: Lane, created: int -> ProcRead, frames: seq<Frame>)
    ensures var lane' := FrameSteps(pr, d, lane, created, frames);
            && lane'.handle.link == lane.handle.link
            && lane'.books == DeliverAll(pr, d, lane.books, created, HandlingsOf(lane.handle.link, frames))
    decreases |frames|
  {
    hide Deliver, FrameStep, HandlingOf;
    if frames != [] {
      var before := frames[..|frames| - 1];
      var f := frames[|frames| - 1];
      FramesAreDeliveries(pr, d, lane, created, before);
      FrameIsDelivery(pr, d, FrameSteps(pr, d, lane, created, before), created, f);
      var hs := HandlingsOf(lane.handle.link, before);
      match HandlingOf(lane.handle.link, f)
      case None => assert hs + [] == hs;
      case Some(h) => assert (hs + [h])[..|hs|] == hs;
    }
  }

  /** What dispatching leaves alone. */
  predicate OnlyBooks(s: State, t: State) {
    t == s.(handles := t.handles, books := t.books) && Links(t.handles) == Links(s.handles)
  }

  lemma SameLinks(hs: seq<HandleState>, i: nat, h: HandleState)
    requires i < |hs| && h.link == hs[i].link
    ensures Links(hs[i := h]) == Links(hs)
  {
  }

  lemma DispatchOneDelivers(pr: Printer6, s: State, env: Env, i: nat)
    requires i < |s.handles|
    ensures OnlyBooks(s, DispatchOne(pr, s, env, i))
    ensures DispatchOne(pr, s, env, i).books
         == DeliverAll(pr, DeskOf(s), s.books, env.created, HandlingsOf(Links(s.handles)[i], env.dispatch(i).frames))
  {
    hide DeliverAll, FrameSteps, HandlingsOf;
    var lane := FrameSteps(pr, DeskOf(s), Lane(s.handles[i], s.books), env.created, env.dispatch(i).frames);
    FramesAreDeliveries(pr, DeskOf(s), Lane(s.handles[i], s.books), env.created, env.dispatch(i).frames);
    SameLinks(s.handles, i, lane.handle);
  }

  /** Dispatching the handles is delivering the calls of their frames, in order. */
  lemma {:induction false} DispatchIsDeliveries(pr: Printer6, s: State, env: Env, n: nat)
    requires n <= |s.handles|
    ensures OnlyBooks(s, DispatchTo(pr, s, env, n))
    ensures DispatchTo(pr, s, env, n).books
         == DeliverAll(pr, DeskOf(s), s.books, env.created, RoundHandlings(Links(s.handles), env, n))
  {
    hide DeliverAll, DispatchOne, HandlingsOf, Links;
    if n == 0 {
      DeliverNone(pr, DeskOf(s), s.books, env.created);
    } else {
      DispatchIsDeliveries(pr, s, env, n - 1);
      DispatchOneDelivers(pr, DispatchTo(pr, s, env, n - 1), env, n - 1);
      DeliverAllAppend(pr, DeskOf(s), s.books, env.created, RoundHandlings(Links(s.handles), env, n - 1),
                       HandlingsOf(Links(s.handles)[n - 1], env.dispatch(n - 1).frames));
    }
  }

  lemma DeliverNone(pr: Printer6, d: Desk, b: Books, created: int -> ProcRead)
    ensures DeliverAll(pr, d, b, created, []) == b
  {
  }

  // ---------- contexts ----------

  lemma {:induction false} CallsLogged(pr: Printer6, d: Desk, b: Books, created: int -> ProcRead, hs: seq<Handling>)
    ensures DeliverAll(pr, d, b, created, hs).calls == b.calls + hs
    decreases |hs|
  {
    hide HitOf;
    if hs != [] {
      CallsLogged(pr, d, b, created, hs[..|hs| - 1]);
      assert hs == hs[..|hs| - 1] + [hs[|hs| - 1]];
    }
  }

  lemma {:induction false} CallsHaveContext(link: int, frames: seq<Frame>)
    ensures forall i :: 0 <= i < |HandlingsOf(link, frames)| ==> HandlingsOf(link, frames)[i].ctx != NoContext
  {
    hide HandlingOf;
    if frames != [] {
      CallsHaveContext(link, frames[..|frames| - 1]);
      CallHasContext(link, frames[|frames| - 1]);
    }
  }

  lemma CallHasContext(link: int, f: Frame)
    ensures HandlingOf(link, f).Some? ==> HandlingOf(link, f).value.ctx != NoContext
  {
  }

  lemma {:induction false} RoundCallsHaveContext(links: seq<int>, env: Env, n: nat)
    requires n <= |links|
    ensures forall i :: 0 <= i < |RoundHandlings(links, env, n)| ==> RoundHandlings(links, env, n)[i].ctx != NoContext
  {
    hide HandlingsOf;
    if n > 0 {
      RoundCallsHaveContext(links, env, n - 1);
      CallsHaveContext(links[n - 1], env.dispatch(n - 1).frames);
    }
  }

  /** In a round from any state, whatever contexts the handles hold, the handlers are called
      exactly for the frames of this round, each with the addresses of its own frame and never
      without any: the exit for an unknown family is not reached. */
  lemma ContextsAreCoherent(pr: Printer6, s: State, env: Env)
    ensures var hs := RoundHandlings(Links(s.handles), env, |s.handles|);
            && Dispatched(pr, s, env).books.calls == s.books.calls + hs
            && forall i :: 0 <= i < |hs| ==> FlowOf(hs[i].ctx, hs[i].sport, hs[i].dport).Some?
  {
    hide RoundHandlings, DeliverAll, DispatchTo;
    var s1 := StartRound(pr, s, env);
    DispatchIsDeliveries(pr, s1, env, |s.handles|);
    CallsLogged(pr, DeskOf(s1), s1.books, env.created, RoundHandlings(Links(s.handles), env, |s.handles|));
    RoundCallsHaveContext(Links(s.handles), env, |s.handles|);
  }

  // ---------- hits ----------

  /** The packets among the calls whose lookup succeeds. */
  function HitsOf(pr: Printer6, devices: seq<LocalAddr>, ix: Index, hs: seq<Handling>): seq<Hit>
    decreases |hs|
  {
    if hs == [] then []
    else
      HitsOf(pr, devices, ix, hs[..|hs| - 1])
      + HitOf(pr, devices, ix, hs[|hs| - 1]).ToSeq()
  }

  /** The accepted packets are exactly the calls whose lookup succeeds. */
  lemma {:induction false} HitsArePicked(pr: Printer6, devices: seq<LocalAddr>, ix: Index, hs: seq<Handling>)
    ensures Picks(seq(|hs|, i requires 0 <= i < |hs| => HitOf(pr, devices, ix, hs[i])), HitsOf(pr, devices, ix, hs))
    decreases |hs|
  {
    hide HitOf, Picks;
    var xs := seq(|hs|, i requires 0 <= i < |hs| => HitOf(pr, devices, ix, hs[i]));
    if hs == [] {
      PicksNone<Hit>();
      assert xs == [];
    } else {
      var before := hs[..|hs| - 1];
      HitsArePicked(pr, devices, ix, before);
      var ys := seq(|before|, i requires 0 <= i < |before| => HitOf(pr, devices, ix, before[i]));
      PicksOne(ys, HitsOf(pr, devices, ix, before), HitOf(pr, devices, ix, hs[|hs| - 1]));
      assert xs == ys + [HitOf(pr, devices, ix, hs[|hs| - 1])];
    }
  }

  /** The accepted packets of a round, from what the round reads and the devices alone. */
  function RoundHits(pr: Printer6, devices: seq<LocalAddr>, links: seq<int>, env: Env): seq<Hit> {
    HitsOf(pr, devices, BuildIndex(pr, devices, env.tables, Live(env.listing), env.fds), RoundHandlings(links, env, |links|))
  }

  /** The books after a list of accepted packets. */
  function TakeHits(d: Desk, b: Books, created: int -> ProcRead, hits: seq<Hit>): Books
    decreases |hits|
  {
    if hits == [] then b
    else
      var hit := hits[|hits| - 1];
      FileHit(d, CreditHit(d, TakeHits(d, b, created, hits[..|hits| - 1]), created, hit), hit)
  }

  lemma HitIgnoresCalls(d: Desk, b: Books, created: int -> ProcRead, hit: Hit, calls: seq<Handling>)
    ensures FileHit(d, CreditHit(d, b.(calls := calls), created, hit), hit)
         == FileHit(d, CreditHit(d, b, created, hit), hit).(calls := calls)
  {
    hide FileRow, Credit, EntryFor;
  }

  lemma TakeOneMore(d: Desk, b: Books, created: int -> ProcRead, hits: seq<Hit>, hit: Hit)
    ensures TakeHits(d, b, created, hits + [hit])
         == FileHit(d, CreditHit(d, TakeHits(d, b, created, hits), created, hit), hit)
  {
    hide FileHit, CreditHit;
    assert (hits + [hit])[..|hits|] == hits;
  }

  /** One call after books that the accepted packets `hits` made. */
  lemma DeliverNext(d: Desk, b: Books, created: int -> ProcRead, hits: seq<Hit>, calls: seq<Handling>, h: Handling, found: Option<Hit>)
    ensures DeliverFound(d, TakeHits(d, b, created, hits).(calls := calls), created, h, found)
         == TakeHits(d, b, created, hits + found.ToSeq()).(calls := calls + [h])
  {
    hide FileHit, CreditHit, TakeHits;
    match found
    case None => assert hits + [] == hits;
    case Some(hit) =>
      TakeOneMore(d, b, created, hits, hit);
      HitIgnoresCalls(d, TakeHits(d, b, created, hits), created, hit, calls + [h]);
  }

  /** Only the accepted packets matter to the processes and the packet buffer. */
  lemma {:induction false} DeliverIsTakingHits(pr: Printer6, d: Desk, b: Books, created: int -> ProcRead, hs: seq<Handling>)
    ensures DeliverAll(pr, d, b, created, hs)
         == TakeHits(d, b, created, HitsOf(pr, d.devices, d.index, hs)).(calls := b.calls + hs)
    decreases |hs|
  {
    hide HitOf, HitsOf, TakeHits, DeliverAll, DeliverFound;
    if hs == [] {
      NothingDelivered(pr, d, b, created);
      assert b.calls + [] == b.calls;
    } else {
      var before, h := hs[..|hs| - 1], hs[|hs| - 1];
      DeliverIsTakingHits(pr, d, b, created, before);
      DeliverLast(pr, d, b, created, hs);
      DeliverNext(d, b, created, HitsOf(pr, d.devices, d.index, before), b.calls + before, h, HitOf(pr, d.devices, d.index, h));
      assert b.calls + hs == b.calls + before + [h];
    }
  }

  lemma NothingDelivered(pr: Printer6, d: Desk, b: Books, created: int -> ProcRead)
    ensures DeliverAll(pr, d, b, created, []) == b == TakeHits(d, b, created, HitsOf(pr, d.devices, d.index, []))
  {
  }

  lemma DeliverLast(pr: Printer6, d: Desk, b: Books, created: int -> ProcRead, hs: seq<Handling>)
    requires hs != []
    ensures var before, h := hs[..|hs| - 1], hs[|hs| - 1];
            var hit := HitOf(pr, d.devices, d.index, h);
            && DeliverAll(pr, d, b, created, hs) == DeliverFound(d, DeliverAll(pr, d, b, created, before), created, h, hit)
            && HitsOf(pr, d.devices, d.index, hs) == HitsOf(pr, d.devices, d.index, before) + hit.ToSeq()
  {
    hide HitOf, DeliverFound;
  }

  /** The packet phase of a round. */
  lemma DispatchTakesHits(pr: Printer6, s: State, env: Env)
    ensures var s1 := StartRound(pr, s, env);
            var t := Dispatched(pr, s, env);
            && OnlyBooks(s1, t)
            && t.books.(calls := s.books.calls)
            == TakeHits(DeskOf(s1), s1.books, env.created, RoundHits(pr, s.cfg.devices, Links(s.handles), env))
  {
    hide HitsOf, RoundHandlings, DeliverAll, DispatchTo, BuildIndex;
    var s1 := StartRound(pr, s, env);
    var hs := RoundHandlings(Links(s.handles), env, |s.handles|);
    DispatchIsDeliveries(pr, s1, env, |s.handles|);
    DeliverIsTakingHits(pr, DeskOf(s1), s1.books, env.created, hs);
    HitsKeepCalls(DeskOf(s1), s1.books, env.created, HitsOf(pr, DeskOf(s1).devices, DeskOf(s1).index, hs));
  }

  lemma {:induction false} HitsKeepCalls(d: Desk, b: Books, created: int -> ProcRead, hits: seq<Hit>)
    ensures TakeHits(d, b, created, hits).calls == b.calls
    decreases |hits|
  {
    if hits != [] { HitsKeepCalls(d, b, created, hits[..|hits| - 1]); }
  }

  // ---------- the packet buffer ----------

  /** The rows of the accepted packets, in slots from 0 on of a buffer that had `reused` rows. */
  function PacketRows(hits: seq<Hit>, reused: nat): (rows: seq<PacketRow>)
    ensures |rows| == |hits|
    ensures forall i :: 0 <= i < |hits| ==>
              rows[i] == PacketRow(Field(hits[i].link, 127), if i < reused then Tcp else hits[i].kind, hits[i].len)
  {
    if hits == [] then []
    else
      var n := |hits| - 1;
      PacketRows(hits[..n], reused) + [PacketRow(Field(hits[n].link, 127), if n < reused then Tcp else hits[n].kind, hits[n].len)]
  }

  lemma OverwriteGrows<T>(buffer: seq<T>, rows: seq<T>, row: T)
    ensures Overwrite(buffer, rows + [row]) ==
              if |rows| < |buffer| then Overwrite(buffer, rows)[|rows| := row] else Overwrite(buffer, rows) + [row]
  {
  }

  /** With a packet callback, the slots from 0 on hold exactly the accepted packets in order of
      arrival, the next slot is their number, and the rest of the buffer is as it was. */
  lemma {:induction false} HitsFillBuffer(d: Desk, b: Books, created: int -> ProcRead, hits: seq<Hit>)
    requires d.packetCb && b.packetIdx == 0
    ensures var t := TakeHits(d, b, created, hits);
            t.packetIdx == |hits| && t.packetData == Overwrite(b.packetData, PacketRows(hits, |b.packetData|))
    decreases |hits|
  {
    if hits != [] {
      var n := |hits| - 1;
      HitsFillBuffer(d, b, created, hits[..n]);
      OverwriteGrows(b.packetData, PacketRows(hits[..n], |b.packetData|), PacketRows(hits, |b.packetData|)[n]);
    }
  }

  /** The packet buffer after a round: this round's packets, then what the old buffer had there. */
  lemma PacketBufferOfRound(pr: Printer6, s: State, env: Env)
    requires s.cfg.packetCb
    ensures var hits := RoundHits(pr, s.cfg.devices, Links(s.handles), env);
            var past := s.books.packetData;
            var t := Dispatched(pr, s, env).books;
            && t.packetIdx == |hits|
            && |t.packetData| == (if |hits| < |past| then |past| else |hits|)
            && t.packetData[..|hits|] == PacketRows(hits, |past|)
            && forall i :: |hits| <= i < |past| ==> t.packetData[i] == past[i]
  {
    hide RoundHits, DispatchTo, TakeHits;
    var s1 := StartRound(pr, s, env);
    var hits := RoundHits(pr, s.cfg.devices, Links(s.handles), env);
    DispatchTakesHits(pr, s, env);
    HitsFillBuffer(DeskOf(s1), s1.books, env.created, hits);
  }

  /** A link text between IPv4 endpoints is reported in full. */
  lemma LinkIsShownInFull(pr: Printer6, f: Flow)
    requires f.src.A4? && f.dst.A4?
    ensures Field(LinkText(pr, f), 127).Shown() == LinkText(pr, f)
  {
    hide Cut, JoinKey;
    KeyRoundTrip(f.src.ip4, f.sport, f.dst.ip4, f.dport);
    DottedQuadChars(f.src.ip4);
    DottedQuadChars(f.dst.ip4);
    KeyHasNoNul(DottedQuad(f.src.ip4), f.sport, DottedQuad(f.dst.ip4), f.dport);
  }

  lemma KeyHasNoNul(l: string, lp: Port, r: string, rp: Port)
    requires '\0' !in l && '\0' !in r
    ensures '\0' !in JoinKey(l, lp, r, rp)
  {
    assert AllDigits(ToString(lp)) && AllDigits(ToString(rp));
  }
}
