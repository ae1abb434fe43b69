/** The reconcile loop half way: what holds between two steps of the iterators, and why the
    end of the loop is the reconcile step. */
module Merge {
  import opened Text
  import opened Ordered
  import opened Processes
  import opened Reconcile
  import opened Monitor

  function Prefix(s: seq<int>, n: nat): set<int>
    requires n <= |s|
  {
    Elements(s[..n])
  }

  lemma PrefixGrows(s: seq<int>, n: nat)
    requires n < |s|
    ensures Prefix(s, n + 1) == Prefix(s, n) + {s[n]}
    ensures Ascending(s) ==> s[n] !in Prefix(s, n)
  {
    assert s[..n + 1] == s[..n] + [s[n]];
  }

  /** Iterators at `i` and `j`, the pids in `gone` erased: the tracked pids passed so far are
      the erased ones and, apart from them, the live ones passed. */
  ghost predicate Passed(ps: seq<int>, ks: seq<int>, i: nat, j: nat, gone: seq<int>) {
    && i <= |ps| && j <= |ks|
    && gone + Walk(ps[i..], ks[j..]) == Walk(ps, ks)
    && Prefix(ks, j) == Elements(gone) + Prefix(ps, i)
    && Elements(gone) !! Prefix(ps, i)
  }

  /** The entries: those erased are gone, those passed are parsed, those ahead are untouched. */
  ghost predicate Entries(passed: set<int>, gone: set<int>, before: map<int, Proc>, now: map<int, Proc>,
                          memory: U64, deltaCpu: U64, parsed: int -> ProcRead)
  {
    && now.Keys == before.Keys - gone
    && (forall k :: k in now ==>
          now[k] == if k in passed then ParseProc(before[k], memory, deltaCpu, parsed(k)) else before[k])
  }

  ghost predicate Merging(ps: seq<int>, ks: seq<int>, i: nat, j: nat, gone: seq<int>,
                          before: map<int, Proc>, now: map<int, Proc>, memory: U64, deltaCpu: U64, parsed: int -> ProcRead)
  {
    Passed(ps, ks, i, j, gone) && Entries(Prefix(ks, j), Elements(gone), before, now, memory, deltaCpu, parsed)
  }

  ghost predicate Iterated(ps: seq<int>, ks: seq<int>, before: map<int, Proc>) {
    Ascending(ps) && Ascending(ks) && Elements(ks) == before.Keys
  }

  lemma MergeStart(ps: seq<int>, ks: seq<int>, before: map<int, Proc>, memory: U64, deltaCpu: U64, parsed: int -> ProcRead)
    ensures Merging(ps, ks, 0, 0, [], before, before, memory, deltaCpu, parsed)
  {
    assert ps[0..] == ps && ks[0..] == ks;
  }

  lemma WalkAhead(ps: seq<int>, ks: seq<int>, i: nat, j: nat)
    requires i < |ps| && j < |ks|
    ensures Walk(ps[i..], ks[j..]) ==
              if ps[i] == ks[j] then Walk(ps[i + 1..], ks[j + 1..]) else [ks[j]] + Walk(ps[i..], ks[j + 1..])
  {
    assert ps[i..][1..] == ps[i + 1..] && ks[j..][1..] == ks[j + 1..];
  }

  lemma GoneGrows(gone: seq<int>, k: int)
    ensures Elements(gone + [k]) == Elements(gone) + {k}
  {
  }

  lemma PassErase(ps: seq<int>, ks: seq<int>, i: nat, j: nat, gone: seq<int>)
    requires Ascending(ks) && Passed(ps, ks, i, j, gone)
    requires i < |ps| && j < |ks| && ps[i] != ks[j]
    ensures Passed(ps, ks, i, j + 1, gone + [ks[j]])
  {
    hide Walk, Elements, Prefix, Ascending;
    WalkAhead(ps, ks, i, j);
    PrefixGrows(ks, j);
    GoneGrows(gone, ks[j]);
    assert gone + [ks[j]] + Walk(ps[i..], ks[j + 1..]) == gone + ([ks[j]] + Walk(ps[i..], ks[j + 1..]));
  }

  lemma PassKeep(ps: seq<int>, ks: seq<int>, i: nat, j: nat, gone: seq<int>)
    requires Ascending(ks) && Passed(ps, ks, i, j, gone)
    requires i < |ps| && j < |ks| && ps[i] == ks[j]
    ensures Passed(ps, ks, i + 1, j + 1, gone)
  {
    hide Walk, Elements, Prefix, Ascending;
    WalkAhead(ps, ks, i, j);
    PrefixGrows(ks, j);
    PrefixGrows(ps, i);
  }

  lemma Ahead(ps: seq<int>, ks: seq<int>, i: nat, j: nat, gone: seq<int>, before: map<int, Proc>, now: map<int, Proc>,
              memory: U64, deltaCpu: U64, parsed: int -> ProcRead)
    requires Iterated(ps, ks, before) && Merging(ps, ks, i, j, gone, before, now, memory, deltaCpu, parsed)
    requires j < |ks|
    ensures ks[j] in now && ks[j] in before && now[ks[j]] == before[ks[j]]
  {
    PrefixGrows(ks, j);
    assert ks[j] in Elements(ks);
  }

  lemma MergeErase(ps: seq<int>, ks: seq<int>, i: nat, j: nat, gone: seq<int>,
                   before: map<int, Proc>, now: map<int, Proc>, memory: U64, deltaCpu: U64, parsed: int -> ProcRead)
    requires Iterated(ps, ks, before)
    requires Merging(ps, ks, i, j, gone, before, now, memory, deltaCpu, parsed)
    requires i < |ps| && j < |ks| && ps[i] != ks[j]
    ensures ks[j] in now && ks[j] in before && now[ks[j]] == before[ks[j]]
    ensures Merging(ps, ks, i, j + 1, gone + [ks[j]], before, now - {ks[j]}, memory, deltaCpu, parsed)
  {
    Ahead(ps, ks, i, j, gone, before, now, memory, deltaCpu, parsed);
    PassErase(ps, ks, i, j, gone);
    PrefixGrows(ks, j);
    GoneGrows(gone, ks[j]);
  }

  lemma MergeKeep(ps: seq<int>, ks: seq<int>, i: nat, j: nat, gone: seq<int>,
                  before: map<int, Proc>, now: map<int, Proc>, memory: U64, deltaCpu: U64, parsed: int -> ProcRead)
    requires Iterated(ps, ks, before)
    requires Merging(ps, ks, i, j, gone, before, now, memory, deltaCpu, parsed)
    requires i < |ps| && j < |ks| && ps[i] == ks[j]
    ensures ks[j] in now
    ensures Merging(ps, ks, i + 1, j + 1, gone, before,
                    now[ks[j] := ParseProc(now[ks[j]], memory, deltaCpu, parsed(ks[j]))], memory, deltaCpu, parsed)
  {
    Ahead(ps, ks, i, j, gone, before, now, memory, deltaCpu, parsed);
    PassKeep(ps, ks, i, j, gone);
    PrefixGrows(ks, j);
  }

  /** At the end of the loop, of the tracked pids not erased exactly the live ones were passed. */
  lemma PassedAll(ps: seq<int>, ks: seq<int>, i: nat, j: nat, gone: seq<int>, k: int)
    requires Passed(ps, ks, i, j, gone)
    requires i == |ps| || j == |ks|
    requires k in Elements(ks) && k !in Elements(gone)
    ensures k in Prefix(ks, j) <==> k in Elements(ps)
  {
    if i == |ps| {
      assert ps[..i] == ps;
    } else {
      assert ks[..j] == ks;
    }
  }

  lemma MergeEnd(pids: set<int>, ps: seq<int>, ks: seq<int>, i: nat, j: nat, gone: seq<int>,
                 before: map<int, Proc>, now: map<int, Proc>, memory: U64, deltaCpu: U64, parsed: int -> ProcRead)
    requires Iterated(ps, ks, before) && Elements(ps) == pids
    requires Merging(ps, ks, i, j, gone, before, now, memory, deltaCpu, parsed)
    requires i == |ps| || j == |ks|
    ensures gone == Walk(ps, ks)
    ensures now == Reparsed(before, pids, gone, memory, deltaCpu, parsed)
  {
    hide Passed, Prefix, Walk, Ascending;
    WalkDone(ps, ks, i, j, gone);
    forall k | k in now ensures k in Prefix(ks, j) <==> k in pids {
      PassedAll(ps, ks, i, j, gone, k);
    }
    EntriesEnd(pids, Prefix(ks, j), gone, before, now, memory, deltaCpu, parsed);
  }

  lemma WalkDone(ps: seq<int>, ks: seq<int>, i: nat, j: nat, gone: seq<int>)
    requires Passed(ps, ks, i, j, gone) && (i == |ps| || j == |ks|)
    ensures gone == Walk(ps, ks) && j <= |ks|
  {
    assert Walk(ps[i..], ks[j..]) == [];
  }

  lemma EntriesEnd(pids: set<int>, passed: set<int>, gone: seq<int>, before: map<int, Proc>, now: map<int, Proc>,
                   memory: U64, deltaCpu: U64, parsed: int -> ProcRead)
    requires Entries(passed, Elements(gone), before, now, memory, deltaCpu, parsed)
    requires forall k :: k in now ==> (k in passed <==> k in pids)
    ensures now == Reparsed(before, pids, gone, memory, deltaCpu, parsed)
  {
    hide ParseProc;
    var r := Reparsed(before, pids, gone, memory, deltaCpu, parsed);
    assert forall k :: k in gone <==> k in Elements(gone);
    assert now.Keys == r.Keys;
    assert forall k :: k in now ==> now[k] == r[k];
  }

  lemma TracesGrow(before: map<int, Proc>, gone: seq<int>, k: int)
    requires Within(gone, before) && k in before
    ensures Within(gone + [k], before)
    ensures Erasures(before, gone + [k]) == Erasures(before, gone) + [ErasureOf(k, before[k])]
    ensures Removals(gone + [k]) == Removals(gone) + [Removed(k)]
  {
    assert (gone + [k])[..|gone|] == gone;
  }
}
