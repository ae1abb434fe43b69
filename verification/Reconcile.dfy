/** The merge of the live pids with the tracked ones: what the two-iterator walk erases. */
module Reconcile {
  import opened Ordered

  /** The walk over two ascending sequences: equal heads are passed together, otherwise the
      tracked head is erased. It ends when either side does. */
  function Walk(ps: seq<int>, ks: seq<int>): seq<int>
    decreases |ks|
  {
    if ps == [] || ks == [] then []
    else if ps[0] == ks[0] then Walk(ps[1..], ks[1..])
    else [ks[0]] + Walk(ps, ks[1..])
  }

  /** Whether tracked pid `k` survives when the live pids are P and the tracked ones K. */
  predicate Survives(P: set<int>, K: set<int>, k: int) {
    if exists u :: u in P && u !in K
    then k in P && forall u :: u in P && u !in K ==> k < u
    else k in P || forall p :: p in P ==> p < k
  }

  function Kept(P: set<int>, K: set<int>): set<int> {
    set k | k in K && Survives(P, K, k)
  }

  lemma TailElements(s: seq<int>)
    requires s != [] && Ascending(s)
    ensures Elements(s) == Elements(s[1..]) + {s[0]} && s[0] !in Elements(s[1..])
    ensures forall x :: x in Elements(s[1..]) ==> s[0] < x
    ensures Ascending(s[1..])
  {
    assert s == [s[0]] + s[1..];
  }

  /** Dropping equal least elements from both sides leaves the verdict on the others. */
  lemma DropBoth(P: set<int>, K: set<int>, x: int, k: int)
    requires x !in P && x !in K
    requires (forall p :: p in P ==> x < p) && (forall q :: q in K ==> x < q)
    requires k in K
    ensures Survives(P + {x}, K + {x}, k) <==> Survives(P, K, k)
    ensures Survives(P + {x}, K + {x}, x)
  {
    assert forall u :: u in P + {x} && u !in K + {x} <==> u in P && u !in K;
  }

  /** Dropping a least tracked pid that differs from the least live one does not change the
      verdict on the others, and that pid does not survive. */
  lemma DropTracked(P: set<int>, K: set<int>, p0: int, x: int, k: int)
    requires p0 in P && (forall p :: p in P ==> p0 <= p)
    requires x != p0 && x !in K && (forall q :: q in K ==> x < q)
    ensures k in K ==> (Survives(P, K + {x}, k) <==> Survives(P, K, k))
    ensures !Survives(P, K + {x}, x)
  {
    if p0 in K {
      assert x < p0;
      assert x !in P;
      assert forall u :: u in P && u !in K + {x} <==> u in P && u !in K;
    } else {
      assert p0 in P && p0 !in K + {x};
    }
  }

  /** The walk erases exactly the tracked pids that do not survive, in ascending order. */
  lemma {:induction false} WalkErases(ps: seq<int>, ks: seq<int>, k: int)
    requires Ascending(ps) && Ascending(ks)
    ensures k in Walk(ps, ks) <==> k in Elements(ks) && !Survives(Elements(ps), Elements(ks), k)
    decreases |ks|
  {
    if ps == [] || ks == [] {
    } else if ps[0] == ks[0] {
      TailElements(ps);
      TailElements(ks);
      WalkErases(ps[1..], ks[1..], k);
      if k in Elements(ks[1..]) || k == ks[0] {
        DropBothAt(Elements(ps[1..]), Elements(ks[1..]), ks[0], k);
      }
    } else {
      TailElements(ks);
      TailElements(ps);
      WalkErases(ps, ks[1..], k);
      DropTracked(Elements(ps), Elements(ks[1..]), ps[0], ks[0], k);
    }
  }

  lemma DropBothAt(P: set<int>, K: set<int>, x: int, k: int)
    requires x !in P && x !in K
    requires (forall p :: p in P ==> x < p) && (forall q :: q in K ==> x < q)
    requires k in K || k == x
    ensures Survives(P + {x}, K + {x}, k) <==> k == x || Survives(P, K, k)
  {
    if k in K { DropBoth(P, K, x, k); }
  }

  lemma {:induction false} WalkAscends(ps: seq<int>, ks: seq<int>)
    requires Ascending(ps) && Ascending(ks)
    ensures Ascending(Walk(ps, ks))
    ensures forall k :: k in Walk(ps, ks) ==> k in ks
    decreases |ks|
  {
    if ps != [] && ks != [] {
      TailElements(ps);
      TailElements(ks);
      assert forall k :: k in ks[1..] ==> k in Elements(ks[1..]);
      var rest := Walk(if ps[0] == ks[0] then ps[1..] else ps, ks[1..]);
      WalkAscends(if ps[0] == ks[0] then ps[1..] else ps, ks[1..]);
      forall i | 0 <= i < |rest| ensures ks[0] < rest[i] {
        assert rest[i] in rest;
      }
    }
  }

  /** The walk in terms of sets: it erases K minus the kept pids, each once, ascending. */
  lemma WalkMeaning(P: set<int>, K: set<int>)
    ensures Walk(Sorted(P), Sorted(K)) == Sorted(K - Kept(P, K))
  {
    var w := Walk(Sorted(P), Sorted(K));
    WalkAscends(Sorted(P), Sorted(K));
    forall k ensures k in w <==> k in K - Kept(P, K) {
      WalkErases(Sorted(P), Sorted(K), k);
    }
    AscendingUnique(w, Sorted(K - Kept(P, K)));
  }

  // ---------- what is kept ----------

  /** The three cases of the merge. */
  lemma KeptCases(P: set<int>, K: set<int>)
    ensures forall m :: m in P && m !in K && (forall u :: u in P && u !in K ==> m <= u) ==>
              Kept(P, K) == set p | p in P && p < m
    ensures P <= K && P != {} ==> Kept(P, K) == P + set k | k in K && k > Greatest(P)
    ensures P == {} ==> Kept(P, K) == K
  {
    forall m | m in P && m !in K && (forall u :: u in P && u !in K ==> m <= u)
      ensures Kept(P, K) == set p | p in P && p < m
    {
      assert forall k :: k in K ==> (Survives(P, K, k) <==> k in P && k < m);
    }
    if P <= K && P != {} {
      var g := Greatest(P);
      assert forall k :: k in K ==> (Survives(P, K, k) <==> k in P || k > g);
    }
  }

  /** The tracked pids after one reconcile: the merge runs only when the sizes differ. */
  function After(P: set<int>, K: set<int>): set<int> {
    if |P| == |K| then K else Kept(P, K)
  }

  lemma SubsetSize(P: set<int>, K: set<int>)
    requires P <= K
    ensures |P| <= |K|
    ensures |P| == |K| ==> P == K
  {
    var D := K - P;
    assert K == P + D && P !! D;
    assert |K| == |P| + |D|;
  }

  /** If every live pid is tracked, comparing sizes is comparing sets, no live process is
      erased, and every dead one below the greatest live pid is. */
  lemma TrackedLiveAreSafe(P: set<int>, K: set<int>)
    requires P <= K
    ensures |P| == |K| <==> P == K
    ensures P <= After(P, K) <= K
    ensures forall k, p :: k in K && k !in P && p in P && k < p ==> k !in After(P, K)
  {
    SubsetSize(P, K);
  }

  /** A live process is erased exactly when the sizes differ and some smaller live pid is untracked. */
  lemma LiveErasedIff(P: set<int>, K: set<int>)
    ensures (exists k :: k in P && k in K && k !in After(P, K)) <==>
              |P| != |K| && exists k, m :: k in P && k in K && m in P && m !in K && m < k
  {
  }

  /** One reconcile ends with exactly the live pids tracked iff they already were, or all of
      them were and every dead tracked pid lies below a live one. */
  lemma CaughtUpIff(P: set<int>, K: set<int>)
    ensures After(P, K) == P <==>
              P == K || (P < K && forall k :: k in K && k !in P ==> exists p :: p in P && k < p)
  {
    if P <= K {
      SubsetSize(P, K);
      if P != K {
        assert forall k :: k in K ==> (Survives(P, K, k) <==> k in P || forall p :: p in P ==> p < k);
        assert P <= After(P, K);
        if After(P, K) == P {
          forall k | k in K && k !in P ensures exists p :: p in P && k < p {
            assert !Survives(P, K, k);
          }
        }
      }
    } else {
      assert (forall u :: u in P ==> u in K) ==> P <= K;
      var u :| u in P && u !in K;
      assert u !in After(P, K);
    }
  }

  /** A reconcile changes nothing exactly when the sizes agree, or the tracked pids are the first
      of the live ones, or they are the live ones and dead ones above all of them. */
  lemma SettledIff(P: set<int>, K: set<int>)
    ensures After(P, K) == K <==>
              || |P| == |K|
              || (K <= P && forall k, p :: k in K && p in P && p < k ==> p in K)
              || (P <= K && forall k, p :: k in K && k !in P && p in P ==> p < k)
  {
    if |P| != |K| {
      assert After(P, K) == K <==> forall k :: k in K ==> Survives(P, K, k);
      if P <= K {
        SettledAbove(P, K);
      } else {
        assert (forall u :: u in P ==> u in K) ==> P <= K;
        var u :| u in P && u !in K;
        SettledBelow(P, K, u);
      }
    }
  }

  lemma SettledBelow(P: set<int>, K: set<int>, u: int)
    requires u in P && u !in K
    ensures (forall k :: k in K ==> Survives(P, K, k)) <==>
              K <= P && forall k, p :: k in K && p in P && p < k ==> p in K
  {
    if forall k :: k in K ==> Survives(P, K, k) {
      assert forall k :: k in K ==> k in P;
    }
  }

  lemma SettledAbove(P: set<int>, K: set<int>)
    requires P <= K
    ensures (forall k :: k in K ==> Survives(P, K, k)) <==> forall k, p :: k in K && k !in P && p in P ==> p < k
    ensures K <= P ==> |P| == |K|
  {
    if K <= P { assert K == P; }
  }

  /** A second reconcile with the same live pids changes nothing: what the first one left behind
      stays, and what it lost stays lost. */
  lemma AfterIsFinal(P: set<int>, K: set<int>)
    ensures After(P, After(P, K)) == After(P, K)
  {
    SettledIff(P, After(P, K));
    if |P| != |K| {
      if P <= K {
        assert forall p :: p in P ==> Survives(P, K, p);
        assert P <= After(P, K);
      } else {
        assert (forall u :: u in P ==> u in K) ==> P <= K;
        var u :| u in P && u !in K;
        assert forall k :: k in After(P, K) ==> k in P && k < u;
        forall k, p | k in After(P, K) && p in P && p < k ensures p in After(P, K) {
          assert p in K;
        }
      }
    }
  }

  /** Four live processes of which the third is new: the fourth loses its entry. */
  lemma LiveProcessLost()
    ensures 4 in {1, 2, 3, 4} && 4 in {1, 2, 4} && 4 !in After({1, 2, 3, 4}, {1, 2, 4})
  {
    assert !Survives({1, 2, 3, 4}, {1, 2, 4}, 4) by {
      assert 3 in {1, 2, 3, 4} && 3 !in {1, 2, 4};
    }
    assert |{1, 2, 3, 4}| == 4 && |{1, 2, 4}| == 3;
  }
}
