/**
  Unique game ids (source/process/process_watcher.cpp): ids clash when they are equal up to ASCII
  case, and the search for a free suffix ends because the candidates are pairwise distinct.
 */
module GameIds {
  import opened Text

  predicate Clashes(id: string, existing: seq<string>) { exists i | 0 <= i < |existing| :: SameUpToCase(existing[i], id) }

  function Candidate(base: string, suffix: nat): string { base + ("-" + Decimal(suffix)) }

  /** Reports the place of the first clash, or the number of ids when there is none. */
  method FindConflict(id: string, existing: seq<string>) returns (k: nat)
    ensures k <= |existing| && (k < |existing| <==> Clashes(id, existing))
    ensures k < |existing| ==> SameUpToCase(existing[k], id)
  {
    k := 0;
    while k < |existing|
      invariant 0 <= k <= |existing| && forall i | 0 <= i < k :: !SameUpToCase(existing[i], id)
    {
      var equal := SameUpToCaseLoop(existing[k], id);
      if equal { return; }
      k := k + 1;
    }
  }

  /** Different suffixes never give ids that are equal up to case. */
  lemma {:induction false} CandidatesDiffer(base: string, m: nat, n: nat)
    requires SameUpToCase(Candidate(base, m), Candidate(base, n))
    ensures m == n
  {
    var a, b := Candidate(base, m), Candidate(base, n);
    var at := |base| + 1;
    forall i | 0 <= i < |Decimal(m)| ensures Decimal(m)[i] == Decimal(n)[i] {
      assert a[at + i] == Decimal(m)[i] && b[at + i] == Decimal(n)[i];
      assert Lower(a[at + i]) == Lower(b[at + i]);
    }
    assert Decimal(m) == Decimal(n);
    DecimalInjective(m, n);
  }

  lemma {:induction false} SameTransitive(a: string, b: string, c: string)
    requires SameUpToCase(a, b) && SameUpToCase(a, c)
    ensures SameUpToCase(b, c)
  {
  }

  /** Distinct places below a bound are at most as many as the bound. */
  lemma {:induction false} Pigeonhole(places: seq<nat>, bound: nat)
    requires forall i | 0 <= i < |places| :: places[i] < bound
    requires forall i, j | 0 <= i < j < |places| :: places[i] != places[j]
    ensures |places| <= bound
    decreases bound
  {
    assert places != [] ==> places[0] < bound;
    if bound > 0 {
      if i: nat :| 0 <= i < |places| && places[i] == bound - 1 {
        var rest := places[..i] + places[i + 1..];
        forall k | 0 <= k < |rest| ensures rest[k] < bound - 1 {
          assert rest[k] == if k < i then places[k] else places[k + 1];
        }
        forall k, l | 0 <= k < l < |rest| ensures rest[k] != rest[l] {
          assert rest[k] == if k < i then places[k] else places[k + 1];
          assert rest[l] == if l < i then places[l] else places[l + 1];
        }
        Pigeonhole(rest, bound - 1);
      } else {
        Pigeonhole(places, bound - 1);
      }
    }
  }

  /**
    The base id if it is free, else the base id with the smallest free suffix from 2 on. At most as
    many suffixes are refused as there are ids, so the suffix stays within the range of an int.
   */
  method MakeUniqueGameId(base: string, existing: seq<string>) returns (id: string, ghost suffix: nat)
    requires |existing| < 0x7FFF_FFFF - 2
    ensures !Clashes(id, existing)
    ensures suffix == 0 ==> id == base
    ensures suffix != 0 ==> 2 <= suffix <= |existing| + 2 && id == base + ("-" + Decimal(suffix)) && Clashes(base, existing)
    ensures forall s | 2 <= s < suffix :: Clashes(Candidate(base, s), existing)
  {
    var k := FindConflict(base, existing);
    if k == |existing| { return base, 0; }
    var n := 2;
    ghost var places: seq<nat> := [];
    while true
      invariant 2 <= n && |places| == n - 2
      invariant forall i | 0 <= i < |places| :: places[i] < |existing| && SameUpToCase(existing[places[i]], Candidate(base, i + 2))
      invariant forall i, j | 0 <= i < j < |places| :: places[i] != places[j]
      invariant forall s | 2 <= s < n :: Clashes(Candidate(base, s), existing)
      decreases |existing| + 2 - n
    {
      Pigeonhole(places, |existing|);
      assert n < 0x7FFF_FFFF;
      var at := FindConflict(Candidate(base, n), existing);
      if at == |existing| { return Candidate(base, n), n; }
      forall i | 0 <= i < |places| ensures places[i] != at {
        if places[i] == at {
          SameTransitive(existing[at], Candidate(base, i + 2), Candidate(base, n));
          CandidatesDiffer(base, i + 2, n);
          assert false;
        }
      }
      ghost var more := places + [at];
      forall i | 0 <= i < |more| ensures more[i] < |existing| && SameUpToCase(existing[more[i]], Candidate(base, i + 2)) {
      }
      Pigeonhole(more, |existing|);
      places := more;
      n := n + 1;
    }
  }
}
