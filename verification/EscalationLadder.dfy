/** Escalation ladders: what a tenant may configure, and which rungs a waiting order is due. */
module EscalationLadder {
  import opened Outcomes

  datatype Target = KITCHEN | BRANCH_MANAGER | OWNER

  /** A rung as it stands in the settings, where a number need not be a whole one. */
  datatype RawRung = RawRung(level: real, afterSeconds: real, target: Target)

  datatype Rung = Rung(level: nat, afterSeconds: nat, target: Target)

  const DEFAULT_LADDER: seq<Rung> := [Rung(1, 60, KITCHEN), Rung(2, 180, BRANCH_MANAGER), Rung(3, 300, OWNER)]

  datatype LadderError = NoRungs | BadLevel | LevelTwice | BadDelay | DelayTwice

  predicate IsPositiveInteger(x: real) {
    x == x.Floor as real && x >= 1.0
  }

  function Raw(rung: Rung): RawRung {
    RawRung(rung.level as real, rung.afterSeconds as real, rung.target)
  }

  function RawAll(ladder: seq<Rung>): (r: seq<RawRung>)
    ensures |r| == |ladder|
    ensures forall i :: 0 <= i < |r| ==> r[i] == Raw(ladder[i])
  {
    seq(|ladder|, i requires 0 <= i < |ladder| => Raw(ladder[i]))
  }

  /** Climbed in order: kitchen before owner, and no level twice. */
  predicate WellFormed(ladder: seq<Rung>) {
    && ladder != []
    && (forall i :: 0 <= i < |ladder| ==> ladder[i].level >= 1 && ladder[i].afterSeconds >= 1)
    && (forall i, j :: 0 <= i < j < |ladder| ==> ladder[i].afterSeconds < ladder[j].afterSeconds)
    && (forall i, j :: 0 <= i < j < |ladder| ==> ladder[i].level != ladder[j].level)
  }

  // -- Sorting ---------------------------------------------------------------------

  predicate SortedByDelay(rungs: seq<RawRung>) {
    forall i, j :: 0 <= i < j < |rungs| ==> rungs[i].afterSeconds <= rungs[j].afterSeconds
  }

  function Insert(rung: RawRung, rungs: seq<RawRung>): seq<RawRung> {
    if rungs == [] || rung.afterSeconds <= rungs[0].afterSeconds then [rung] + rungs
    else [rungs[0]] + Insert(rung, rungs[1..])
  }

  /** Stable: a rung goes in front of the later ones that fire with it. */
  function Sorted(rungs: seq<RawRung>): seq<RawRung> {
    if rungs == [] then [] else Insert(rungs[0], Sorted(rungs[1..]))
  }

  lemma {:induction false} InsertAdds(rung: RawRung, rungs: seq<RawRung>)
    ensures multiset(Insert(rung, rungs)) == multiset{rung} + multiset(rungs)
  {
    if rungs != [] && rung.afterSeconds > rungs[0].afterSeconds {
      InsertAdds(rung, rungs[1..]);
      assert rungs == [rungs[0]] + rungs[1..];
    }
  }

  lemma InsertBelow(rung: RawRung, rungs: seq<RawRung>, delay: real)
    requires delay <= rung.afterSeconds && forall i :: 0 <= i < |rungs| ==> delay <= rungs[i].afterSeconds
    ensures forall i :: 0 <= i < |Insert(rung, rungs)| ==> delay <= Insert(rung, rungs)[i].afterSeconds
  {
    hide Insert;
    InsertAdds(rung, rungs);
    forall i | 0 <= i < |Insert(rung, rungs)|
      ensures delay <= Insert(rung, rungs)[i].afterSeconds
    {
      assert Insert(rung, rungs)[i] in multiset(Insert(rung, rungs));
    }
  }

  lemma {:induction false} InsertSorts(rung: RawRung, rungs: seq<RawRung>)
    requires SortedByDelay(rungs)
    ensures SortedByDelay(Insert(rung, rungs))
  {
    if rungs != [] && rung.afterSeconds > rungs[0].afterSeconds {
      InsertSorts(rung, rungs[1..]);
      InsertBelow(rung, rungs[1..], rungs[0].afterSeconds);
    }
  }

  lemma {:induction false} SortedIsSorted(rungs: seq<RawRung>)
    ensures SortedByDelay(Sorted(rungs)) && multiset(Sorted(rungs)) == multiset(rungs)
  {
    if rungs != [] {
      SortedIsSorted(rungs[1..]);
      InsertAdds(rungs[0], Sorted(rungs[1..]));
      InsertSorts(rungs[0], Sorted(rungs[1..]));
      assert rungs == [rungs[0]] + rungs[1..];
    }
  }

  // -- Normalisation ---------------------------------------------------------------

  predicate DistinctLevels(rungs: seq<RawRung>) {
    forall i, j :: 0 <= i < j < |rungs| ==> rungs[i].level != rungs[j].level
  }

  predicate DistinctDelays(rungs: seq<RawRung>) {
    forall i, j :: 0 <= i < j < |rungs| ==> rungs[i].afterSeconds != rungs[j].afterSeconds
  }

  predicate WholeNumbers(rungs: seq<RawRung>) {
    forall i :: 0 <= i < |rungs| ==> IsPositiveInteger(rungs[i].level) && IsPositiveInteger(rungs[i].afterSeconds)
  }

  predicate Acceptable(rungs: seq<RawRung>) {
    rungs != [] && WholeNumbers(rungs) && DistinctLevels(rungs) && DistinctDelays(rungs)
  }

  /** What a sequence has in it twice, its multiset has twice. */
  lemma TwiceIsTwice(rungs: seq<RawRung>, i: nat, j: nat)
    requires i < j < |rungs| && rungs[i] == rungs[j]
    ensures multiset(rungs)[rungs[i]] >= 2
  {
    assert rungs == rungs[..i] + [rungs[i]] + rungs[i + 1..j] + [rungs[j]] + rungs[j + 1..];
  }

  lemma {:induction false} FoundTwice(rungs: seq<RawRung>, rung: RawRung)
    requires multiset(rungs)[rung] >= 2
    ensures exists i, j :: 0 <= i < j < |rungs| && rungs[i] == rungs[j] == rung
  {
    assert rungs == [rungs[0]] + rungs[1..];
    if rungs[0] == rung {
      assert rung in multiset(rungs[1..]);
      var j :| 0 <= j < |rungs[1..]| && rungs[1..][j] == rung;
      assert rungs[j + 1] == rung;
    } else {
      FoundTwice(rungs[1..], rung);
      var i, j :| 0 <= i < j < |rungs[1..]| && rungs[1..][i] == rungs[1..][j] == rung;
      assert rungs[i + 1] == rungs[j + 1] == rung;
    }
  }

  /** Whether a ladder is acceptable does not depend on the order it is written in. */
  lemma OrderDoesNotMatter(a: seq<RawRung>, b: seq<RawRung>)
    requires multiset(a) == multiset(b) && Acceptable(a)
    ensures Acceptable(b)
  {
    assert forall x :: x in b ==> x in multiset(b);
    assert forall x :: x in a <==> x in multiset(a);
    assert |b| == |multiset(b)| == |multiset(a)| == |a|;
    forall i, j | 0 <= i < j < |b|
      ensures b[i].level != b[j].level && b[i].afterSeconds != b[j].afterSeconds
    {
      assert b[i] in a && b[j] in a;
      var p :| 0 <= p < |a| && a[p] == b[i];
      var q :| 0 <= q < |a| && a[q] == b[j];
      if p == q {
        TwiceIsTwice(b, i, j);
        FoundTwice(a, b[i]);
        assert false;
      }
    }
    forall i | 0 <= i < |b|
      ensures IsPositiveInteger(b[i].level) && IsPositiveInteger(b[i].afterSeconds)
    {
      assert b[i] in a;
    }
  }

  lemma SortingDecidesTheSame(rungs: seq<RawRung>)
    ensures SortedByDelay(Sorted(rungs)) && multiset(Sorted(rungs)) == multiset(rungs)
    ensures |Sorted(rungs)| == |rungs| && (Acceptable(rungs) <==> Acceptable(Sorted(rungs)))
  {
    hide Acceptable, SortedByDelay, Sorted;
    var sorted := Sorted(rungs);
    SortedIsSorted(rungs);
    assert |sorted| == |multiset(sorted)| == |rungs|;
    if Acceptable(rungs) { OrderDoesNotMatter(rungs, sorted); }
    if Acceptable(sorted) { OrderDoesNotMatter(sorted, rungs); }
  }

  /** The first rungs of a sorted ladder, found good and turned into whole numbers. */
  predicate GoodSoFar(sorted: seq<RawRung>, ladder: seq<Rung>) {
    && |ladder| <= |sorted| && (forall k :: 0 <= k < |ladder| ==> Raw(ladder[k]) == sorted[k])
    && (ladder == [] || WellFormed(ladder))
  }

  lemma NextIsGood(sorted: seq<RawRung>, ladder: seq<Rung>)
    requires GoodSoFar(sorted, ladder) && |ladder| < |sorted| && SortedByDelay(sorted)
    requires var rung := sorted[|ladder|];
      && IsPositiveInteger(rung.level) && IsPositiveInteger(rung.afterSeconds)
      && (forall k :: 0 <= k < |ladder| ==> sorted[k].level != rung.level)
      && (ladder != [] ==> sorted[|ladder| - 1].afterSeconds != rung.afterSeconds)
    ensures var rung := sorted[|ladder|];
      GoodSoFar(sorted, ladder + [Rung(rung.level.Floor, rung.afterSeconds.Floor, rung.target)])
  {
    var rung := sorted[|ladder|];
    var next := Rung(rung.level.Floor, rung.afterSeconds.Floor, rung.target);
    var after := ladder + [next];
    assert Raw(next) == rung;
    forall k | 0 <= k < |ladder|
      ensures ladder[k].afterSeconds < next.afterSeconds && ladder[k].level != next.level
    {
      assert Raw(ladder[k]) == sorted[k] && Raw(ladder[|ladder| - 1]) == sorted[|ladder| - 1];
      assert sorted[k].afterSeconds <= sorted[|ladder| - 1].afterSeconds < rung.afterSeconds;
    }
  }

  /**
   * Accepts exactly the non-empty ladders whose levels and delays are positive
   * whole numbers, each different, and returns them in climbing order.
   */
  method NormalizeLadder(rungs: seq<RawRung>) returns (r: Result<seq<Rung>, LadderError>)
    ensures r.Ok? <==> Acceptable(rungs)
    ensures r.Ok? ==> WellFormed(r.value) && multiset(RawAll(r.value)) == multiset(rungs)
  {
    hide Acceptable, SortedByDelay, Sorted, IsPositiveInteger, WellFormed, GoodSoFar;
    if rungs == [] { EmptyIsNot(); return Err(NoRungs); }
    var sorted := Sorted(rungs);
    SortingDecidesTheSame(rungs);
    var levels: set<real> := {};
    var previousDelay := -1.0;
    var ladder: seq<Rung> := [];
    NothingYet(sorted);
    for i := 0 to |sorted|
      invariant levels == set k | 0 <= k < i :: sorted[k].level
      invariant previousDelay == if i == 0 then -1.0 else sorted[i - 1].afterSeconds
      invariant |ladder| == i && GoodSoFar(sorted, ladder)
    {
      var rung := sorted[i];
      if !IsPositiveInteger(rung.level) {
        NotAcceptable(sorted, i, i);
        return Err(BadLevel);
      }
      if rung.level in levels {
        ghost var k :| 0 <= k < i && sorted[k].level == rung.level;
        NotAcceptable(sorted, k, i);
        return Err(LevelTwice);
      }
      levels := levels + {rung.level};
      if !IsPositiveInteger(rung.afterSeconds) {
        NotAcceptable(sorted, i, i);
        return Err(BadDelay);
      }
      if rung.afterSeconds == previousDelay {
        if i == 0 { PositiveIsNotMinusOne(rung.afterSeconds); }
        NotAcceptable(sorted, i - 1, i);
        return Err(DelayTwice);
      }
      previousDelay := rung.afterSeconds;
      NextIsGood(sorted, ladder);
      PositiveIsNat(rung);
      ladder := ladder + [Rung(rung.level.Floor, rung.afterSeconds.Floor, rung.target)];
    }
    LadderIsAcceptable(sorted, ladder);
    return Ok(ladder);
  }

  lemma EmptyIsNot()
    ensures !Acceptable([])
  {
  }

  lemma NothingYet(sorted: seq<RawRung>)
    ensures GoodSoFar(sorted, [])
  {
  }

  lemma PositiveIsNotMinusOne(x: real)
    requires IsPositiveInteger(x)
    ensures x != -1.0
  {
  }

  lemma PositiveIsNat(rung: RawRung)
    requires IsPositiveInteger(rung.level) && IsPositiveInteger(rung.afterSeconds)
    ensures rung.level.Floor >= 1 && rung.afterSeconds.Floor >= 1
  {
  }

  lemma NotAcceptable(rungs: seq<RawRung>, i: nat, j: nat)
    requires i <= j < |rungs|
    requires i == j ==> !IsPositiveInteger(rungs[i].level) || !IsPositiveInteger(rungs[i].afterSeconds)
    requires i < j ==> rungs[i].level == rungs[j].level || rungs[i].afterSeconds == rungs[j].afterSeconds
    ensures !Acceptable(rungs)
  {
  }

  lemma LadderIsAcceptable(sorted: seq<RawRung>, ladder: seq<Rung>)
    requires GoodSoFar(sorted, ladder) && |ladder| == |sorted| && sorted != []
    ensures WellFormed(ladder) && RawAll(ladder) == sorted && Acceptable(sorted)
  {
    assert RawAll(ladder) == sorted;
    assert forall i :: 0 <= i < |sorted| ==> sorted[i] == Raw(ladder[i]);
  }

  /** The tenant's ladder, or the default: escalation is never switched off by a bad setting. */
  method LadderFor(rungs: seq<RawRung>) returns (ladder: seq<Rung>)
    ensures WellFormed(ladder)
    ensures if Acceptable(rungs) then multiset(RawAll(ladder)) == multiset(rungs) else ladder == DEFAULT_LADDER
  {
    if rungs == [] { return DEFAULT_LADDER; }
    var normalized := NormalizeLadder(rungs);
    match normalized {
      case Ok(value) => return value;
      case Err(_) => return DEFAULT_LADDER;
    }
  }

  // -- Due rungs --------------------------------------------------------------------

  /** Every rung whose delay has passed and whose level has not fired, in ladder order. */
  function DueEscalations(elapsed: int, ladder: seq<Rung>, fired: set<nat>): seq<Rung> {
    if ladder == [] then []
    else
      (if elapsed >= ladder[0].afterSeconds && ladder[0].level !in fired then [ladder[0]] else [])
      + DueEscalations(elapsed, ladder[1..], fired)
  }

  lemma {:induction false} DueIff(elapsed: int, ladder: seq<Rung>, fired: set<nat>, rung: Rung)
    ensures rung in DueEscalations(elapsed, ladder, fired)
      <==> rung in ladder && elapsed >= rung.afterSeconds && rung.level !in fired
  {
    if ladder != [] {
      DueIff(elapsed, ladder[1..], fired, rung);
      assert ladder == [ladder[0]] + ladder[1..];
    }
  }

  predicate Climbing(rungs: seq<Rung>) {
    forall i, j :: 0 <= i < j < |rungs| ==> rungs[i].afterSeconds < rungs[j].afterSeconds
  }

  lemma {:induction false} DueClimbs(elapsed: int, ladder: seq<Rung>, fired: set<nat>)
    requires Climbing(ladder)
    ensures Climbing(DueEscalations(elapsed, ladder, fired))
  {
    if ladder != [] {
      DueClimbs(elapsed, ladder[1..], fired);
      var rest := DueEscalations(elapsed, ladder[1..], fired);
      forall rung | rung in rest
        ensures rung in ladder[1..]
      {
        DueIff(elapsed, ladder[1..], fired, rung);
      }
      assert forall i :: 0 <= i < |rest| ==> rest[i] in rest;
    }
  }
}
