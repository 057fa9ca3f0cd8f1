/** When the least number of edits in the band is the least of all. */
module Shortest {
  import opened EditMatrix

  /** A path from (0, 0) to (i, j) through the whole matrix that keeps only equal entries. */
  predicate IsFreePath<T(==)>(a: seq<T>, b: seq<T>, i: int, j: int, path: seq<Move>)
    decreases |path|
  {
    0 <= i <= |a| && 0 <= j <= |b| &&
    if path == [] then i == 0 && j == 0
    else
      var before := path[..|path| - 1];
      match path[|path| - 1]
      case AddOne => IsFreePath(a, b, i, j - 1, before)
      case DropOne => IsFreePath(a, b, i - 1, j, before)
      case Keep => i > 0 && j > 0 && a[i - 1] == b[j - 1] && IsFreePath(a, b, i - 1, j - 1, before)
  }

  /** `edits` is the least number of add and delete steps over all paths between the whole arrays. */
  ghost predicate IsLeast<T>(a: seq<T>, b: seq<T>, edits: nat) {
    && (exists path :: IsFreePath(a, b, |a|, |b|, path) && Edits(path) == edits)
    && (forall path :: IsFreePath(a, b, |a|, |b|, path) ==> edits <= Edits(path))
  }

  /** The number of edits of the script for these arrays. */
  function ScriptEdits<T(==)>(a: seq<T>, b: seq<T>): nat
    requires |a| <= |b|
  {
    CellBounds(a, b, |a|, |b|);
    Cell(a, b, |a|, |b|) - 1
  }

  lemma {:induction false} BandIsFree<T>(a: seq<T>, b: seq<T>, i: int, j: int, path: seq<Move>)
    requires |a| <= |b| && IsPath(a, b, i, j, path)
    ensures IsFreePath(a, b, i, j, path)
    decreases |path|
  {
    if path != [] {
      var before := path[..|path| - 1];
      match path[|path| - 1]
      case AddOne => BandIsFree(a, b, i, j - 1, before);
      case DropOne => BandIsFree(a, b, i - 1, j, before);
      case Keep => BandIsFree(a, b, i - 1, j - 1, before);
    }
  }

  /** The script's edits are least as soon as no free path has fewer. */
  lemma LeastIfNoneFewer<T>(a: seq<T>, b: seq<T>)
    requires |a| <= |b|
    requires forall path :: IsFreePath(a, b, |a|, |b|, path) ==> ScriptEdits(a, b) <= Edits(path)
    ensures IsLeast(a, b, ScriptEdits(a, b))
  {
    WalkBackIsOptimal(a, b, |a|, |b|);
    BandIsFree(a, b, |a|, |b|, WalkBack(a, b, |a|, |b|));
  }

  // ----- All equal pairs in the band -----

  /** Position `p` of the small array and `q` of the big one can be kept by a path in the band. */
  predicate Keepable(sml: nat, big: nat, p: int, q: int)
    requires sml <= big
  {
    p - 1 <= q <= p + Range(sml, big)
  }

  ghost predicate EqualsAreKeepable<T>(a: seq<T>, b: seq<T>)
    requires |a| <= |b|
  {
    forall p, q :: 0 <= p < |a| && 0 <= q < |b| && a[p] == b[q] ==> Keepable(|a|, |b|, p, q)
  }

  /** A lower bound on the edits of any path to (i, j): outside the band, that of the nearest cell of the
      band plus the distance from it. */
  function Bound<T(==)>(a: seq<T>, b: seq<T>, i: int, j: int): int
    requires |a| <= |b| && 0 <= i <= |a| && 0 <= j <= |b|
  {
    var r := Range(|a|, |b|);
    if j > i + r then Cell(a, b, i, i + r) - 1 + (j - i - r)
    else if j < i - 1 then Cell(a, b, j + 1, j) - 1 + (i - j - 1)
    else Cell(a, b, i, j) - 1
  }

  /** The bound grows by at most one along a row and along a column. */
  lemma BoundAdds<T>(a: seq<T>, b: seq<T>, i: int, j: int)
    requires |a| <= |b| && 0 <= i <= |a| && 0 < j <= |b|
    ensures Bound(a, b, i, j) <= Bound(a, b, i, j - 1) + 1
  {
    hide Cell;
    if j < i {
      NeighboursDiffer(a, b, j, j);
      NeighboursDiffer(a, b, j + 1, j);
    } else if InBand(|a|, |b|, i, j) {
      NeighboursDiffer(a, b, i, j);
    }
  }

  lemma BoundDrops<T>(a: seq<T>, b: seq<T>, i: int, j: int)
    requires |a| <= |b| && 0 < i <= |a| && 0 <= j <= |b|
    ensures Bound(a, b, i, j) <= Bound(a, b, i - 1, j) + 1
  {
    hide Cell;
    var r := Range(|a|, |b|);
    if j >= i + r {
      NeighboursDiffer(a, b, i, i - 1 + r);
      NeighboursDiffer(a, b, i, i + r);
    } else if InBand(|a|, |b|, i, j) {
      NeighboursDiffer(a, b, i, j);
    }
  }

  lemma {:induction false} FreePathBound<T>(a: seq<T>, b: seq<T>, i: int, j: int, path: seq<Move>)
    requires |a| <= |b| && EqualsAreKeepable(a, b) && IsFreePath(a, b, i, j, path)
    ensures Bound(a, b, i, j) <= Edits(path)
    decreases |path|
  {
    hide Bound;
    if path == [] {
      StartsAtZero(a, b);
    } else {
      var before := path[..|path| - 1];
      match path[|path| - 1]
      case AddOne =>
        FreePathBound(a, b, i, j - 1, before);
        BoundAdds(a, b, i, j);
      case DropOne =>
        FreePathBound(a, b, i - 1, j, before);
        BoundDrops(a, b, i, j);
      case Keep =>
        FreePathBound(a, b, i - 1, j - 1, before);
        BoundKeeps(a, b, i, j);
    }
  }

  lemma StartsAtZero<T>(a: seq<T>, b: seq<T>)
    requires |a| <= |b|
    ensures Bound(a, b, 0, 0) == 0
  {
  }

  lemma BoundKeeps<T>(a: seq<T>, b: seq<T>, i: int, j: int)
    requires |a| <= |b| && EqualsAreKeepable(a, b) && 0 < i <= |a| && 0 < j <= |b| && a[i - 1] == b[j - 1]
    ensures Bound(a, b, i, j) == Bound(a, b, i - 1, j - 1)
  {
    assert Keepable(|a|, |b|, i - 1, j - 1);
  }

  /** When all equal entries can be kept in the band, the script is the shortest of all. */
  lemma KeepableIsShortest<T>(a: seq<T>, b: seq<T>)
    requires |a| <= |b| && EqualsAreKeepable(a, b)
    ensures IsLeast(a, b, ScriptEdits(a, b))
  {
    forall path | IsFreePath(a, b, |a|, |b|, path)
      ensures ScriptEdits(a, b) <= Edits(path)
    {
      FreePathBound(a, b, |a|, |b|, path);
    }
    LeastIfNoneFewer(a, b);
  }

  // ----- Few edits -----

  /** The fewest edits of a path between the whole arrays that leaves the band. */
  function OutsideCost(sml: nat, big: nat): nat
    requires sml <= big
  {
    if sml == big then 4 else big - sml + 2
  }

  function Abs(x: int): nat {
    if x < 0 then -x else x
  }

  lemma {:induction false} EditsReach<T>(a: seq<T>, b: seq<T>, i: int, j: int, path: seq<Move>)
    requires IsFreePath(a, b, i, j, path)
    ensures Abs(j - i) <= Edits(path)
    decreases |path|
  {
    if path != [] {
      var before := path[..|path| - 1];
      match path[|path| - 1]
      case AddOne => EditsReach(a, b, i, j - 1, before);
      case DropOne => EditsReach(a, b, i - 1, j, before);
      case Keep => EditsReach(a, b, i - 1, j - 1, before);
    }
  }

  /** A path that has been outside the band needs that many edits to come back to the far corner. */
  lemma {:induction false} LeavingCosts<T>(a: seq<T>, b: seq<T>, i: int, j: int, path: seq<Move>)
    requires |a| <= |b| && IsFreePath(a, b, i, j, path) && !IsPath(a, b, i, j, path)
    ensures Edits(path) + Abs((|b| - |a|) - (j - i)) >= OutsideCost(|a|, |b|)
    decreases |path|
  {
    if !InBand(|a|, |b|, i, j) {
      EditsReach(a, b, i, j, path);
    } else {
      assert path != [];
      var before := path[..|path| - 1];
      match path[|path| - 1]
      case AddOne => LeavingCosts(a, b, i, j - 1, before);
      case DropOne => LeavingCosts(a, b, i - 1, j, before);
      case Keep => LeavingCosts(a, b, i - 1, j - 1, before);
    }
  }

  /** A script with no more edits than it takes to leave the band is the shortest of all. */
  lemma FewEditsAreShortest<T>(a: seq<T>, b: seq<T>)
    requires |a| <= |b| && ScriptEdits(a, b) <= OutsideCost(|a|, |b|)
    ensures IsLeast(a, b, ScriptEdits(a, b))
  {
    forall path | IsFreePath(a, b, |a|, |b|, path)
      ensures ScriptEdits(a, b) <= Edits(path)
    {
      if IsPath(a, b, |a|, |b|, path) {
        NoPathIsShorter(a, b, |a|, |b|, path);
      } else {
        LeavingCosts(a, b, |a|, |b|, path);
      }
    }
    LeastIfNoneFewer(a, b);
  }

  // ----- Where the script is not the shortest -----

  ghost predicate NoneKeepable<T>(a: seq<T>, b: seq<T>)
    requires |a| <= |b|
  {
    forall p, q :: 0 <= p < |a| && 0 <= q < |b| && Keepable(|a|, |b|, p, q) ==> a[p] != b[q]
  }

  /** Without equal entries in the band everything is deleted and added again. */
  lemma {:induction false} NoneKeepableCell<T>(a: seq<T>, b: seq<T>, i: int, j: int)
    requires |a| <= |b| && NoneKeepable(a, b) && InBand(|a|, |b|, i, j)
    ensures Cell(a, b, i, j) == i + j + 1
    decreases i + j
  {
    if i > 0 && j > 0 {
      assert Keepable(|a|, |b|, i - 1, j - 1);
      if InBand(|a|, |b|, i - 1, j) {
        NoneKeepableCell(a, b, i - 1, j);
      }
      if InBand(|a|, |b|, i, j - 1) {
        NoneKeepableCell(a, b, i, j - 1);
      }
    }
  }

  /** A path goes on to (i, j) by dropping and then adding what is left. */
  lemma {:induction false} GoesOn<T>(a: seq<T>, b: seq<T>, i0: int, j0: int, path: seq<Move>, i: int, j: int)
    returns (longer: seq<Move>)
    requires IsFreePath(a, b, i0, j0, path) && i0 <= i <= |a| && j0 <= j <= |b|
    ensures IsFreePath(a, b, i, j, longer) && Edits(longer) == Edits(path) + (i - i0) + (j - j0)
    decreases i - i0 + j - j0
  {
    if j > j0 {
      longer := GoesOn(a, b, i0, j0, path, i, j - 1);
      longer := longer + [AddOne];
      assert longer[..|longer| - 1] + [AddOne] == longer;
    } else if i > i0 {
      longer := GoesOn(a, b, i0, j0, path, i - 1, j);
      longer := longer + [DropOne];
      assert longer[..|longer| - 1] + [DropOne] == longer;
    } else {
      longer := path;
    }
  }

  /** One equal pair saves two edits. */
  lemma PairSaves<T>(a: seq<T>, b: seq<T>, p: nat, q: nat) returns (path: seq<Move>)
    requires p < |a| && q < |b| && a[p] == b[q]
    ensures IsFreePath(a, b, |a|, |b|, path) && Edits(path) == |a| + |b| - 2
  {
    var there := GoesOn(a, b, 0, 0, [], p, q);
    var kept := there + [Keep];
    assert kept[..|kept| - 1] == there;
    path := GoesOn(a, b, p + 1, q + 1, kept, |a|, |b|);
  }

  /** Without equal entries in the band, the script is the shortest exactly if there are no equal entries. */
  lemma NoneKeepableIff<T>(a: seq<T>, b: seq<T>)
    requires |a| <= |b| && NoneKeepable(a, b)
    ensures ScriptEdits(a, b) == |a| + |b|
    ensures IsLeast(a, b, ScriptEdits(a, b)) <==> EqualsAreKeepable(a, b)
  {
    NoneKeepableCell(a, b, |a|, |b|);
    if EqualsAreKeepable(a, b) {
      KeepableIsShortest(a, b);
    } else {
      var p, q :| 0 <= p < |a| && 0 <= q < |b| && a[p] == b[q] && !Keepable(|a|, |b|, p, q);
      var path := PairSaves(a, b, p, q);
    }
  }

  /** Arrays of these lengths whose only equal pair lies just right of the band. */
  function JustOutside(sml: nat, big: nat): (r: (seq<int>, seq<int>))
    requires sml <= big
    ensures |r.0| == sml && |r.1| == big
  {
    (seq(sml, p => p), seq(big, q => if q == Range(sml, big) + 1 then 0 else -1))
  }

  /** For which lengths the script is always the shortest. */
  predicate AlwaysShortest(sml: nat, big: nat) {
    sml <= 1 || (sml == 2 && big == 2)
  }

  /** By the lengths alone: the script is the shortest for all arrays of these lengths, if and only if the
      smaller has at most one entry or both have two. */
  lemma LengthsIff(sml: nat, big: nat)
    requires sml <= big
    ensures AlwaysShortest(sml, big) <==>
            forall a: seq<int>, b: seq<int> :: |a| == sml && |b| == big ==> IsLeast(a, b, ScriptEdits(a, b))
  {
    if AlwaysShortest(sml, big) {
      forall a: seq<int>, b: seq<int> | |a| == sml && |b| == big
        ensures IsLeast(a, b, ScriptEdits(a, b))
      {
        KeepableIsShortest(a, b);
      }
    } else {
      var (a, b) := JustOutside(sml, big);
      assert a[0] == b[Range(sml, big) + 1] && !Keepable(sml, big, 0, Range(sml, big) + 1);
      NoneKeepableIff(a, b);
    }
  }

  /** [1, 2, 3, 4] against [3, 4, 5, 6]: eight edits, where four would do. */
  lemma ShorterOutsideBand()
    ensures var a, b := [1, 2, 3, 4], [3, 4, 5, 6];
            var path := [DropOne, DropOne, Keep, Keep, AddOne, AddOne];
            ScriptEdits(a, b) == 8 && IsFreePath(a, b, 4, 4, path) && Edits(path) == 4
  {
    var a, b := [1, 2, 3, 4], [3, 4, 5, 6];
    NoneKeepableCell(a, b, 4, 4);
    var p1, p2, p3 := [DropOne], [DropOne, DropOne], [DropOne, DropOne, Keep];
    var p4, p5 := p3 + [Keep], p3 + [Keep, AddOne];
    var path := [DropOne, DropOne, Keep, Keep, AddOne, AddOne];
    assert p1[..0] == [] && p2[..1] == p1 && p3[..2] == p2 && p4[..3] == p3 && p5[..4] == p4 && path[..5] == p5;
    assert IsFreePath(a, b, 2, 0, p2) && Edits(p2) == 2;
    assert IsFreePath(a, b, 4, 2, p4) && Edits(p4) == 2;
  }
}
