/** The edit-distance matrix of the array comparison: rows for the small array, columns for the big one,
    filled only in a band around the diagonal, with every value shifted up by one. */
module EditMatrix {
  /** A JavaScript array with holes: an index that is no key reads as undefined. */
  type Row = map<int, int>

  /** How far right of the diagonal the band reaches. */
  function Range(sml: nat, big: nat): (r: nat)
    requires sml <= big
    ensures r > 0
  {
    if big == sml then 1 else big - sml
  }

  predicate InBand(sml: nat, big: nat, i: int, j: int)
    requires sml <= big
  {
    0 <= i <= sml && 0 <= j <= big && i - 1 <= j <= i + Range(sml, big)
  }

  /** A cell's value, by the rules the loop fills it with. */
  function Cell<T(==)>(a: seq<T>, b: seq<T>, i: int, j: int): int
    requires |a| <= |b| && InBand(|a|, |b|, i, j)
    decreases i + j
  {
    if j == 0 then i + 1
    else if i == 0 then j + 1
    else if a[i - 1] == b[j - 1] then Cell(a, b, i - 1, j - 1)
    else
      var north := if InBand(|a|, |b|, i - 1, j) then Cell(a, b, i - 1, j) else |a| + |b| + 1;
      var west := if InBand(|a|, |b|, i, j - 1) then Cell(a, b, i, j - 1) else |a| + |b| + 1;
      (if north <= west then north else west) + 1
  }

  /** Values are small enough that the distance standing in for an undefined neighbour never wins. */
  lemma {:induction false} CellBounds<T>(a: seq<T>, b: seq<T>, i: int, j: int)
    requires |a| <= |b| && InBand(|a|, |b|, i, j)
    ensures 1 <= Cell(a, b, i, j) <= i + j + 1
    decreases i + j
  {
    if i > 0 && j > 0 {
      CellBounds(a, b, i - 1, j - 1);
      if InBand(|a|, |b|, i - 1, j) {
        CellBounds(a, b, i - 1, j);
      }
      if InBand(|a|, |b|, i, j - 1) {
        CellBounds(a, b, i, j - 1);
      }
    }
  }

  /** Neighbouring cells of the band differ by exactly one. */
  predicate Near(x: int, y: int) {
    x == y + 1 || y == x + 1
  }

  lemma {:induction false} NeighboursDiffer<T>(a: seq<T>, b: seq<T>, i: int, j: int)
    requires |a| <= |b| && InBand(|a|, |b|, i, j)
    ensures InBand(|a|, |b|, i, j - 1) ==> Near(Cell(a, b, i, j), Cell(a, b, i, j - 1))
    ensures InBand(|a|, |b|, i - 1, j) ==> Near(Cell(a, b, i, j), Cell(a, b, i - 1, j))
    decreases i + j
  {
    if i > 0 && j > 0 {
      CellBounds(a, b, i, j);
      if InBand(|a|, |b|, i, j - 1) {
        NeighboursDiffer(a, b, i, j - 1);
        CellBounds(a, b, i, j - 1);
      }
      if InBand(|a|, |b|, i - 1, j) {
        NeighboursDiffer(a, b, i - 1, j);
        CellBounds(a, b, i - 1, j);
      }
    }
  }

  // ----- Paths -----

  /** One step away from the corner: an entry of the big array only, of the small one only, or of both. */
  datatype Move = AddOne | DropOne | Keep

  /** A path from (0, 0) to (i, j) that never leaves the band and keeps only equal entries. */
  predicate IsPath<T(==)>(a: seq<T>, b: seq<T>, i: int, j: int, path: seq<Move>)
    requires |a| <= |b|
    decreases |path|
  {
    InBand(|a|, |b|, i, j) &&
    if path == [] then i == 0 && j == 0
    else
      var before := path[..|path| - 1];
      match path[|path| - 1]
      case AddOne => IsPath(a, b, i, j - 1, before)
      case DropOne => IsPath(a, b, i - 1, j, before)
      case Keep => i > 0 && j > 0 && a[i - 1] == b[j - 1] && IsPath(a, b, i - 1, j - 1, before)
  }

  /** The number of add and delete steps. */
  function Edits(path: seq<Move>): nat
    decreases |path|
  {
    if path == [] then 0
    else Edits(path[..|path| - 1]) + (if path[|path| - 1] == Keep then 0 else 1)
  }

  /** No path in the band has fewer edits than its end cell says, so copying the diagonal loses nothing. */
  lemma {:induction false} NoPathIsShorter<T>(a: seq<T>, b: seq<T>, i: int, j: int, path: seq<Move>)
    requires |a| <= |b| && IsPath(a, b, i, j, path)
    ensures Cell(a, b, i, j) - 1 <= Edits(path)
    decreases |path|
  {
    if path != [] {
      var before := path[..|path| - 1];
      match path[|path| - 1]
      case AddOne =>
        NoPathIsShorter(a, b, i, j - 1, before);
        NeighboursDiffer(a, b, i, j);
      case DropOne =>
        NoPathIsShorter(a, b, i - 1, j, before);
        NeighboursDiffer(a, b, i, j);
      case Keep =>
        NoPathIsShorter(a, b, i - 1, j - 1, before);
    }
  }

  // ----- Walking back -----

  /** The step the walk back from (i, j) takes. */
  function StepBack<T(==)>(a: seq<T>, b: seq<T>, i: int, j: int): (m: Move)
    requires |a| <= |b| && InBand(|a|, |b|, i, j) && (i > 0 || j > 0)
  {
    if j > 0 && InBand(|a|, |b|, i, j - 1) && Cell(a, b, i, j) - 1 == Cell(a, b, i, j - 1) then AddOne
    else if i > 0 && InBand(|a|, |b|, i - 1, j) && Cell(a, b, i, j) - 1 == Cell(a, b, i - 1, j) then DropOne
    else Keep
  }

  /** When neither edit explains a cell, its entries are equal and it was copied from the diagonal. */
  lemma StepBackKeeps<T>(a: seq<T>, b: seq<T>, i: int, j: int)
    requires |a| <= |b| && InBand(|a|, |b|, i, j) && (i > 0 || j > 0)
    ensures StepBack(a, b, i, j).AddOne? ==> InBand(|a|, |b|, i, j - 1)
    ensures StepBack(a, b, i, j).DropOne? ==> InBand(|a|, |b|, i - 1, j)
    ensures StepBack(a, b, i, j).Keep? ==>
              && i > 0 && j > 0 && a[i - 1] == b[j - 1] && InBand(|a|, |b|, i - 1, j - 1)
              && Cell(a, b, i, j) == Cell(a, b, i - 1, j - 1)
  {
    if i > 0 && j > 0 {
      if InBand(|a|, |b|, i - 1, j) {
        CellBounds(a, b, i - 1, j);
      }
      if InBand(|a|, |b|, i, j - 1) {
        CellBounds(a, b, i, j - 1);
      }
    }
  }

  /** The cell the walk moves to, against the one it leaves. */
  lemma StepCosts<T>(a: seq<T>, b: seq<T>, i: int, j: int)
    requires |a| <= |b| && InBand(|a|, |b|, i, j) && (i > 0 || j > 0)
    ensures match StepBack(a, b, i, j)
            case AddOne => j > 0 && InBand(|a|, |b|, i, j - 1) && Cell(a, b, i, j) == Cell(a, b, i, j - 1) + 1
            case DropOne => i > 0 && InBand(|a|, |b|, i - 1, j) && Cell(a, b, i, j) == Cell(a, b, i - 1, j) + 1
            case Keep =>
              i > 0 && j > 0 && InBand(|a|, |b|, i - 1, j - 1) && Cell(a, b, i, j) == Cell(a, b, i - 1, j - 1)
  {
    StepBackKeeps(a, b, i, j);
  }

  /** The path the walk back from (i, j) spells, from the corner on. */
  function WalkBack<T(==)>(a: seq<T>, b: seq<T>, i: int, j: int): (path: seq<Move>)
    requires |a| <= |b| && InBand(|a|, |b|, i, j)
    decreases i + j
  {
    if i == 0 && j == 0 then []
    else
      StepBackKeeps(a, b, i, j);
      match StepBack(a, b, i, j)
      case AddOne => WalkBack(a, b, i, j - 1) + [AddOne]
      case DropOne => WalkBack(a, b, i - 1, j) + [DropOne]
      case Keep => WalkBack(a, b, i - 1, j - 1) + [Keep]
  }

  /** The walk back is a path in the band, and its number of edits is exactly what the cell says. */
  lemma {:induction false} WalkBackIsOptimal<T>(a: seq<T>, b: seq<T>, i: int, j: int)
    requires |a| <= |b| && InBand(|a|, |b|, i, j)
    ensures IsPath(a, b, i, j, WalkBack(a, b, i, j))
    ensures Edits(WalkBack(a, b, i, j)) == Cell(a, b, i, j) - 1
    decreases i + j
  {
    hide Cell, IsPath, Edits, StepBack;
    if i > 0 || j > 0 {
      StepBackKeeps(a, b, i, j);
      StepCosts(a, b, i, j);
      match StepBack(a, b, i, j)
      case AddOne =>
        WalkBackIsOptimal(a, b, i, j - 1);
        PathGrows(a, b, i, j, WalkBack(a, b, i, j - 1), AddOne);
      case DropOne =>
        WalkBackIsOptimal(a, b, i - 1, j);
        PathGrows(a, b, i, j, WalkBack(a, b, i - 1, j), DropOne);
      case Keep =>
        WalkBackIsOptimal(a, b, i - 1, j - 1);
        PathGrows(a, b, i, j, WalkBack(a, b, i - 1, j - 1), Keep);
    } else {
      EmptyPath(a, b);
    }
  }

  /** The cell to the left explains the cell by an addition. */
  predicate AdditionExplains<T(==)>(a: seq<T>, b: seq<T>, i: int, j: int)
    requires |a| <= |b| && InBand(|a|, |b|, i, j)
  {
    InBand(|a|, |b|, i, j - 1) && Cell(a, b, i, j) == Cell(a, b, i, j - 1) + 1
  }

  predicate DeletionExplains<T(==)>(a: seq<T>, b: seq<T>, i: int, j: int)
    requires |a| <= |b| && InBand(|a|, |b|, i, j)
  {
    InBand(|a|, |b|, i - 1, j) && Cell(a, b, i, j) == Cell(a, b, i - 1, j) + 1
  }

  /** Seen from its end, the path takes an entry of the big array alone wherever that explains the cell, else one
      of the small array alone where that does, and keeps an entry only where neither does. */
  predicate IsPreferred<T(==)>(a: seq<T>, b: seq<T>, i: int, j: int, path: seq<Move>)
    requires |a| <= |b|
    decreases |path|
  {
    InBand(|a|, |b|, i, j) &&
    if path == [] then i == 0 && j == 0
    else
      var before := path[..|path| - 1];
      match path[|path| - 1]
      case AddOne => AdditionExplains(a, b, i, j) && IsPreferred(a, b, i, j - 1, before)
      case DropOne =>
        !AdditionExplains(a, b, i, j) && DeletionExplains(a, b, i, j) && IsPreferred(a, b, i - 1, j, before)
      case Keep =>
        !AdditionExplains(a, b, i, j) && !DeletionExplains(a, b, i, j) && IsPreferred(a, b, i - 1, j - 1, before)
  }

  lemma StepBackPrefers<T>(a: seq<T>, b: seq<T>, i: int, j: int)
    requires |a| <= |b| && InBand(|a|, |b|, i, j) && (i > 0 || j > 0)
    ensures StepBack(a, b, i, j).AddOne? <==> AdditionExplains(a, b, i, j)
    ensures StepBack(a, b, i, j).DropOne? <==> !AdditionExplains(a, b, i, j) && DeletionExplains(a, b, i, j)
  {
    hide Cell;
  }

  lemma PreferredGrows<T>(a: seq<T>, b: seq<T>, i: int, j: int, before: seq<Move>, m: Move)
    requires |a| <= |b| && InBand(|a|, |b|, i, j)
    requires match m
             case AddOne => AdditionExplains(a, b, i, j) && IsPreferred(a, b, i, j - 1, before)
             case DropOne =>
               !AdditionExplains(a, b, i, j) && DeletionExplains(a, b, i, j) && IsPreferred(a, b, i - 1, j, before)
             case Keep =>
               !AdditionExplains(a, b, i, j) && !DeletionExplains(a, b, i, j) && IsPreferred(a, b, i - 1, j - 1, before)
    ensures IsPreferred(a, b, i, j, before + [m])
  {
    hide AdditionExplains, DeletionExplains;
    assert (before + [m])[..|before + [m]| - 1] == before;
  }

  /** The walk back from (i, j) ends with its first step. */
  lemma WalkBackEnds<T>(a: seq<T>, b: seq<T>, i: int, j: int)
    requires |a| <= |b| && InBand(|a|, |b|, i, j) && (i > 0 || j > 0)
    ensures match StepBack(a, b, i, j)
            case AddOne => InBand(|a|, |b|, i, j - 1) && WalkBack(a, b, i, j) == WalkBack(a, b, i, j - 1) + [AddOne]
            case DropOne => InBand(|a|, |b|, i - 1, j) && WalkBack(a, b, i, j) == WalkBack(a, b, i - 1, j) + [DropOne]
            case Keep =>
              InBand(|a|, |b|, i - 1, j - 1) && WalkBack(a, b, i, j) == WalkBack(a, b, i - 1, j - 1) + [Keep]
  {
    hide Cell, StepBack;
    StepBackKeeps(a, b, i, j);
  }

  lemma PreferredStart<T>(a: seq<T>, b: seq<T>)
    requires |a| <= |b|
    ensures IsPreferred(a, b, 0, 0, WalkBack(a, b, 0, 0))
  {
  }

  /** The walk back takes the preferred step everywhere. */
  lemma {:induction false} WalkBackIsPreferred<T>(a: seq<T>, b: seq<T>, i: int, j: int)
    requires |a| <= |b| && InBand(|a|, |b|, i, j)
    ensures IsPreferred(a, b, i, j, WalkBack(a, b, i, j))
    decreases i + j
  {
    hide Cell, StepBack, WalkBack, IsPreferred, AdditionExplains, DeletionExplains;
    if i == 0 && j == 0 {
      PreferredStart(a, b);
    } else {
      StepCosts(a, b, i, j);
      StepBackPrefers(a, b, i, j);
      WalkBackEnds(a, b, i, j);
      match StepBack(a, b, i, j)
      case AddOne =>
        WalkBackIsPreferred(a, b, i, j - 1);
        PreferredGrows(a, b, i, j, WalkBack(a, b, i, j - 1), AddOne);
      case DropOne =>
        WalkBackIsPreferred(a, b, i - 1, j);
        PreferredGrows(a, b, i, j, WalkBack(a, b, i - 1, j), DropOne);
      case Keep =>
        WalkBackIsPreferred(a, b, i - 1, j - 1);
        PreferredGrows(a, b, i, j, WalkBack(a, b, i - 1, j - 1), Keep);
    }
  }

  lemma EmptyPath<T>(a: seq<T>, b: seq<T>)
    requires |a| <= |b|
    ensures IsPath(a, b, 0, 0, []) && Edits([]) == 0 && Cell(a, b, 0, 0) == 1
  {
  }

  lemma PathGrows<T>(a: seq<T>, b: seq<T>, i: int, j: int, before: seq<Move>, m: Move)
    requires |a| <= |b| && InBand(|a|, |b|, i, j)
    requires match m
             case AddOne => IsPath(a, b, i, j - 1, before)
             case DropOne => IsPath(a, b, i - 1, j, before)
             case Keep => i > 0 && j > 0 && a[i - 1] == b[j - 1] && IsPath(a, b, i - 1, j - 1, before)
    ensures IsPath(a, b, i, j, before + [m])
    ensures Edits(before + [m]) == Edits(before) + (if m == Keep then 0 else 1)
  {
  }

  /** Band optimality: a filled cell minus one is the least number of edits over all paths in the band. */
  lemma {:induction false} BandOptimality<T>(a: seq<T>, b: seq<T>, i: int, j: int)
    requires |a| <= |b| && InBand(|a|, |b|, i, j)
    ensures exists path :: IsPath(a, b, i, j, path) && Edits(path) == Cell(a, b, i, j) - 1
    ensures forall path :: IsPath(a, b, i, j, path) ==> Cell(a, b, i, j) - 1 <= Edits(path)
  {
    WalkBackIsOptimal(a, b, i, j);
    forall path | IsPath(a, b, i, j, path)
      ensures Cell(a, b, i, j) - 1 <= Edits(path)
    {
      NoPathIsShorter(a, b, i, j, path);
    }
  }
}
